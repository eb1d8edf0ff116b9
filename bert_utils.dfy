/** The BERT adapter (`utils.py`): a tokenizer, an id-to-label mapping and a
    sequence-classification network, loaded step by step on first use, then used
    to turn a query into the label of its predicted class. */
module BertUtils {
  import opened Wrappers
  import opened Normalize

  type Label = string

  /** The pretrained checkpoint both the tokenizer and the network are fetched by. */
  const TokenizerName: string := "bert-base-uncased"

  datatype Tokenizer = Tokenizer(name: string)

  /** Parameter name to flattened tensor. */
  type StateDict = map<string, seq<real>>

  /** The dictionary `torch.load(MODEL_PATH)` returns, with only the three keys read;
      `None` stands for a missing key. */
  datatype Checkpoint = Checkpoint(
    id2label: Option<map<int, Label>>,
    label2id: Option<map<Label, int>>,
    modelStateDict: Option<StateDict>)

  /** The `BertForSequenceClassification` object: what it was built with, and which
      of the in-place steps after construction have completed. */
  datatype Network = Network(
    name: string,
    numLabels: nat,
    id2label: map<int, Label>,
    label2id: map<Label, int>,
    restored: bool,   // `load_state_dict` completed
    onDevice: bool)   // the device move completed

  /** What each call into the libraries would do during `_load_model`: complete or raise. */
  datatype LoadEnvironment = LoadEnvironment(
    tokenizerFetch: Outcome,          // fetching the pretrained tokenizer
    checkpointRead: Result<Checkpoint>, // reading the checkpoint file
    networkFetch: Outcome,            // fetching the pretrained network
    restore: Outcome,                 // restoring the weights
    deviceMove: Outcome)              // moving the network to the device

  /** The three module globals. */
  datatype Globals = Globals(
    tokenizer: Option<Tokenizer>,
    id2label: Option<map<int, Label>>,
    model: Option<Network>)

  /** What holds of the globals at every call boundary: the model is only ever
      assigned after the tokenizer and the mapping, and it is sized to the mapping. */
  ghost predicate Consistent(g: Globals) {
    g.model.Some? ==>
      && g.tokenizer.Some?
      && g.id2label.Some?
      && g.model.value.id2label == g.id2label.value
      && g.model.value.numLabels == |g.id2label.value|
  }

  /** `str(KeyError(k))` for a string key `k`: its repr, in single quotes. */
  function KeyErrorText(key: string): Message {
    "'" + key + "'"
  }

  function DigitChar(d: nat): char
    requires d < 10
  {
    "0123456789"[d]
  }

  /** `repr(n)` of a non-negative int, the text of `KeyError(n)`. */
  function Decimal(n: nat): string
    decreases n
  {
    if n < 10 then [DigitChar(n)] else Decimal(n / 10) + [DigitChar(n % 10)]
  }

  // ---------------------------------------------------------------------------
  // `_load_model` as a sequence of steps, each of which may raise

  /** The number of steps of `_load_model` that can raise: the tokenizer fetch (line 26),
      `torch.load` (29), `checkpoint['id2label']` (32), `checkpoint['label2id']` (33),
      the network fetch (36-41), `checkpoint['model_state_dict']` (44),
      `load_state_dict` (44) and `.to(_device)` (47). `.eval()` cannot raise. */
  const StepCount: nat := 8

  /** Whether step `i` completes, given that all earlier ones did: the tokenizer fetch, the
      network fetch, the restore and the device move complete as the library does; the
      checkpoint read raises `torch.load`'s exception when it raises; each key lookup raises a
      `KeyError` naming the key exactly when the key is missing from the checkpoint that was read. */
  function StepOutcome(env: LoadEnvironment, i: nat): (r: Outcome)
    requires i < StepCount
    ensures i == 0 ==> r == env.tokenizerFetch
    ensures i == 1 ==> (r.Fail? <==> env.checkpointRead.Err?)
    ensures i == 1 && env.checkpointRead.Err? ==> r == Fail(env.checkpointRead.error)
    ensures i == 2 ==> (r.Fail? <==> env.checkpointRead.Ok? && env.checkpointRead.value.id2label.None?)
    ensures i == 2 && r.Fail? ==> r.error == KeyErrorText("id2label")
    ensures i == 3 ==> (r.Fail? <==> env.checkpointRead.Ok? && env.checkpointRead.value.label2id.None?)
    ensures i == 3 && r.Fail? ==> r.error == KeyErrorText("label2id")
    ensures i == 4 ==> r == env.networkFetch
    ensures i == 5 ==> (r.Fail? <==> env.checkpointRead.Ok? && env.checkpointRead.value.modelStateDict.None?)
    ensures i == 5 && r.Fail? ==> r.error == KeyErrorText("model_state_dict")
    ensures i == 6 ==> r == env.restore
    ensures i == 7 ==> r == env.deviceMove
  {
    var ck := env.checkpointRead;
    if i == 0 then env.tokenizerFetch
    else if i == 1 then (if ck.Err? then Fail(ck.error) else Pass)
    else if i == 2 then (if ck.Ok? && ck.value.id2label.None? then Fail(KeyErrorText("id2label")) else Pass)
    else if i == 3 then (if ck.Ok? && ck.value.label2id.None? then Fail(KeyErrorText("label2id")) else Pass)
    else if i == 4 then env.networkFetch
    else if i == 5 then (if ck.Ok? && ck.value.modelStateDict.None? then Fail(KeyErrorText("model_state_dict")) else Pass)
    else if i == 6 then env.restore
    else env.deviceMove
  }

  /** The first `n` steps all complete. */
  predicate StepsPass(env: LoadEnvironment, n: nat)
    requires n <= StepCount
  {
    forall j :: 0 <= j < n ==> StepOutcome(env, j).Pass?
  }

  /** The first step from `i` on that raises, or `StepCount` if none does. */
  function CompletedFrom(env: LoadEnvironment, i: nat): (k: nat)
    requires i <= StepCount
    ensures i <= k <= StepCount
    ensures forall j :: i <= j < k ==> StepOutcome(env, j).Pass?
    ensures k < StepCount ==> StepOutcome(env, k).Fail?
    decreases StepCount - i
  {
    if i == StepCount || StepOutcome(env, i).Fail? then i else CompletedFrom(env, i + 1)
  }

  /** How many steps of `_load_model` complete before one raises. */
  function Completed(env: LoadEnvironment): (k: nat)
    ensures k <= StepCount
    ensures forall j :: 0 <= j < k ==> StepOutcome(env, j).Pass?
    ensures k < StepCount ==> StepOutcome(env, k).Fail?
  {
    CompletedFrom(env, 0)
  }

  /** The first `n` steps complete exactly when the first raising step is not among them. */
  lemma StepsPassIff(env: LoadEnvironment, n: nat)
    requires n <= StepCount
    ensures StepsPass(env, n) <==> n <= Completed(env)
  {
    var k := Completed(env);
    if k < n {
      assert StepOutcome(env, k).Fail?;
    }
  }

  /** What `_load_model` raises, if anything: nothing exactly when every step completes,
      and otherwise the exception of the first step that raises. */
  function LoadOutcome(env: LoadEnvironment): (r: Outcome)
    ensures r.Pass? <==> StepsPass(env, StepCount)
    ensures r.Fail? ==> exists i :: 0 <= i < StepCount && StepsPass(env, i) && r == StepOutcome(env, i)
  {
    var k := Completed(env);
    StepsPassIff(env, StepCount);
    StepsPassIff(env, k);
    if k == StepCount then Pass else StepOutcome(env, k)
  }

  /** The globals after the body of `_load_model` ran from `g`: each global holds what
      its assignment wrote exactly when every step before that assignment completed,
      and a load from an unset `_model` leaves the globals consistent. */
  function AfterLoad(env: LoadEnvironment, g: Globals): (r: Globals)
    ensures r.tokenizer == (if StepsPass(env, 1) then Some(Tokenizer(TokenizerName)) else g.tokenizer)
    ensures StepsPass(env, 3) ==>
      env.checkpointRead.Ok? && r.id2label == env.checkpointRead.value.id2label
    ensures !StepsPass(env, 3) ==> r.id2label == g.id2label
    ensures StepsPass(env, 5) ==>
      && r.model.Some? && r.id2label.Some?
      && r.model.value.numLabels == |r.id2label.value|
      && r.model.value.restored == StepsPass(env, 7)
      && r.model.value.onDevice == StepsPass(env, 8)
    ensures !StepsPass(env, 5) ==> r.model == g.model
    ensures Consistent(g) && g.model.None? ==> Consistent(r)
  {
    var k := Completed(env);
    StepsPassIff(env, 1);
    StepsPassIff(env, 3);
    StepsPassIff(env, 5);
    StepsPassIff(env, 7);
    StepsPassIff(env, 8);
    if k < 2 then
      g.(tokenizer := if k >= 1 then Some(Tokenizer(TokenizerName)) else g.tokenizer)
    else
      assert StepOutcome(env, 1).Pass?;
      var ck := env.checkpointRead.value;
      if k < 3 then
        g.(tokenizer := Some(Tokenizer(TokenizerName)))
      else
        assert StepOutcome(env, 2).Pass?;
        var m := ck.id2label.value;
        if k < 5 then
          g.(tokenizer := Some(Tokenizer(TokenizerName)), id2label := Some(m))
        else
          assert StepOutcome(env, 3).Pass?;
          Globals(
            Some(Tokenizer(TokenizerName)),
            Some(m),
            Some(Network(TokenizerName, |m|, m, ck.label2id.value, k >= 7, k >= 8)))
  }

  // ---------------------------------------------------------------------------
  // What the order of assignments implies

  /** After a load that completes, all three globals are set, the network is restored
      and on the device, and it has exactly `len(_id2label)` labels. */
  lemma SuccessfulLoadSetsAll(env: LoadEnvironment, g: Globals)
    requires LoadOutcome(env).Pass?
    ensures var g' := AfterLoad(env, g);
      && g'.tokenizer == Some(Tokenizer(TokenizerName))
      && g'.id2label.Some? && g'.model.Some?
      && g'.model.value.restored && g'.model.value.onDevice
      && g'.model.value.numLabels == |g'.id2label.value|
      && env.checkpointRead.Ok? && g'.id2label == env.checkpointRead.value.id2label
  {
    assert Completed(env) == StepCount;
  }

  /** A load that raises before `_model` is assigned (the tokenizer fetch, the checkpoint
      read, a missing mapping key or the network fetch) leaves `_model` unset, so the next
      call retries the whole load; `_tokenizer` has been overwritten if its fetch completed. */
  lemma EarlyFailureLeavesModelUnset(env: LoadEnvironment, g: Globals)
    requires g.model.None?
    requires Completed(env) <= 4
    ensures LoadOutcome(env).Fail?
    ensures AfterLoad(env, g).model.None?
    ensures AfterLoad(env, g).tokenizer ==
      (if env.tokenizerFetch.Pass? then Some(Tokenizer(TokenizerName)) else g.tokenizer)
  {
  }

  /** A load that raises after the network was built (a missing state dict, a failed
      `load_state_dict` or a failed `.to(_device)`) leaves `_model` set to a network that
      is not fully prepared, so later calls skip the load and use it as it is. */
  lemma LateFailureLeavesModelSet(env: LoadEnvironment, g: Globals)
    requires 5 <= Completed(env) < StepCount
    ensures LoadOutcome(env).Fail?
    ensures AfterLoad(env, g).model.Some?
    ensures !(AfterLoad(env, g).model.value.restored && AfterLoad(env, g).model.value.onDevice)
  {
  }

  // ---------------------------------------------------------------------------
  // Inference

  /** `_id2label[predicted_class_id]`. */
  function Lookup(id2label: map<int, Label>, id: nat): (r: Result<Label>)
    ensures r.Ok? <==> id in id2label
    ensures r.Ok? ==> r.value == id2label[id] && r.value in id2label.Values
    ensures r.Err? ==> r.error == Decimal(id)
  {
    if id in id2label then Ok(id2label[id]) else Err(Decimal(id))
  }

  /** Tokenization, the forward pass and the argmax, as one possibly raising call that
      yields the predicted class index. */
  type Predictor = (Tokenizer, Network, string) -> Result<nat>

  /** The rest of `categorize_intent` once the model is loaded. */
  function Infer(g: Globals, predict: Predictor, cleaned: string): (r: Result<Label>)
    requires Consistent(g) && g.model.Some?
    ensures var p := predict(g.tokenizer.value, g.model.value, cleaned);
      && (r.Ok? <==> p.Ok? && p.value in g.id2label.value)
      && (r.Ok? ==> r.value == g.id2label.value[p.value] && r.value in g.id2label.value.Values)
      && (p.Err? ==> r == Err(p.error))
  {
    match predict(g.tokenizer.value, g.model.value, cleaned)
    case Err(e) => Err(e)
    case Ok(id) => Lookup(g.id2label.value, id)
  }

  /** The mapping's keys are exactly the network's output indices `0 .. numLabels-1`,
      as they are for a mapping built by enumerating the training labels. */
  ghost predicate KeyedByIndex(g: Globals)
    requires Consistent(g) && g.model.Some?
  {
    forall k :: k in g.id2label.value <==> 0 <= k < g.model.value.numLabels
  }

  /** When the mapping is keyed by index and the predicted index is one of the
      network's outputs, the lookup succeeds and yields a label of the mapping. */
  lemma InferInRange(g: Globals, predict: Predictor, cleaned: string)
    requires Consistent(g) && g.model.Some? && KeyedByIndex(g)
    requires predict(g.tokenizer.value, g.model.value, cleaned).Ok?
    requires predict(g.tokenizer.value, g.model.value, cleaned).value < g.model.value.numLabels
    ensures Infer(g, predict, cleaned).Ok?
    ensures Infer(g, predict, cleaned).value in g.id2label.value.Values
  {
  }

  /** Inferring from the cleaned text gives the same answer as inferring from the raw text. */
  lemma InferOfCleaned(g: Globals, predict: Predictor, t: CharTables, text: string)
    requires Consistent(g) && g.model.Some?
    requires PythonLike(t)
    ensures Infer(g, predict, Clean(t, Clean(t, text))) == Infer(g, predict, Clean(t, text))
  {
    CleanIdempotent(t, text);
  }

  /** Queries that differ only in case and spacing get the same answer. */
  lemma InferSameWords(g: Globals, predict: Predictor, t: CharTables, a: string, b: string)
    requires Consistent(g) && g.model.Some?
    requires t.isSpace(' ')
    requires SplitWords(t, Lower(t, a)) == SplitWords(t, Lower(t, b))
    ensures Infer(g, predict, Clean(t, a)) == Infer(g, predict, Clean(t, b))
  {
    CleanIsJoinOfSplit(t, a);
    CleanIsJoinOfSplit(t, b);
  }

  // ---------------------------------------------------------------------------
  // The module state

  class Categorizer {
    const chars: CharTables
    var tokenizer: Option<Tokenizer>
    var id2label: Option<map<int, Label>>
    var model: Option<Network>
    ghost var loads: nat        // times the body of `_load_model` ran
    ghost var failedLoads: nat  // of those, the ones that left `_model` unset

    function State(): Globals
      reads this
    {
      Globals(tokenizer, id2label, model)
    }

    ghost predicate Valid()
      reads this
    {
      && Consistent(State())
      && loads == failedLoads + (if model.Some? then 1 else 0)
    }

    /** Module import: the three globals are `None`. */
    constructor (chars: CharTables)
      ensures Valid()
      ensures this.chars == chars && State() == Globals(None, None, None)
      ensures loads == 0 && failedLoads == 0
    {
      this.chars := chars;
      tokenizer, id2label, model := None, None, None;
      loads, failedLoads := 0, 0;
    }

    /** `_load_model()`: nothing when `_model` is set; otherwise the assignments of lines
        26-50 in order, stopping at the first library call that raises. */
    method LoadModel(env: LoadEnvironment) returns (outcome: Outcome)
      requires Valid()
      modifies this
      ensures Valid()
      ensures old(model).Some? ==> State() == old(State()) && loads == old(loads) && outcome == Pass
      ensures old(model).None? ==>
        && State() == AfterLoad(env, old(State()))
        && outcome == LoadOutcome(env)
        && loads == old(loads) + 1
    {
      if model.Some? {
        return Pass;
      }
      loads := loads + 1;
      // line 26: fetch the tokenizer and store it (step 0)
      if env.tokenizerFetch.Fail? {
        failedLoads := failedLoads + 1;
        return env.tokenizerFetch;
      }
      tokenizer := Some(Tokenizer(TokenizerName));
      // line 29: read the checkpoint file (step 1)
      if env.checkpointRead.Err? {
        failedLoads := failedLoads + 1;
        return Fail(env.checkpointRead.error);
      }
      var checkpoint := env.checkpointRead.value;
      // line 32: store the checkpoint's id-to-label mapping (step 2)
      if checkpoint.id2label.None? {
        failedLoads := failedLoads + 1;
        return Fail(KeyErrorText("id2label"));
      }
      id2label := checkpoint.id2label;
      // line 33: look up the label-to-id mapping (step 3)
      if checkpoint.label2id.None? {
        failedLoads := failedLoads + 1;
        return Fail(KeyErrorText("label2id"));
      }
      var label2id := checkpoint.label2id.value;
      // lines 36-41: build the network sized to the mapping and store it (step 4)
      if env.networkFetch.Fail? {
        failedLoads := failedLoads + 1;
        return env.networkFetch;
      }
      var m := id2label.value;
      model := Some(Network(TokenizerName, |m|, m, label2id, false, false));
      // line 44: look up the weights (step 5) and restore them (step 6)
      if checkpoint.modelStateDict.None? {
        return Fail(KeyErrorText("model_state_dict"));
      }
      if env.restore.Fail? {
        return env.restore;
      }
      model := Some(model.value.(restored := true));
      // line 47: move the network to the device (step 7)
      if env.deviceMove.Fail? {
        return env.deviceMove;
      }
      model := Some(model.value.(onDevice := true));
      // line 50: switching to evaluation mode cannot raise
      outcome := Pass;
    }

    /** `categorize_intent(text)`: load if `_model is None`, clean the text, predict a
        class index and look it up in `_id2label`. */
    method Categorize(text: string, env: LoadEnvironment, predict: Predictor) returns (r: Result<Label>)
      requires Valid()
      modifies this
      ensures Valid()
      ensures old(model).Some? ==> State() == old(State()) && loads == old(loads)
      ensures old(model).None? ==> State() == AfterLoad(env, old(State())) && loads == old(loads) + 1
      ensures old(model).None? && LoadOutcome(env).Fail? ==> r == Err(LoadOutcome(env).error)
      ensures old(model).Some? || LoadOutcome(env).Pass? ==>
        model.Some? && r == Infer(State(), predict, Clean(chars, text))
    {
      if model.None? {
        var outcome := LoadModel(env);
        if outcome.Fail? {
          return Err(outcome.error);
        }
        SuccessfulLoadSetsAll(env, old(State()));
      }
      var cleaned := Clean(chars, text);
      r := Infer(State(), predict, cleaned);
    }
  }
}
