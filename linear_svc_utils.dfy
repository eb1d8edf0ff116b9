/** The LinearSVC adapter: a process-wide pipeline (vectorizer plus classifier)
    loaded from its artifact on first use, then asked for one prediction per query. */
module LinearSvcUtils {
  import opened Wrappers
  import opened Normalize

  type Label = string

  /** The unpickled pipeline, reduced to its `predict` over a batch of texts.
      What `predict` computes is the library's; it may also raise. */
  datatype Pipeline = Pipeline(predict: seq<string> -> Result<seq<Label>>)

  /** `str(e)` of the IndexError NumPy raises for `[0]` on an empty prediction array. */
  const EmptyPredictionMessage: Message := "index 0 is out of bounds for axis 0 with size 0"

  /** `_pipeline.predict([cleaned])[0]`. */
  function PredictOne(p: Pipeline, cleaned: string): (r: Result<Label>)
    ensures r.Ok? <==> p.predict([cleaned]).Ok? && p.predict([cleaned]).value != []
    ensures r.Ok? ==> r.value == p.predict([cleaned]).value[0]
    ensures p.predict([cleaned]).Err? ==> r == Err(p.predict([cleaned]).error)
  {
    match p.predict([cleaned])
    case Err(e) => Err(e)
    case Ok(labels) => if labels == [] then Err(EmptyPredictionMessage) else Ok(labels[0])
  }

  /** What `categorize_intent` returns once the pipeline is loaded: element 0 of the
      prediction for the one-text batch holding the cleaned query, or the exception. */
  function Classify(p: Pipeline, t: CharTables, text: string): (r: Result<Label>)
    ensures var out := p.predict([Clean(t, text)]);
      && (r.Ok? <==> out.Ok? && out.value != [])
      && (r.Ok? ==> r.value == out.value[0])
      && (out.Err? ==> r == Err(out.error))
  {
    PredictOne(p, Clean(t, text))
  }

  /** Classifying the cleaned text gives the same answer as classifying the raw text. */
  lemma ClassifyOfCleaned(p: Pipeline, t: CharTables, text: string)
    requires PythonLike(t)
    ensures Classify(p, t, Clean(t, text)) == Classify(p, t, text)
  {
    CleanIdempotent(t, text);
  }

  /** Queries that differ only in case and spacing get the same answer. */
  lemma ClassifySameWords(p: Pipeline, t: CharTables, a: string, b: string)
    requires t.isSpace(' ')
    requires SplitWords(t, Lower(t, a)) == SplitWords(t, Lower(t, b))
    ensures Classify(p, t, a) == Classify(p, t, b)
  {
    CleanIsJoinOfSplit(t, a);
    CleanIsJoinOfSplit(t, b);
  }

  /** The module state of `linear_svc_utils`: the global `_pipeline`, plus two
      ghost counters that observe how often `joblib.load` ran and how often it raised. */
  class Categorizer {
    const chars: CharTables
    var pipeline: Option<Pipeline>
    ghost var loads: nat
    ghost var failedLoads: nat

    /** Every load that did not raise left a pipeline behind, and there is at most one. */
    ghost predicate Valid()
      reads this
    {
      loads == failedLoads + (if pipeline.Some? then 1 else 0)
    }

    /** Module import: `_pipeline = None`. */
    constructor (chars: CharTables)
      ensures Valid()
      ensures this.chars == chars && pipeline == None
      ensures loads == 0 && failedLoads == 0
    {
      this.chars := chars;
      pipeline := None;
      loads, failedLoads := 0, 0;
    }

    /** `_load_pipeline()`. `artifact` is what `joblib.load(PIPE_PATH)` returns or
        raises if it is called. */
    method LoadPipeline(artifact: Result<Pipeline>) returns (outcome: Outcome)
      requires Valid()
      modifies this
      ensures Valid()
      ensures old(pipeline).Some? ==>
        pipeline == old(pipeline) && loads == old(loads) && failedLoads == old(failedLoads) && outcome == Pass
      ensures old(pipeline).None? ==> loads == old(loads) + 1
      ensures old(pipeline).None? && artifact.Ok? ==>
        pipeline == Some(artifact.value) && failedLoads == old(failedLoads) && outcome == Pass
      ensures old(pipeline).None? && artifact.Err? ==>
        pipeline == None && failedLoads == old(failedLoads) + 1 && outcome == Fail(artifact.error)
    {
      outcome := Pass;
      if pipeline.None? {
        loads := loads + 1;
        match artifact
        case Ok(p) =>
          pipeline := Some(p);
        case Err(e) =>
          failedLoads := failedLoads + 1;
          outcome := Fail(e);
      }
    }

    /** `categorize_intent(text)`: load if `_pipeline is None`, clean the text, and
        return the first prediction for the one-text batch `[cleaned]`. */
    method Categorize(text: string, artifact: Result<Pipeline>) returns (r: Result<Label>)
      requires Valid()
      modifies this
      ensures Valid()
      ensures old(pipeline).Some? ==>
        pipeline == old(pipeline) && loads == old(loads) && failedLoads == old(failedLoads)
      ensures old(pipeline).None? ==> loads == old(loads) + 1
      ensures old(pipeline).None? && artifact.Err? ==>
        pipeline == None && failedLoads == old(failedLoads) + 1 && r == Err(artifact.error)
      ensures old(pipeline).None? && artifact.Ok? ==>
        pipeline == Some(artifact.value) && failedLoads == old(failedLoads)
      ensures pipeline.Some? ==> r == PredictOne(pipeline.value, Clean(chars, text))
    {
      if pipeline.None? {
        var outcome := LoadPipeline(artifact);
        if outcome.Fail? {
          return Err(outcome.error);
        }
      }
      var cleaned := Clean(chars, text);
      r := PredictOne(pipeline.value, cleaned);
    }
  }
}
