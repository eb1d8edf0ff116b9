# finquery categorizer, modelled in Dafny

finquery classifies a banking customer's free-text query into an intent category. Two
interchangeable adapters do the classification. One is a LinearSVC pipeline (`linear_svc_utils.py`).
The other is a fine-tuned BERT sequence classifier (`utils.py`). Two Django JSON endpoints
(`views.py`) put an HTTP front on them. This project models the logic around the
classifiers and proves properties of it:

- **Query cleaning** (`normalize.dfy`, module `Normalize`). It models
  `re.sub(r'\s+', ' ', text.lower()).strip()`, which both adapters apply. Python's Unicode
  tables are parameters (`CharTables`):
  - a whitespace predicate, shared by `\s` and `str.strip()` (both use `str.isspace()` in Python 3);
  - a lowercase map applied code point by code point, which may expand one code point into
    several. Python's one context-dependent rule (Final_Sigma) is outside it; see "Left out".

  The expression is proved equal to an independent reference, `' '.join(text.lower().split())`.
  Through that reference, the output is shown to be trimmed, single-spaced, lowercase,
  word-preserving, idempotent, and empty exactly for blank input.
- **LinearSVC adapter** (`linear_svc_utils.dfy`, module `LinearSvcUtils`). The module global
  `_pipeline` becomes the field of class `Categorizer`. `joblib.load` becomes a parameter
  that either yields a pipeline or raises. A ghost load counter records how often
  the load ran, and how often it raised.
- **BERT adapter** (`bert_utils.dfy`, module `BertUtils`). The globals `_tokenizer`,
  `_id2label` and `_model` become fields of class `Categorizer`. `_load_model` is
  modelled statement by statement, with its eight raising steps in source order. It is
  proved against a specification, `AfterLoad`: a global holds its new value exactly when
  every step before its assignment completed. From that, the consequences of a load that
  fails part-way are proved: what is retried and what sticks.
- **Endpoints** (`views.dfy`, module `Views`). `api_categorize` and `api_linear_svc_categorize`
  are pure functions of the request and of the classifier, which is an oracle. Each
  returns the JSON response and the list of arguments the classifier was called with.
- **Shared values** (`wrappers.dfy`, module `Wrappers`): `Option`, and `Result`/`Outcome`.
  An exception is represented by its message, `str(e)`, because that text is what
  the endpoints forward.

## Model

| member | source | states |
|---|---|---|
| Normalize.Lower | finquery_site/categorizer/linear_svc_utils.py:26 | `text.lower()`: a text whose every character is fixed by the lowercase map comes back unchanged |
| Normalize.Collapse | finquery_site/categorizer/linear_svc_utils.py:26 | `re.sub(r'\s+', ' ', s)`: never longer than its input, and empty exactly when the input is empty |
| Normalize.Strip | finquery_site/categorizer/linear_svc_utils.py:26 | `str.strip()`: no whitespace at either end, and never longer than its input |
| Normalize.StripEmptyIff | finquery_site/categorizer/linear_svc_utils.py:26 | stripping leaves nothing if and only if the input is all whitespace |
| Normalize.Clean | finquery_site/categorizer/linear_svc_utils.py:26 | the whole cleaning expression: no whitespace at either end, and never longer than the lowercased text |
| Normalize.JoinWords | finquery_site/categorizer/linear_svc_utils.py:26 | `' '.join(ws)`: starts with the first word, and with two or more words a space follows it |
| Normalize.SkipSpaces | finquery_site/categorizer/linear_svc_utils.py:26 | the leading-whitespace part of `strip()`: the result is a suffix of the input, everything dropped is whitespace, and the result does not start with whitespace |
| Normalize.SkipTrailingSpaces | finquery_site/categorizer/linear_svc_utils.py:26 | the trailing-whitespace part of `strip()`: the result is a prefix, everything dropped is whitespace, and the result does not end with whitespace |
| Normalize.TakeWord | finquery_site/categorizer/linear_svc_utils.py:26 | the maximal leading run of non-whitespace: a prefix with no whitespace, followed by whitespace or the end |
| Normalize.SplitWords | finquery_site/categorizer/linear_svc_utils.py:26 | `str.split()` as the reference for the run-collapsing: every word it yields is nonempty and contains no whitespace |
| Normalize.CleanIsJoinOfSplit | finquery_site/categorizer/linear_svc_utils.py:26 | `re.sub(r'\s+', ' ', text.lower()).strip()` equals `' '.join(text.lower().split())` for any text |
| Normalize.SplitJoinRoundTrip | finquery_site/categorizer/linear_svc_utils.py:26 | splitting a space-joined list of whitespace-free, nonempty words gives back that list |
| Normalize.CleanIsNormalized | finquery_site/categorizer/linear_svc_utils.py:26 | the cleaned text has no leading or trailing whitespace, every whitespace character in it is a plain space, and no two whitespace characters are adjacent |
| Normalize.CleanKeepsWords | finquery_site/categorizer/linear_svc_utils.py:26 | cleaning keeps exactly the words of the lowercased text, in order |
| Normalize.CleanIsLowercase | finquery_site/categorizer/linear_svc_utils.py:26 | every character of the cleaned text is fixed by `lower()` |
| Normalize.CleanIdempotent | finquery_site/categorizer/linear_svc_utils.py:26 | cleaning a cleaned text changes nothing |
| Normalize.CleanEmptyIff | finquery_site/categorizer/linear_svc_utils.py:26 | the cleaned text is empty if and only if the input is empty or all whitespace |
| Normalize.AsciiTablesArePythonLike | finquery_site/categorizer/utils.py:64 | Python's ASCII whitespace and case tables satisfy every assumption the idempotence and emptiness results make |
| LinearSvcUtils.PredictOne | finquery_site/categorizer/linear_svc_utils.py:29 | `predict([cleaned])[0]`: succeeds exactly when the one-text batch yields a nonempty prediction list, returns its element 0, and forwards the pipeline's exception |
| LinearSvcUtils.Classify | finquery_site/categorizer/linear_svc_utils.py:26-29 | `categorize_intent` with the pipeline loaded: succeeds exactly when the prediction for the one-text batch of the cleaned query is a nonempty list, answers its element 0, and forwards the pipeline's exception |
| LinearSvcUtils.ClassifyOfCleaned | finquery_site/categorizer/linear_svc_utils.py:26-29 | classifying an already cleaned query gives the same answer as classifying the raw query |
| LinearSvcUtils.ClassifySameWords | finquery_site/categorizer/linear_svc_utils.py:26-29 | two queries with the same words after lowercasing get the same answer, whatever their spacing |
| LinearSvcUtils.Categorizer.constructor | finquery_site/categorizer/linear_svc_utils.py:9 | at import `_pipeline` is `None` and nothing has been loaded |
| LinearSvcUtils.Categorizer.LoadPipeline | finquery_site/categorizer/linear_svc_utils.py:11-14 | a no-op once `_pipeline` is set; otherwise one load runs, and `_pipeline` becomes the loaded pipeline or stays `None` with the exception reported; the invariant "completed loads = loads that left a pipeline, at most one" is kept |
| LinearSvcUtils.Categorizer.Categorize | finquery_site/categorizer/linear_svc_utils.py:16-29 | loads only while `_pipeline` is `None`; a failed load propagates its exception and leaves `_pipeline` `None` for the next call to retry; with a pipeline, the answer is element 0 of its prediction for the one-text batch of the cleaned query |
| BertUtils.StepOutcome | finquery_site/categorizer/utils.py:26-47 | the eight raising steps in order: the tokenizer fetch, the network fetch, the restore and the device move raise as the library does; the checkpoint read raises exactly when `torch.load` does, and with `torch.load`'s own exception; each of the three key lookups raises exactly when the checkpoint that was read lacks the key, with a `KeyError` naming that key |
| BertUtils.CompletedFrom | finquery_site/categorizer/utils.py:24-50 | the index of the first raising step at or after `i`: every step before it completes and the step at it raises |
| BertUtils.Completed | finquery_site/categorizer/utils.py:24-50 | how many steps of `_load_model` complete: all before it complete, and the one at it raises |
| BertUtils.StepsPassIff | finquery_site/categorizer/utils.py:24-50 | the first `n` steps all complete if and only if the first raising step is not among them |
| BertUtils.LoadOutcome | finquery_site/categorizer/utils.py:24-50 | `_load_model` returns normally if and only if none of its eight raising steps raises; when it raises, the exception is that of a step all of whose predecessors completed |
| BertUtils.AfterLoad | finquery_site/categorizer/utils.py:26-47 | the globals after the load body: `_tokenizer` is replaced exactly when its fetch completed; `_id2label` becomes the checkpoint's mapping exactly when the read and its lookup completed; `_model` is set, with `len(_id2label)` labels, exactly when the steps before its assignment completed, and it is restored and on the device exactly when those steps completed; otherwise each global keeps its old value; a load from an unset `_model` leaves the globals consistent (a set `_model` implies a set tokenizer and mapping, and the model was built from that mapping) |
| BertUtils.SuccessfulLoadSetsAll | finquery_site/categorizer/utils.py:26-50 | after a load that completes, `_tokenizer`, `_id2label` and `_model` are all set, `_id2label` is the checkpoint's mapping, the network is restored and on the device, and it has exactly `len(_id2label)` labels |
| BertUtils.EarlyFailureLeavesModelUnset | finquery_site/categorizer/utils.py:26-41 | a load that raises before `_model` is assigned leaves `_model` `None`, so (with `LoadModel`'s guard) the next call retries the whole load; `_tokenizer` is overwritten exactly when its fetch completed |
| BertUtils.LateFailureLeavesModelSet | finquery_site/categorizer/utils.py:36-47 | a load that raises after `_model` was assigned leaves `_model` set to a network that is not fully restored or not on the device, and (with `LoadModel`'s guard) later calls skip the load |
| BertUtils.Lookup | finquery_site/categorizer/utils.py:81 | `_id2label[predicted_class_id]` succeeds exactly when the index is a key, its result then lies in the mapping's values, and a missing key raises a `KeyError` whose text is the index |
| BertUtils.Infer | finquery_site/categorizer/utils.py:67-83 | inference and lookup with the model loaded: succeeds exactly when the forward pass yields an index that is a key of `_id2label`, answers that key's label (a value of the mapping), and forwards the forward pass's exception |
| BertUtils.InferInRange | finquery_site/categorizer/utils.py:67-83 | with the mapping keyed by index and a predicted index among the network's `len(_id2label)` outputs, the lookup succeeds with a label of the mapping |
| BertUtils.InferOfCleaned | finquery_site/categorizer/utils.py:64-83 | inferring from an already cleaned query gives the same answer as from the raw query |
| BertUtils.InferSameWords | finquery_site/categorizer/utils.py:64-83 | two queries with the same words after lowercasing get the same answer, whatever their spacing |
| BertUtils.Categorizer.constructor | finquery_site/categorizer/utils.py:11-13 | at import the three globals are `None` and nothing has been loaded |
| BertUtils.Categorizer.LoadModel | finquery_site/categorizer/utils.py:16-50 | a no-op once `_model` is set; otherwise the globals become exactly `AfterLoad` of the old ones, the reported outcome is the first raising step's exception, one load is counted, and the globals stay consistent |
| BertUtils.Categorizer.Categorize | finquery_site/categorizer/utils.py:52-83 | loads only while `_model` is `None`; a load that raises propagates its exception; with a model (loaded before or now), the answer is the inference on the cleaned query followed by the `_id2label` lookup |
| Views.QueryText | finquery_site/categorizer/views.py:23 | `request.POST.get('query', '')`, read the same way at line 41: the posted value when the key is present, and empty exactly when the key is absent or its value is empty |
| Views.ApiCategorize | finquery_site/categorizer/views.py:18-34 | non-POST gives 405 "Only POST requests allowed"; a missing or empty `query` gives 400 "No query provided"; otherwise the classifier is called once with the raw query, and its label gives 200 `{'category': label}` while its exception gives 500 `{'error': str(e)}`; rejected requests make no call |
| Views.ApiLinearSvcCategorize | finquery_site/categorizer/views.py:36-52 | the same rules as `api_categorize`, for the LinearSVC classifier |
| Views.AnswersIsDeterministic | finquery_site/categorizer/views.py:18-52 | the response rules fix the response and the classifier calls uniquely |
| Views.StatusMeaning | finquery_site/categorizer/views.py:22-34 | each status read back: 405 iff not POST, 400 iff POST with an empty query, 200 iff accepted and the classifier answered, 500 iff accepted and it raised |
| Views.RejectedIgnoresClassifier | finquery_site/categorizer/views.py:22-25 | for a request rejected with 405 or 400, both endpoints make no classifier call and answer the same whatever the classifier does |
| Views.AcceptedDependsOnRawQuery | finquery_site/categorizer/views.py:29-32 | an accepted request's response depends on the classifier only through its answer for the raw, uncleaned query text |
| Views.HandlersAgree | finquery_site/categorizer/views.py:18-52 | the two endpoints give the same response and make the same calls when given the same classifier |
| Views.BlankQueryReachesClassifier | finquery_site/categorizer/views.py:24 | a whitespace-only query is not empty: it is not rejected with 400, and the classifier is called with it unchanged |
| Views.BlankQueryClassifiedAsEmpty | finquery_site/categorizer/views.py:41-50 | with the LinearSVC pipeline loaded, a whitespace-only query is answered with the pipeline's first prediction for the empty text |
| Views.LoadedBertAnswersWithLabel | finquery_site/categorizer/views.py:29-30 | with the BERT model loaded and its mapping keyed by index, a prediction among the network's classes yields status 200 and a label from the mapping |
| Views.AcceptedAnswerIsCategory | finquery_site/categorizer/views.py:29-30 | an accepted request whose classifier answers with a label gets 200 `{'category': label}` |

## Left out

- Classifier internals. These cover `joblib.load`, `torch.load`, `BertTokenizer` and `BertForSequenceClassification`. They also cover tokenisation to 128 tokens, the forward pass and `torch.argmax` over float logits. All are foreign library code or floating point. Each load call is a parameter that completes or raises. The LinearSVC `predict` and the BERT tokenize-forward-argmax chain are oracles that return predictions or raise.
- The checkpoint contents. The model keeps only which keys are present, and the mapping values. Tensor shapes and values are not checked.
- The state-dict restore. A `load_state_dict` that fails part-way may already have copied some tensors. The model records only whether the restore completed.
- `.eval()` cannot raise, so it is not a step. The model does not track the train/eval mode flag.
- The in-place updates of `_model` by `load_state_dict` and `.to`. These are modelled as reassigning the `model` field with the next state of the network value. `_model` is the only reference to the network, so no aliasing is lost.
- Device selection (`_device`, `utils.py:14`) has no logical content.
- The file paths `BASE`, `MODEL_PATH` and `PIPE_PATH` are file-system plumbing.
- The exception texts of the libraries are parameters. Two exceptions are raised by Python itself: a missing checkpoint key (`KeyError`) and a missing index in `_id2label`. Their texts are written out as Python prints them. The NumPy `IndexError` for an empty prediction array is a fixed string.
- Page rendering: `categorizer_home` and `linear_svc_home` render Django templates.
- `urls.py` is a route table with no logic of its own.
- Django's `JsonResponse` serialisation is out of scope. The body is a string-to-string map.
- Concurrency: the unsynchronised "load if absent" check can race between simultaneous first requests. Calls are modelled one at a time.
- Normalize.Lower: CPython's `str.lower()` has one context-dependent rule, Final_Sigma: U+03A3 lowers to U+03C2 (ς) at the end of a word and to U+03C3 (σ) elsewhere. A per-code-point map cannot express this, so for text with a capital sigma the model's exact cleaned output can differ from Python's in that letter. The lowercase, shape, word and idempotence results still hold of Python's output, because σ and ς are both fixed by `lower()` and neither is whitespace.
- Python's Unicode tables for `str.lower()` and for whitespace are abstract. They are the `CharTables` parameter. The results that need them assume the facts collected in `PythonLike`, and `AsciiTables` shows those facts can be met. The shape and reference results need only that the space character is whitespace.
- The lookup key type: `_id2label` is modelled as a map from integers. A checkpoint whose mapping has string keys would make every lookup raise; that case is not modelled.
- A checkpoint key present with the value `None` is not distinguished from a missing key: both are `None` in `Checkpoint`. In Python, `checkpoint['id2label']` being `None` raises no `KeyError` at line 32 of `utils.py`; `_id2label` becomes `None` and `len(None)` raises a `TypeError` at line 38. The model raises the `KeyError` instead, and leaves `_id2label` as it was.
- Repeated form fields: Django's `QueryDict.get` returns the last of several values posted under one key. `Request.post` holds one value per key, namely that last one.
