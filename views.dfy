/** The two JSON endpoints (`views.py`): each maps a request and the outcome of its
    classifier to a status code and a JSON body. The classifier is an oracle, a
    function from the query text to a label or the message of the exception it raised. */
module Views {
  import opened Wrappers
  import Normalize
  import LinearSvcUtils
  import BertUtils

  /** The parts of a Django request the handlers read: `request.method` (as `verb`) and the
      POST form. */
  datatype Request = Request(verb: string, post: map<string, string>)

  /** A `JsonResponse`: its status and its (flat, string-valued) JSON object. */
  datatype Response = Response(status: nat, body: map<string, string>)

  /** A response, together with the arguments the classifier was called with, in order. */
  datatype Handled = Handled(response: Response, calls: seq<string>)

  /** `categorize_intent` of either adapter, seen from the view. */
  type Classifier = string -> Result<string>

  const NotPostMessage: string := "Only POST requests allowed"
  const NoQueryMessage: string := "No query provided"

  /** `request.POST.get('query', '')`. */
  function QueryText(req: Request): (r: string)
    ensures "query" in req.post ==> r == req.post["query"]
    ensures r == "" <==> "query" !in req.post || req.post["query"] == ""
  {
    if "query" in req.post then req.post["query"] else ""
  }

  /** The request gets past both checks and reaches the classifier. */
  predicate Accepted(req: Request) {
    req.verb == "POST" && QueryText(req) != ""
  }

  /** The response rules both endpoints follow, clause by clause. */
  ghost predicate Answers(req: Request, classify: Classifier, h: Handled) {
    var q := QueryText(req);
    && (req.verb != "POST" ==> h.response == Response(405, map["error" := NotPostMessage]))
    && (req.verb == "POST" && q == "" ==> h.response == Response(400, map["error" := NoQueryMessage]))
    && (Accepted(req) && classify(q).Ok? ==> h.response == Response(200, map["category" := classify(q).value]))
    && (Accepted(req) && classify(q).Err? ==> h.response == Response(500, map["error" := classify(q).error]))
    && (Accepted(req) ==> h.calls == [q])
    && (!Accepted(req) ==> h.calls == [])
  }

  /** The rules leave no choice: they determine the response and the calls. */
  lemma AnswersIsDeterministic(req: Request, classify: Classifier, h1: Handled, h2: Handled)
    requires Answers(req, classify, h1) && Answers(req, classify, h2)
    ensures h1 == h2
  {
    var q := QueryText(req);
    if Accepted(req) {
      match classify(q)
      case Ok(l) =>
      case Err(e) =>
    }
  }

  /** `api_categorize(request)`, dispatching to the BERT adapter. */
  function ApiCategorize(req: Request, categorizeIntent: Classifier): (h: Handled)
    ensures Answers(req, categorizeIntent, h)
    ensures h.response.status in {200, 400, 405, 500}
  {
    if req.verb == "POST" then
      var queryText := QueryText(req);
      if queryText == "" then
        Handled(Response(400, map["error" := NoQueryMessage]), [])
      else
        match categorizeIntent(queryText)
        case Ok(category) => Handled(Response(200, map["category" := category]), [queryText])
        case Err(e) => Handled(Response(500, map["error" := e]), [queryText])
    else
      Handled(Response(405, map["error" := NotPostMessage]), [])
  }

  /** `api_linear_svc_categorize(request)`, dispatching to the LinearSVC adapter. */
  function ApiLinearSvcCategorize(req: Request, linearCategorizeIntent: Classifier): (h: Handled)
    ensures Answers(req, linearCategorizeIntent, h)
    ensures h.response.status in {200, 400, 405, 500}
  {
    if req.verb == "POST" then
      var queryText := QueryText(req);
      if queryText == "" then
        Handled(Response(400, map["error" := NoQueryMessage]), [])
      else
        match linearCategorizeIntent(queryText)
        case Ok(category) => Handled(Response(200, map["category" := category]), [queryText])
        case Err(e) => Handled(Response(500, map["error" := e]), [queryText])
    else
      Handled(Response(405, map["error" := NotPostMessage]), [])
  }

  /** Each status code, read back: what the status says about the request and the classifier. */
  lemma StatusMeaning(req: Request, classify: Classifier)
    ensures var s := ApiCategorize(req, classify).response.status;
      && (s == 405 <==> req.verb != "POST")
      && (s == 400 <==> req.verb == "POST" && QueryText(req) == "")
      && (s == 200 <==> Accepted(req) && classify(QueryText(req)).Ok?)
      && (s == 500 <==> Accepted(req) && classify(QueryText(req)).Err?)
  {
  }

  /** A rejected request never reaches the classifier: its response is the same whatever
      the classifier would have done. */
  lemma RejectedIgnoresClassifier(req: Request, f: Classifier, g: Classifier)
    requires !Accepted(req)
    ensures ApiCategorize(req, f) == ApiCategorize(req, g)
    ensures ApiLinearSvcCategorize(req, f) == ApiLinearSvcCategorize(req, g)
    ensures ApiCategorize(req, f).calls == []
  {
  }

  /** An accepted request depends on the classifier only through its answer for the raw
      query text. */
  lemma AcceptedDependsOnRawQuery(req: Request, f: Classifier, g: Classifier)
    requires Accepted(req)
    requires f(QueryText(req)) == g(QueryText(req))
    ensures ApiCategorize(req, f) == ApiCategorize(req, g)
    ensures ApiLinearSvcCategorize(req, f) == ApiLinearSvcCategorize(req, g)
  {
  }

  /** The two endpoints differ only in the classifier they are given. */
  lemma HandlersAgree(req: Request, classify: Classifier)
    ensures ApiCategorize(req, classify) == ApiLinearSvcCategorize(req, classify)
  {
    AnswersIsDeterministic(req, classify, ApiCategorize(req, classify), ApiLinearSvcCategorize(req, classify));
  }

  /** A whitespace-only query is not empty: it passes the 400 check and the classifier
      is called with it as it is. */
  lemma BlankQueryReachesClassifier(t: Normalize.CharTables, req: Request, classify: Classifier)
    requires req.verb == "POST"
    requires Normalize.IsBlank(t, QueryText(req)) && QueryText(req) != ""
    ensures ApiCategorize(req, classify).response.status != 400
    ensures ApiCategorize(req, classify).calls == [QueryText(req)]
  {
  }

  /** With the LinearSVC pipeline loaded, a whitespace-only query is classified as the
      empty text: the endpoint answers with the pipeline's first prediction for `[""]`. */
  lemma BlankQueryClassifiedAsEmpty(p: LinearSvcUtils.Pipeline, t: Normalize.CharTables, req: Request)
    requires Normalize.PythonLike(t)
    requires req.verb == "POST"
    requires Normalize.IsBlank(t, QueryText(req)) && QueryText(req) != ""
    ensures var h := ApiLinearSvcCategorize(req, q => LinearSvcUtils.Classify(p, t, q));
      && h.calls == [QueryText(req)]
      && (LinearSvcUtils.PredictOne(p, "").Ok? ==>
            h.response == Response(200, map["category" := LinearSvcUtils.PredictOne(p, "").value]))
      && (LinearSvcUtils.PredictOne(p, "").Err? ==>
            h.response == Response(500, map["error" := LinearSvcUtils.PredictOne(p, "").error]))
  {
    Normalize.CleanEmptyIff(t, QueryText(req));
  }

  /** With the BERT model loaded and its mapping keyed by index, an accepted request whose
      forward pass yields one of the network's classes gets status 200 and a label of the
      mapping. `categorizeIntent` is the adapter with the model loaded: it answers the
      query as inference on the cleaned query does. */
  lemma LoadedBertAnswersWithLabel(g: BertUtils.Globals, predict: BertUtils.Predictor,
                                   t: Normalize.CharTables, req: Request, categorizeIntent: Classifier)
    requires BertUtils.Consistent(g) && g.model.Some? && BertUtils.KeyedByIndex(g)
    requires Accepted(req)
    requires var cleaned := Normalize.Clean(t, QueryText(req));
      && categorizeIntent(QueryText(req)) == BertUtils.Infer(g, predict, cleaned)
      && predict(g.tokenizer.value, g.model.value, cleaned).Ok?
      && predict(g.tokenizer.value, g.model.value, cleaned).value < g.model.value.numLabels
    ensures var h := ApiCategorize(req, categorizeIntent);
      && h.response.status == 200
      && "category" in h.response.body
      && h.response.body["category"] in g.id2label.value.Values
  {
    BertUtils.InferInRange(g, predict, Normalize.Clean(t, QueryText(req)));
    AcceptedAnswerIsCategory(req, categorizeIntent);
  }

  /** An accepted request whose classifier answers with a label gets that label back. */
  lemma AcceptedAnswerIsCategory(req: Request, f: Classifier)
    requires Accepted(req) && f(QueryText(req)).Ok?
    ensures ApiCategorize(req, f).response == Response(200, map["category" := f(QueryText(req)).value])
  {
  }
}
