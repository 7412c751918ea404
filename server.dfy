/**
 * The `/emotionDetector` request handler: validates the query parameter, runs the
 * detector and turns its result into a message and an HTTP status.
 */
module Server {
  import opened Wrappers
  import opened Json
  import opened EmotionDetection
  import PyText

  const InvalidInputMessage := "Invalid input. Please provide text to analyze."
  const UnprocessableMessage := "Error: Could not process the statement or received an unexpected response."
  const SuccessPrefix := "For the given statement, the system response is "
  const DominantLead := "The dominant emotion is **"

  /** What the handler returns, with the classifier request made on its behalf, if any. */
  datatype Reply = Reply(message: string, status: int, sent: Option<Request>)

  /**
   * `not text_to_analyze` for the value of `request.args.get('textToAnalyze')`.
   * Every parameter it rejects is also blank to the detector; one it lets through
   * is present and non-empty.
   */
  predicate MissingParam(param: Option<string>)
    ensures MissingParam(param) ==> IsBlank(param)
    ensures !MissingParam(param) ==> param.Some? && |param.value| > 0
  {
    param.None? || param.value == ""
  }

  /** The `'<name>': <score>` piece of the success sentence for the k-th emotion in canonical order. */
  function Field(e: Emotions, fmt: real -> string, k: nat): string
    requires Consistent(e) && e.dominant.Some? && k < 5
  {
    "'" + Names[k] + "': " + fmt(Scores(e)[k].value)
  }

  /**
   * The success sentence. `fmt` stands for Python's rendering of a number inside
   * an f-string, which is not modelled. The sentence is the fixed prefix, then
   * the five scores each after its own name in the order anger, disgust, fear,
   * joy, sadness, then the dominant name between `**` markers.
   */
  function SuccessMessage(e: Emotions, fmt: real -> string): (m: string)
    requires Consistent(e) && e.dominant.Some?
    ensures m == SuccessPrefix + Field(e, fmt, 0) + ", " + Field(e, fmt, 1) + ", " + Field(e, fmt, 2)
      + ", " + Field(e, fmt, 3) + ", and " + Field(e, fmt, 4) + ". " + DominantLead + e.dominant.value + "**."
  {
    assert Scores(e)[0].Some? && Scores(e)[1].Some? && Scores(e)[2].Some? && Scores(e)[3].Some? && Scores(e)[4].Some?;
    var anger := "'anger': " + fmt(e.anger.value);
    var disgust := "'disgust': " + fmt(e.disgust.value);
    var fear := "'fear': " + fmt(e.fear.value);
    var joy := "'joy': " + fmt(e.joy.value);
    var sadness := "'sadness': " + fmt(e.sadness.value);
    assert anger == Field(e, fmt, 0) && disgust == Field(e, fmt, 1) && fear == Field(e, fmt, 2);
    assert joy == Field(e, fmt, 3) && sadness == Field(e, fmt, 4);
    SuccessPrefix + anger + ", " + disgust + ", " + fear + ", " + joy + ", and " + sadness + ". "
    + DominantLead + e.dominant.value + "**."
  }

  /**
   * `emotion_detector_route()`, given the query parameter and the outcome of the
   * classifier call the detector would make. 400 exactly for a missing or empty
   * parameter (and then nothing is sent), 503 exactly when the detector's
   * dominant emotion is None, 200 with the success sentence otherwise.
   */
  function EmotionDetectorRoute(param: Option<string>, net: NetOutcome, fmt: real -> string): (r: Reply)
    requires !MissingParam(param) ==> Handled(param, net)
    ensures r.status in {200, 400, 503}
    ensures r.status == 400 <==> MissingParam(param)
    ensures r.status == 400 ==> r.message == InvalidInputMessage && r.sent == None
    ensures !MissingParam(param) ==> r.sent == EmotionDetector(param, net).sent
    ensures r.status == 503 <==> !MissingParam(param) && EmotionDetector(param, net).emotions.dominant.None?
    ensures r.status == 503 ==> r.message == UnprocessableMessage
    ensures r.status == 200 ==> r.message == SuccessMessage(EmotionDetector(param, net).emotions, fmt)
  {
    if MissingParam(param) then Reply(InvalidInputMessage, 400, None)
    else
      var d := EmotionDetector(param, net);
      if d.emotions.dominant.None? then Reply(UnprocessableMessage, 503, d.sent)
      else Reply(SuccessMessage(d.emotions, fmt), 200, d.sent)
  }

  /** A missing or empty parameter is answered without the classifier: the network outcome is irrelevant. */
  lemma InvalidInputIgnoresNetwork(param: Option<string>, net1: NetOutcome, net2: NetOutcome, fmt: real -> string)
    requires MissingParam(param)
    ensures EmotionDetectorRoute(param, net1, fmt) == EmotionDetectorRoute(param, net2, fmt)
      == Reply(InvalidInputMessage, 400, None)
  {
  }

  /**
   * A non-empty, whitespace-only parameter passes the handler's check but is blank
   * to the detector: the answer is 503, not 400, and no request is sent.
   */
  lemma WhitespaceParamYields503(s: string, net: NetOutcome, fmt: real -> string)
    requires s != [] && forall k :: 0 <= k < |s| ==> PyText.IsSpace(s[k])
    ensures Handled(Some(s), net)
    ensures EmotionDetectorRoute(Some(s), net, fmt) == Reply(UnprocessableMessage, 503, None)
  {
    PyText.StripEmptyIff(s);
  }

  /** The answer depends on the detector's result alone: equal results give equal messages and statuses. */
  lemma ResultDeterminesReply(
    p1: Option<string>, net1: NetOutcome, p2: Option<string>, net2: NetOutcome, fmt: real -> string)
    requires !MissingParam(p1) && Handled(p1, net1)
    requires !MissingParam(p2) && Handled(p2, net2)
    requires EmotionDetector(p1, net1).emotions == EmotionDetector(p2, net2).emotions
    ensures EmotionDetectorRoute(p1, net1, fmt).message == EmotionDetectorRoute(p2, net2, fmt).message
    ensures EmotionDetectorRoute(p1, net1, fmt).status == EmotionDetectorRoute(p2, net2, fmt).status
  {
  }

  /**
   * A non-empty, non-blank parameter answered with the documented shape gives 200
   * and the success sentence over exactly the body's five scores.
   */
  lemma WellFormedAnswerYields200(s: string, body: Json, v: seq<real>, fmt: real -> string)
    requires !IsBlank(Some(s)) && WellFormedBody(body, v)
    ensures Handled(Some(s), Resp(200, body))
    ensures var r := EmotionDetectorRoute(Some(s), Resp(200, body), fmt);
      r.status == 200 && r.sent == Some(Payload(s)) && r.message == SuccessMessage(Detected(v), fmt)
  {
    ScoresOfOkIff(body, v);
  }

  /** The classifier body of the joy-dominant example: joy at 0.97, every other emotion at 0.01. */
  function HappyBody(): Json
  {
    JObj(map["emotionPredictions" := JArr([JObj(map["emotion" := JObj(map[
      "anger" := JNum(0.01), "disgust" := JNum(0.01), "fear" := JNum(0.01),
      "joy" := JNum(0.97), "sadness" := JNum(0.01)])])])])
  }

  /** "I am happy" with the joy-dominant answer: status 200, dominant joy, and the sentence over those scores. */
  lemma HappyEndToEnd(fmt: real -> string)
    ensures Handled(Some("I am happy"), Resp(200, HappyBody()))
    ensures EmotionDetectorRoute(Some("I am happy"), Resp(200, HappyBody()), fmt).status == 200
    ensures EmotionDetectorRoute(Some("I am happy"), Resp(200, HappyBody()), fmt).sent == Some(Payload("I am happy"))
    ensures EmotionDetector(Some("I am happy"), Resp(200, HappyBody())).emotions.dominant == Some("joy")
    ensures EmotionDetectorRoute(Some("I am happy"), Resp(200, HappyBody()), fmt).message
      == SuccessMessage(Detected([0.01, 0.01, 0.01, 0.97, 0.01]), fmt)
  {
    HappyNotBlank();
    HappyWellFormed();
    WellFormedAnswerYields200("I am happy", HappyBody(), [0.01, 0.01, 0.01, 0.97, 0.01], fmt);
    SuccessEchoesScores(Some("I am happy"), HappyBody(), [0.01, 0.01, 0.01, 0.97, 0.01]);
    JoyDominantExample();
  }

  /** The example body has the documented shape. */
  lemma HappyWellFormed()
    ensures WellFormedBody(HappyBody(), [0.01, 0.01, 0.01, 0.97, 0.01])
  {
  }

  /** The example text is not blank. */
  lemma HappyNotBlank()
    ensures !IsBlank(Some("I am happy"))
  {
    var s := "I am happy";
    assert s[0] == 'I';
    PyText.StripEmptyIff(s);
  }
}
