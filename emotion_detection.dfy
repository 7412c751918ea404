/**
 * The classifier adapter: turns a text and the classifier's answer into the
 * fixed five-emotion result. The network call is not made here; its outcome
 * is an input, and the request the adapter would send is an output.
 */
module EmotionDetection {
  import opened Wrappers
  import opened Json
  import PyText

  const Url := "https://sn-watson-emotion.labs.skills.network/v1/watson.runtime.nlp.v1/NlpService/EmotionPredict"
  const ModelIdHeader := "grpc-metadata-mm-model-id"
  const ModelId := "emotion_aggregated-workflow_lang_en_stock"

  /** The five emotions, in the order the source builds its score dict. */
  const Names: seq<string> := ["anger", "disgust", "fear", "joy", "sadness"]

  /** The outbound POST: URL, headers and JSON body. */
  datatype Request = Request(url: string, headers: map<string, string>, payload: Json)

  /** What `requests.post` produced: a transport failure, or a status and a decoded body. */
  datatype NetOutcome = NetErr | Resp(status: int, body: Json)

  /** The detector's dict: five scores and the dominant emotion's name, each possibly None. */
  datatype Emotions = Emotions(
    anger: Option<real>, disgust: Option<real>, fear: Option<real>,
    joy: Option<real>, sadness: Option<real>, dominant: Option<string>)

  /** The detector's result together with the request it sent, if it sent one. */
  datatype Detection = Detection(emotions: Emotions, sent: Option<Request>)

  const AllNull := Emotions(None, None, None, None, None, None)

  /** The five scores in canonical order. */
  function Scores(e: Emotions): seq<Option<real>>
  {
    [e.anger, e.disgust, e.fear, e.joy, e.sadness]
  }

  /** Either everything is None, or all five scores and the dominant name are present. */
  predicate Consistent(e: Emotions)
  {
    e == AllNull || (e.dominant.Some? && forall k :: 0 <= k < 5 ==> Scores(e)[k].Some?)
  }

  /** `not text or text.strip() == ""`: exactly None or a text made only of whitespace. */
  predicate IsBlank(text: Option<string>)
    ensures IsBlank(text) <==> text.None? || forall k :: 0 <= k < |text.value| ==> PyText.IsSpace(text.value[k])
  {
    text.None? || text.value == "" || PyText.Strip(text.value) == ""
  }

  /** The request built for a non-blank text. */
  function Payload(text: string): (r: Request)
    ensures r.url == Url && r.headers == map[ModelIdHeader := ModelId]
    ensures r.payload.JObj? && r.payload.fields.Keys == {"raw_document"}
    ensures Key(r.payload, "raw_document").Ok?
    ensures Key(r.payload, "raw_document").value.JObj? && Key(r.payload, "raw_document").value.fields.Keys == {"text"}
    ensures Key(Key(r.payload, "raw_document").value, "text") == Ok(JStr(text))
  {
    Request(Url, map[ModelIdHeader := ModelId],
      JObj(map["raw_document" := JObj(map["text" := JStr(text)])]))
  }

  /**
   * Index of the value `max` picks: CPython's `max` scans left to right and
   * replaces its running maximum only on a strictly greater value, so the
   * result is the first index holding the maximum.
   */
  function FirstMax(v: seq<real>): (k: nat)
    requires |v| > 0
    ensures k < |v|
    ensures forall j :: 0 <= j < |v| ==> v[j] <= v[k]
    ensures forall j :: 0 <= j < k ==> v[j] < v[k]
  {
    if |v| == 1 then 0
    else
      var k := FirstMax(v[..|v| - 1]);
      if v[|v| - 1] > v[k] then |v| - 1 else k
  }

  /** The first-max index is the only index that is maximal with every earlier value strictly below it. */
  lemma FirstMaxUnique(v: seq<real>, k: nat)
    requires k < |v|
    requires forall j :: 0 <= j < |v| ==> v[j] <= v[k]
    requires forall j :: 0 <= j < k ==> v[j] < v[k]
    ensures FirstMax(v) == k
  {
  }

  /**
   * `response_data['emotionPredictions'][0]['emotion']`: it gives a value exactly
   * along a dict, a non-empty list and a dict holding `emotion`, and that value
   * is the first prediction's `emotion`.
   */
  function EmotionNode(body: Json): (r: Eval<Json>)
    ensures r.Ok? <==>
      body.JObj? && "emotionPredictions" in body.fields
      && body.fields["emotionPredictions"].JArr? && |body.fields["emotionPredictions"].items| > 0
      && body.fields["emotionPredictions"].items[0].JObj?
      && "emotion" in body.fields["emotionPredictions"].items[0].fields
    ensures r.Ok? ==> r.value == body.fields["emotionPredictions"].items[0].fields["emotion"]
  {
    match Key(body, "emotionPredictions")
    case Ok(preds) =>
      (match First(preds)
       case Ok(first) => Key(first, "emotion")
       case Caught => Caught
       case Uncaught => Uncaught)
    case Caught => Caught
    case Uncaught => Uncaught
  }

  /** The score lookups one after the other; the first failing subscript decides the outcome. */
  function FetchAll(node: Json, names: seq<string>): (r: Eval<seq<Json>>)
    ensures r.Ok? ==> |r.value| == |names|
  {
    if names == [] then Ok([])
    else
      match Key(node, names[0])
      case Ok(x) =>
        (match FetchAll(node, names[1..])
         case Ok(xs) => Ok([x] + xs)
         case Caught => Caught
         case Uncaught => Uncaught)
      case Caught => Caught
      case Uncaught => Uncaught
  }

  /**
   * `max` compares the scores; a None, string or other non-number among them
   * makes the comparison raise TypeError (non-numbers that do compare are
   * treated the same way).
   */
  function Numbers(vs: seq<Json>): (r: Eval<seq<real>>)
    ensures !r.Caught?
    ensures r.Ok? <==> forall i :: 0 <= i < |vs| ==> vs[i].JNum?
    ensures r.Ok? ==> |r.value| == |vs| && forall i :: 0 <= i < |vs| ==> vs[i] == JNum(r.value[i])
  {
    if forall i :: 0 <= i < |vs| ==> vs[i].JNum? then Ok(seq(|vs|, i requires 0 <= i < |vs| => vs[i].n))
    else Uncaught
  }

  /** Lines 55-73 of the detector without the `max`: the five scores, or how extraction failed. */
  function ScoresOf(body: Json): (r: Eval<seq<real>>)
    ensures r.Ok? ==> |r.value| == 5
  {
    match EmotionNode(body)
    case Ok(node) =>
      (match FetchAll(node, Names)
       case Ok(vs) => Numbers(vs)
       case Caught => Caught
       case Uncaught => Uncaught)
    case Caught => Caught
    case Uncaught => Uncaught
  }

  /** The populated result for five scores, with the dominant emotion picked by first-max. */
  function Detected(v: seq<real>): (e: Emotions)
    requires |v| == 5
    ensures Consistent(e) && e.dominant.Some?
    ensures forall k :: 0 <= k < 5 ==> Scores(e)[k] == Some(v[k])
    ensures e.dominant.value in Names
  {
    Emotions(Some(v[0]), Some(v[1]), Some(v[2]), Some(v[3]), Some(v[4]), Some(Names[FirstMax(v)]))
  }

  /**
   * The detector's inputs stay in the part of Python's behaviour that the
   * function handles: no TypeError escapes from the response's shape.
   */
  predicate Handled(text: Option<string>, net: NetOutcome)
  {
    !IsBlank(text) && net.Resp? && net.status == 200 ==> !ScoresOf(net.body).Uncaught?
  }

  /**
   * `emotion_detector(text)`, given the outcome of the POST it makes. The result
   * is never mixed; a request is sent exactly when the text is not blank, and it
   * is the fixed payload around the text.
   */
  function EmotionDetector(text: Option<string>, net: NetOutcome): (d: Detection)
    requires Handled(text, net)
    ensures Consistent(d.emotions)
    ensures d.sent.None? <==> IsBlank(text)
    ensures d.sent.Some? ==> d.sent.value == Payload(text.value)
    ensures IsBlank(text) ==> d.emotions == AllNull
  {
    if IsBlank(text) then Detection(AllNull, None)
    else
      var req := Payload(text.value);
      match net
      case NetErr => Detection(AllNull, Some(req))
      case Resp(status, body) =>
        if status != 200 then Detection(AllNull, Some(req))
        else
          match ScoresOf(body)
          case Ok(v) => Detection(Detected(v), Some(req))
          case _ => Detection(AllNull, Some(req))
  }

  // ---------------------------------------------------------------------------
  // The documented response shape, written independently of the subscript chain.

  /** `body` is `{"emotionPredictions": [{"emotion": {"anger": v[0], ..., "sadness": v[4]}}, ...]}`, extra keys allowed. */
  ghost predicate WellFormedBody(body: Json, v: seq<real>)
  {
    |v| == 5 && body.JObj? && "emotionPredictions" in body.fields
    && var preds := body.fields["emotionPredictions"];
    preds.JArr? && |preds.items| > 0 && preds.items[0].JObj? && "emotion" in preds.items[0].fields
    && var em := preds.items[0].fields["emotion"];
    em.JObj? && forall i :: 0 <= i < 5 ==> Names[i] in em.fields && em.fields[Names[i]] == JNum(v[i])
  }

  /** The score lookups succeed exactly on a dict holding every name, and return its values in order. */
  lemma {:induction false} FetchAllOk(node: Json, names: seq<string>, xs: seq<Json>)
    ensures FetchAll(node, names) == Ok(xs) <==>
      (names != [] ==> node.JObj?) && |xs| == |names|
      && forall i :: 0 <= i < |names| ==> names[i] in node.fields && node.fields[names[i]] == xs[i]
  {
    if names != [] {
      if |xs| > 0 {
        FetchAllOk(node, names[1..], xs[1..]);
        if node.JObj? && |xs| == |names|
           && (forall i :: 0 <= i < |names| ==> names[i] in node.fields && node.fields[names[i]] == xs[i]) {
          forall i | 0 <= i < |names| - 1
            ensures names[1..][i] in node.fields && node.fields[names[1..][i]] == xs[1..][i]
          {
            assert names[1..][i] == names[i + 1];
          }
          assert Key(node, names[0]) == Ok(xs[0]);
          assert FetchAll(node, names) == Ok([xs[0]] + xs[1..]);
          assert [xs[0]] + xs[1..] == xs;
        }
        if FetchAll(node, names) == Ok(xs) {
          var x := Key(node, names[0]).value;
          var rest := FetchAll(node, names[1..]).value;
          assert xs == [x] + rest;
          assert xs[1..] == rest;
          forall i | 0 <= i < |names|
            ensures names[i] in node.fields && node.fields[names[i]] == xs[i]
          {
            if i > 0 {
              assert names[1..][i - 1] == names[i];
              assert xs[1..][i - 1] == xs[i];
            }
          }
        }
      }
    }
  }

  /** A score lookup on a dict that lacks one of the names raises KeyError, which is caught. */
  lemma {:induction false} FetchAllMissing(node: Json, names: seq<string>, i: nat)
    requires node.JObj? && i < |names| && names[i] !in node.fields
    ensures FetchAll(node, names) == Caught
  {
    if names[0] in node.fields {
      assert names[1..][i - 1] == names[i];
      FetchAllMissing(node, names[1..], i - 1);
    }
  }

  /** Extraction yields scores exactly on the documented shape, and those scores are the body's. */
  lemma ScoresOfOkIff(body: Json, v: seq<real>)
    ensures ScoresOf(body) == Ok(v) <==> WellFormedBody(body, v)
  {
    if EmotionNode(body).Ok? {
      var node := EmotionNode(body).value;
      var f := FetchAll(node, Names);
      if f.Ok? {
        FetchAllOk(node, Names, f.value);
      }
      if WellFormedBody(body, v) {
        var xs := seq(5, i requires 0 <= i < 5 => JNum(v[i]));
        FetchAllOk(node, Names, xs);
        assert Numbers(xs).value == v;
      }
    }
  }

  // ---------------------------------------------------------------------------
  // Properties of the detector.

  /** Blank text gives the all-None result whatever the network would have said, and nothing is sent. */
  lemma BlankIgnoresNetwork(text: Option<string>, net1: NetOutcome, net2: NetOutcome)
    requires text.None? || forall k :: 0 <= k < |text.value| ==> PyText.IsSpace(text.value[k])
    ensures Handled(text, net1) && Handled(text, net2)
    ensures EmotionDetector(text, net1) == EmotionDetector(text, net2) == Detection(AllNull, None)
  {
    if text.Some? { PyText.StripEmptyIff(text.value); }
  }

  /** A non-blank text is sent unchanged under `raw_document.text`, with the fixed model-id header. */
  lemma PayloadCarriesText(text: string, net: NetOutcome)
    requires !IsBlank(Some(text)) && Handled(Some(text), net)
    ensures EmotionDetector(Some(text), net).sent.Some?
    ensures var r := EmotionDetector(Some(text), net).sent.value;
      r.url == Url && r.headers[ModelIdHeader] == ModelId
      && Key(Key(r.payload, "raw_document").value, "text") == Ok(JStr(text))
  {
  }

  /** Any status other than 200 gives the all-None result. */
  lemma NonOkStatusYieldsAllNull(text: Option<string>, status: int, body: Json)
    requires status != 200
    ensures Handled(text, Resp(status, body))
    ensures EmotionDetector(text, Resp(status, body)).emotions == AllNull
  {
  }

  /** A transport failure (`RequestException`) gives the all-None result. */
  lemma TransportFailureYieldsAllNull(text: Option<string>)
    ensures Handled(text, NetErr)
    ensures EmotionDetector(text, NetErr).emotions == AllNull
  {
  }

  /** A body without `emotionPredictions` gives the all-None result. */
  lemma MissingPredictionsYieldsAllNull(text: Option<string>, m: map<string, Json>)
    requires "emotionPredictions" !in m
    ensures Handled(text, Resp(200, JObj(m)))
    ensures EmotionDetector(text, Resp(200, JObj(m))).emotions == AllNull
  {
  }

  /** An empty prediction list gives the all-None result. */
  lemma EmptyPredictionsYieldsAllNull(text: Option<string>, m: map<string, Json>)
    requires "emotionPredictions" in m && m["emotionPredictions"] == JArr([])
    ensures Handled(text, Resp(200, JObj(m)))
    ensures EmotionDetector(text, Resp(200, JObj(m))).emotions == AllNull
  {
    assert ScoresOf(JObj(m)) == Caught;
  }

  /** A first prediction without `emotion` gives the all-None result. */
  lemma MissingEmotionYieldsAllNull(text: Option<string>, m: map<string, Json>, p: map<string, Json>, rest: seq<Json>)
    requires "emotionPredictions" in m && m["emotionPredictions"] == JArr([JObj(p)] + rest)
    requires "emotion" !in p
    ensures Handled(text, Resp(200, JObj(m)))
    ensures EmotionDetector(text, Resp(200, JObj(m))).emotions == AllNull
  {
    assert First(m["emotionPredictions"]) == Ok(JObj(p));
    assert ScoresOf(JObj(m)) == Caught;
  }

  /** An emotion dict missing any one of the five names gives the all-None result, not partial scores. */
  lemma MissingScoreYieldsAllNull(
    text: Option<string>, m: map<string, Json>, p: map<string, Json>, rest: seq<Json>,
    em: map<string, Json>, i: nat)
    requires "emotionPredictions" in m && m["emotionPredictions"] == JArr([JObj(p)] + rest)
    requires "emotion" in p && p["emotion"] == JObj(em)
    requires i < 5 && Names[i] !in em
    ensures Handled(text, Resp(200, JObj(m)))
    ensures EmotionDetector(text, Resp(200, JObj(m))).emotions == AllNull
  {
    assert First(m["emotionPredictions"]) == Ok(JObj(p));
    assert EmotionNode(JObj(m)) == Ok(JObj(em));
    FetchAllMissing(JObj(em), Names, i);
    assert ScoresOf(JObj(m)) == Caught;
  }

  /**
   * The detector populates its result exactly when the text is not blank, the
   * status is 200 and the body has the documented shape.
   */
  lemma SucceedsIff(text: Option<string>, net: NetOutcome)
    requires Handled(text, net)
    ensures EmotionDetector(text, net).emotions != AllNull <==>
      !IsBlank(text) && net.Resp? && net.status == 200 && exists v :: WellFormedBody(net.body, v)
  {
    if !IsBlank(text) && net.Resp? && net.status == 200 {
      if ScoresOf(net.body).Ok? {
        ShapedSucceeds(text, net.body);
      } else {
        UnshapedFails(text, net.body);
      }
    }
  }

  /** Helper of SucceedsIff: extracted scores give a populated result over a well-formed body. */
  lemma ShapedSucceeds(text: Option<string>, body: Json)
    requires !IsBlank(text) && ScoresOf(body).Ok?
    ensures WellFormedBody(body, ScoresOf(body).value)
    ensures EmotionDetector(text, Resp(200, body)).emotions == Detected(ScoresOf(body).value) != AllNull
  {
    ScoresOfOkIff(body, ScoresOf(body).value);
  }

  /** Helper of SucceedsIff: without extracted scores the body is not well-formed and the result is all-None. */
  lemma UnshapedFails(text: Option<string>, body: Json)
    requires !IsBlank(text) && !ScoresOf(body).Ok? && Handled(text, Resp(200, body))
    ensures forall v :: !WellFormedBody(body, v)
    ensures EmotionDetector(text, Resp(200, body)).emotions == AllNull
  {
    forall v | true
      ensures !WellFormedBody(body, v)
    {
      ScoresOfOkIff(body, v);
    }
  }

  /**
   * On success the five scores are exactly those under `emotionPredictions[0].emotion`,
   * and the dominant emotion is the first-max of them.
   */
  lemma SuccessEchoesScores(text: Option<string>, body: Json, v: seq<real>)
    requires !IsBlank(text) && WellFormedBody(body, v)
    ensures Handled(text, Resp(200, body))
    ensures var e := EmotionDetector(text, Resp(200, body)).emotions;
      (forall k :: 0 <= k < 5 ==> Scores(e)[k] == Some(v[k])) && e.dominant == Some(Names[FirstMax(v)])
  {
    ScoresOfOkIff(body, v);
  }

  /**
   * A present dominant emotion is one of the five names; its score is at least
   * every other score, and every earlier name in canonical order scores strictly
   * less, so ties go to the earliest name.
   */
  lemma DominantIsFirstMax(text: Option<string>, net: NetOutcome)
    requires Handled(text, net)
    requires EmotionDetector(text, net).emotions.dominant.Some?
    ensures var e := EmotionDetector(text, net).emotions;
      exists k :: 0 <= k < 5 && Names[k] == e.dominant.value
        && (forall j :: 0 <= j < 5 ==> Scores(e)[j].value <= Scores(e)[k].value)
        && (forall j :: 0 <= j < k ==> Scores(e)[j].value < Scores(e)[k].value)
  {
    var v := ScoresOf(net.body).value;
    var k := FirstMax(v);
    assert Names[k] == EmotionDetector(text, net).emotions.dominant.value;
  }

  /** Only the first prediction is consulted: the ones after it never change the result. */
  lemma OnlyFirstPredictionCounts(text: Option<string>, m: map<string, Json>, p: Json, rest1: seq<Json>, rest2: seq<Json>)
    requires "emotionPredictions" in m
    requires Handled(text, Resp(200, JObj(m["emotionPredictions" := JArr([p] + rest1)])))
    ensures Handled(text, Resp(200, JObj(m["emotionPredictions" := JArr([p] + rest2)])))
    ensures EmotionDetector(text, Resp(200, JObj(m["emotionPredictions" := JArr([p] + rest1)])))
         == EmotionDetector(text, Resp(200, JObj(m["emotionPredictions" := JArr([p] + rest2)])))
  {
    var b1 := JObj(m["emotionPredictions" := JArr([p] + rest1)]);
    var b2 := JObj(m["emotionPredictions" := JArr([p] + rest2)]);
    assert b1.fields["emotionPredictions"].items[0] == p == b2.fields["emotionPredictions"].items[0];
    assert EmotionNode(b1) == EmotionNode(b2);
    assert ScoresOf(b1) == ScoresOf(b2);
  }

  /** A joy-dominant response echoes its scores and names joy. */
  lemma JoyDominantExample()
    ensures var v := [0.01, 0.01, 0.01, 0.97, 0.01];
      Detected(v) == Emotions(Some(0.01), Some(0.01), Some(0.01), Some(0.97), Some(0.01), Some("joy"))
  {
    var v := [0.01, 0.01, 0.01, 0.97, 0.01];
    FirstMaxUnique(v, 3);
  }

  /** anger and disgust tied at the top: anger, first in canonical order, wins. */
  lemma TieGoesToAngerExample()
    ensures Detected([0.5, 0.5, 0.0, 0.0, 0.0]).dominant == Some("anger")
  {
    FirstMaxUnique([0.5, 0.5, 0.0, 0.0, 0.0], 0);
  }
}
