# Emotion detector: Dafny model

This project models the two pure pieces of the emotion-detection web app:

- **the classifier adapter** `emotion_detector(text)` (`EmotionDetection/emotion_detection.py`). It returns
  the all-None dict for blank text without any request. Otherwise it POSTs a fixed payload to a Watson NLP
  endpoint. It turns every failure into the same all-None dict: a transport error, a status other than 200,
  or a missing key or index in the answer. On success it copies the five scores under
  `emotionPredictions[0].emotion` and names the dominant emotion with Python's first-max `max`.
- **the request handler** `emotion_detector_route()` (`server.py`). It answers 400 for a missing or empty
  `textToAnalyze`, 503 when the detector's `dominant_emotion` is None, and 200 with a templated sentence
  otherwise.

The network is not called. Its outcome is an input: `NetOutcome = NetErr | Resp(status, body)`, where `body`
is an already-decoded `Json` value. The request the adapter would send is an output (`Detection.sent`), so
"no request is made" is a checkable statement. Python's subscripts are modelled exactly for decoded JSON
(`Json.Key`, `Json.First`). Each one ends in a value, a caught `KeyError`/`IndexError` (`Caught`), or an
uncaught `TypeError` (`Uncaught`). Inputs that would let a `TypeError` escape are excluded by the
precondition `EmotionDetection.Handled`. The source does not catch that exception, so the model claims no
result for those inputs.

Modules: `Wrappers` (Option), `PyText` (Python whitespace and `str.strip()`), `Json` (decoded JSON and
subscripts), `EmotionDetection` (the adapter), `Server` (the handler).

Behaviour of the code worth noting:
- On a failed classification the handler answers 503 with "Error: Could not process the statement or
  received an unexpected response." (`server.py:31-33`).
- A decoded body of the wrong type, such as a string where a dict is expected, is not collapsed to the
  all-None result. It raises an uncaught `TypeError` (only `RequestException`, `KeyError` and `IndexError`
  are caught, `emotion_detection.py:85-90`), so those inputs are outside the model's precondition.
- "Blank" means Python's `not text or text.strip() == ""`. That covers every code point `str.isspace()`
  accepts, not only ASCII spaces.

## Model

| member | source | states |
|---|---|---|
| `PyText.IsSpace` | EmotionDetection/emotion_detection.py:22 | a character is whitespace to `strip()` exactly when it is one of the 29 code points Python's `str.isspace()` accepts |
| `PyText.SkipLeft` | EmotionDetection/emotion_detection.py:22 | the left scan of `strip()` stops at the first non-whitespace character (or the end), having skipped only whitespace |
| `PyText.SkipRight` | EmotionDetection/emotion_detection.py:22 | the right scan of `strip()` stops just past the last non-whitespace character (or at the left end), having skipped only whitespace |
| `PyText.Strip` | EmotionDetection/emotion_detection.py:22 | `strip()` returns a contiguous slice with only whitespace outside it, and the slice neither starts nor ends with whitespace |
| `PyText.StripEmptyIff` | EmotionDetection/emotion_detection.py:22 | `s.strip() == ""` exactly when every character of `s` is whitespace |
| `Json.Key` | EmotionDetection/emotion_detection.py:55-62 | `v[k]` gives the dict's value exactly when `v` is a dict holding `k`; a dict without `k` raises the caught KeyError; anything else raises the uncaught TypeError |
| `Json.First` | EmotionDetection/emotion_detection.py:55 | `v[0]` gives the first element of a non-empty list or the first character of a non-empty string; an empty list or string (IndexError) and a dict (KeyError) are caught; a number, bool or None raises the uncaught TypeError |
| `EmotionDetection.IsBlank` | EmotionDetection/emotion_detection.py:22 | the blank test holds exactly for None or a text made only of whitespace, the empty text included |
| `EmotionDetection.EmotionNode` | EmotionDetection/emotion_detection.py:55 | `response_data['emotionPredictions'][0]['emotion']` gives a value exactly along a dict, a non-empty list and a first prediction that is a dict holding `emotion`, and the value is that `emotion` |
| `EmotionDetection.Payload` | EmotionDetection/emotion_detection.py:30-38 | the request goes to the fixed URL with only the model-id header; its body holds just `raw_document`, which holds just `text`, the input unchanged |
| `EmotionDetection.FirstMax` | EmotionDetection/emotion_detection.py:73 | `max` returns an index whose score is at least every score, and every earlier score is strictly smaller (first-max) |
| `EmotionDetection.FirstMaxUnique` | EmotionDetection/emotion_detection.py:65-73 | any index that is maximal with all earlier scores strictly smaller is the one `max` picks |
| `EmotionDetection.FetchAll` | EmotionDetection/emotion_detection.py:58-62 | successful score lookups give one value per name |
| `EmotionDetection.FetchAllOk` | EmotionDetection/emotion_detection.py:58-62 | the lookups succeed with values `xs` exactly when the node is a dict holding every name, with `xs` being its values in order |
| `EmotionDetection.FetchAllMissing` | EmotionDetection/emotion_detection.py:58-62 | a dict lacking any one name makes the lookups raise a caught KeyError |
| `EmotionDetection.Numbers` | EmotionDetection/emotion_detection.py:73 | comparison succeeds exactly when every score is a number, returns those numbers unchanged and in order, and never raises a caught exception |
| `EmotionDetection.ScoresOf` | EmotionDetection/emotion_detection.py:55-73 | successful extraction gives exactly five scores |
| `EmotionDetection.ScoresOfOkIff` | EmotionDetection/emotion_detection.py:55-62 | extraction yields scores `v` exactly when the body has the documented shape with those five numbers |
| `EmotionDetection.Detected` | EmotionDetection/emotion_detection.py:65-83 | the populated result holds every score, echoes the five scores in order, and names one of the five emotions |
| `EmotionDetection.EmotionDetector` | EmotionDetection/emotion_detection.py:6-96 | the result is never mixed; a request is sent exactly when the text is not blank, and it is the fixed payload around the text; blank text gives the all-None result |
| `EmotionDetection.BlankIgnoresNetwork` | EmotionDetection/emotion_detection.py:22-27 | None, empty or whitespace-only text gives the all-None result and no request, whatever the network would answer |
| `EmotionDetection.PayloadCarriesText` | EmotionDetection/emotion_detection.py:31-38 | for non-blank text the sent request carries the text at `raw_document.text` and the fixed model-id header |
| `EmotionDetection.NonOkStatusYieldsAllNull` | EmotionDetection/emotion_detection.py:45-49 | any status other than 200 gives the all-None result |
| `EmotionDetection.TransportFailureYieldsAllNull` | EmotionDetection/emotion_detection.py:85-87 | a transport failure gives the all-None result |
| `EmotionDetection.MissingPredictionsYieldsAllNull` | EmotionDetection/emotion_detection.py:55 | a body without `emotionPredictions` gives the all-None result |
| `EmotionDetection.EmptyPredictionsYieldsAllNull` | EmotionDetection/emotion_detection.py:55 | an empty prediction list gives the all-None result |
| `EmotionDetection.MissingEmotionYieldsAllNull` | EmotionDetection/emotion_detection.py:55 | a first prediction without `emotion` gives the all-None result |
| `EmotionDetection.MissingScoreYieldsAllNull` | EmotionDetection/emotion_detection.py:58-62 | an emotion dict lacking any one of the five names gives the all-None result, with no partial scores exposed |
| `EmotionDetection.SucceedsIff` | EmotionDetection/emotion_detection.py:41-96 | the result is populated exactly when the text is not blank, the status is 200 and the body has the documented shape |
| `EmotionDetection.SuccessEchoesScores` | EmotionDetection/emotion_detection.py:76-83 | on success the five scores are exactly those under `emotionPredictions[0].emotion`, and the dominant name is their first-max |
| `EmotionDetection.DominantIsFirstMax` | EmotionDetection/emotion_detection.py:65-73 | a present dominant emotion is one of the five names; its score is at least every score, and every earlier name scores strictly less |
| `EmotionDetection.OnlyFirstPredictionCounts` | EmotionDetection/emotion_detection.py:55 | predictions after the first never change the result |
| `EmotionDetection.JoyDominantExample` | EmotionDetection/emotion_detection.py:65-83 | scores 0.01, 0.01, 0.01, 0.97, 0.01 are echoed and joy dominates |
| `EmotionDetection.TieGoesToAngerExample` | EmotionDetection/emotion_detection.py:65-73 | with anger and disgust tied at the top, anger is dominant |
| `Server.MissingParam` | server.py:24 | every parameter the handler rejects is also blank to the detector; every one it accepts is present and non-empty |
| `Server.SuccessMessage` | server.py:37-45 | the sentence is the fixed prefix, then `'<name>': <score>` for each of the five emotions in the order anger, disgust, fear, joy, sadness (the last after "and"), then the dominant name between `**` markers |
| `Server.EmotionDetectorRoute` | server.py:16-47 | the status is 200, 400 or 503; 400 exactly for a missing or empty parameter, with the fixed message and no request; 503 exactly when the detector's dominant emotion is None, with the fixed message; otherwise 200 with the success sentence over the detector's result |
| `Server.InvalidInputIgnoresNetwork` | server.py:21-25 | a missing or empty parameter gives 400 and the fixed message whatever the network would answer |
| `Server.WhitespaceParamYields503` | server.py:24-33 | a non-empty, whitespace-only parameter passes the handler's check but gets 503, and no request is sent |
| `Server.ResultDeterminesReply` | server.py:31-47 | equal detector results give equal messages and statuses |
| `Server.WellFormedAnswerYields200` | server.py:28-47 | a non-blank parameter answered with the documented shape gives 200, the payload request, and the sentence over exactly the body's scores |
| `Server.HappyEndToEnd` | server.py:16-47 | "I am happy" with a joy-dominant answer gives 200, dominant joy, and the sentence over those scores |

## Left out

- `requests.post`, TLS and HTTP (`emotion_detection.py:42`): the outcome is an input (`NetOutcome`), and the URL is only a constant in the request.
- `response.json()` decoding (`emotion_detection.py:52`): the body arrives already decoded. A decode failure is not modelled. Whether the code catches it depends on the `requests` version, which these files do not show.
- `EmotionDetection.EmotionDetector`: its precondition `Handled` excludes wrong-typed shapes, such as a non-dict body or a string where the predictions list is expected. The code raises an uncaught `TypeError` for them.
- `EmotionDetection.Numbers`: treats every non-number score as one that makes `max` raise. So it also excludes scores that Python can compare without error, such as all strings, or booleans mixed with numbers.
- Float semantics: scores are `real`, so NaN and infinities are not represented.
- `Json.Json`: JSON integers and floats both become `JNum` reals. Python renders them differently in an f-string (`1` against `1.0`, a large integer in full against a float like `1e+30`), and that difference is lost, so no `fmt` over reals is exactly Python's rendering.
- `Server.ResultDeterminesReply`: holds for this merged number view only. In Python, two results that are equal under `==` (a score `1` and a score `1.0`) can print different messages.
- `Server.EmotionDetectorRoute`: its precondition excludes the responses on which the detector raises an uncaught `TypeError`, where Flask would answer 500; "the status is 200, 400 or 503" holds only under that precondition.
- `Server.SuccessMessage`: Python's rendering of a number in an f-string is the parameter `fmt`, so the model does not pin down the digits printed.
- Flask routing, `render_index_page`, `render_template` and `app.run` (`server.py:3-13`, `server.py:49-51`): framework and process plumbing. A bare string returned by a view gets Flask's default status 200, and the model writes that status explicitly.
