# AURA chat routing, modelled in Dafny

AURA is a small mental-health chat assistant. Its own decision logic is the
routing policy of `process_input`: every user message is first given to a
sentiment analyzer, then checked for crisis keywords; a crisis message gets a
fixed alert and the label `Crisis` and is not logged. Any other message is
classified into an intent, the prediction is kept only when its top
probability is strictly above 0.4 (otherwise the intent is `default`), a reply
is drawn from the reply table for that intent, one record is appended to the
conversation log, and `"[" + sentiment label + "] " + reply` is
returned with the intent. The page then shows the recommendations for that
intent (falling back to the `default` entry) and can plot the log's sentiments
as numbers (POSITIVE 1, NEGATIVE -1, NEUTRAL 0).

Files:

- `wrappers.dfy`: module `Wrappers`, the `Option` datatype.
- `tables.dfy`: module `Tables`, the intent training corpus, the reply and
  recommendation tables, the crisis keywords and the crisis alert, with
  lemmas on their shape.
- `text.dfy`: module `Text`, ASCII lower-casing and substring search (the
  `in` operator on strings, and `any(...)` over the keyword list), each
  proved against a reference definition by position.
- `router.dfy`: module `Router`, the routing policy as a function `Respond`
  (what one call returns and what it appends to the log), the lemmas about
  it, and the class `ChatSession` whose method `ProcessInput` updates the
  log step by step and is proved to agree with `Respond`.
- `dashboard.dfy`: module `Dashboard`, the recommendation lookup and the
  sentiment-to-number timeline.

The foreign parts enter as parameters:

- The sentiment analyzer is a function `analyze: string -> Option<Sentiment>`.
  `None` stands for a call that raises. The analyzer is applied before the
  crisis check, as in the code, so a failing analyzer stops even a crisis
  message.
- The intent classifier is a function `classify: string -> Prediction`, a
  label and its probability. Callers must supply a classifier that predicts
  one of the four trained labels for the text (`Classifies`); a fitted
  `LogisticRegression` only predicts labels it was trained on.
- `random.choice` is a natural number `draw`; the reply is candidate
  `draw % |candidates|`, so any draw gives a candidate and every candidate is
  given by some draw.
- The clock is the formatted timestamp `time`, stored as given.

Three facts about the code that the model keeps as written:

- A crisis message is not logged: streamlit_app.py:63 returns before the
  append at streamlit_app.py:68-75 (`Router.CrisisShortCircuits`,
  `Router.ChatSession.ProcessInput`).
- The analyzer runs on crisis text too: its call at streamlit_app.py:61 comes
  before the crisis check at streamlit_app.py:62 (`Router.AnalyzerRunsFirst`).
- The recommendation table has no `greeting` key, and the lookup at
  streamlit_app.py:88 falls back to `default`
  (`Tables.RecommendationTableShape`, `Dashboard.RecommendationsPerIntent`).

## Model

| member | source | states |
|---|---|---|
| `Tables.TrainedLabels` | streamlit_app.py:18-21 | the labels the classifier can predict are exactly stress, anxiety, greeting and sadness, and the fallback default is not one of them |
| `Tables.TrainingCorpus` | streamlit_app.py:13-22 | the corpus pairs 8 texts with 8 labels, its labels are stress, anxiety, greeting and sadness, and `default` is not one of them |
| `Tables.ResponsesCoverResolvableIntents` | streamlit_app.py:29-35 | every trained label and `default` has a reply entry with at least one reply, so the reply lookup never fails |
| `Tables.RecommendationTableShape` | streamlit_app.py:37-53 | the recommendation table has exactly the keys stress, anxiety, sadness and default, every entry is non-empty, and greeting and Crisis are absent |
| `Text.LowerChar` | streamlit_app.py:62 | lower-casing a character leaves no upper-case letter, keeps every other character, and moves A-Z onto a-z |
| `Text.Lower` | streamlit_app.py:62 | the lower-cased text has the same length, is the character-wise lower-casing, and contains no upper-case letter |
| `Text.LowerIdempotent` | streamlit_app.py:62 | lower-casing twice equals lower-casing once |
| `Text.LowerFixesLowerCase` | streamlit_app.py:56 | a text without upper-case letters, such as each crisis keyword, is unchanged by lower-casing |
| `Text.Contains` | streamlit_app.py:62 | substring search is true exactly when the needle occurs at some position of the text |
| `Text.AnyOccurs` | streamlit_app.py:62 | the keyword scan is true exactly when some keyword of the list occurs in the text |
| `Text.OccursUnderLower` | streamlit_app.py:62 | an occurrence of a word in the text is, at the same position, an occurrence of the lower-cased word in the lower-cased text |
| `Router.Choose` | streamlit_app.py:67 | whatever the draw, the chosen reply is one of the candidates |
| `Router.DisplayRecoversParts` | streamlit_app.py:76 | the display string is the label in brackets, a space and the reply, and the label and the reply can be read back from it |
| `Router.Respond` | streamlit_app.py:60-76 | one call appends at most one record, and none when the analyzer raises |
| `Router.AnalyzerRunsFirst` | streamlit_app.py:61-63 | when the analyzer raises, the call raises and logs nothing, for crisis text too |
| `Router.CrisisShortCircuits` | streamlit_app.py:56-63 | a crisis text returns exactly the fixed alert with the label Crisis and appends nothing to the log |
| `Router.CrisisIgnoresClassifier` | streamlit_app.py:62-67 | for a crisis text the result does not depend on the classifier, the draw or the clock |
| `Router.CrisisIgnoresCase` | streamlit_app.py:62 | any casing of a crisis keyword occurring anywhere in the text raises the alert |
| `Router.KeywordMatchesInsideWords` | streamlit_app.py:56-62 | "Please send it" raises the alert, because "end it" matches as a substring |
| `Router.CrisisVerdictStableUnderLower` | streamlit_app.py:62 | lower-casing the text beforehand does not change the crisis verdict |
| `Router.LowConfidenceFallsBack` | streamlit_app.py:66-67 | a non-crisis text whose top probability is at most 0.4 resolves to default, whatever was predicted, and gets the default reply behind its sentiment label |
| `Router.ConfidentPredictionKept` | streamlit_app.py:66 | a non-crisis text whose top probability is above 0.4 resolves to the predicted label |
| `Router.OrdinaryTextIsAnsweredAndLogged` | streamlit_app.py:65-76 | a non-crisis text appends exactly one record holding the time, the raw text, the sentiment label and score, the returned intent and a reply from that intent's entry; the display is that reply behind the bracketed sentiment label |
| `Router.EveryCandidateCanBeDrawn` | streamlit_app.py:67 | every candidate reply of the resolved intent is logged for some draw |
| `Router.ReturnedIntentRange` | streamlit_app.py:60-76 | every returned intent is Crisis, a trained label or default |
| `Router.ShortTextIsNoCrisis` | streamlit_app.py:56-62 | a text shorter than six characters never raises the alert |
| `Router.HelloScenario` | streamlit_app.py:60-76 | "Hello" with a NEUTRAL sentiment and a confident greeting prediction returns "[NEUTRAL] Hi there! How can I support you today?" and greeting |
| `Router.GiveUpScenario` | streamlit_app.py:56-63 | "I want to give up" returns the crisis alert and logs nothing |
| `Router.ChatSession.constructor` | streamlit_app.py:57 | a new session starts with an empty log |
| `Router.ChatSession.ProcessInput` | streamlit_app.py:60-76 | returns what `Respond` returns and appends what it appends; a raising analyzer or a crisis text leaves the log unchanged; otherwise the log grows by one record carrying the returned intent and the earlier records stay as they were |
| `Dashboard.RecommendationsFor` | streamlit_app.py:88 | the lookup returns the intent's entry when the table has one and the default entry otherwise, and is never empty |
| `Dashboard.RecommendationsPerIntent` | streamlit_app.py:37-53 | greeting and Crisis get the default entry; stress, anxiety, sadness and default get their own |
| `Dashboard.EveryReplyHasRecommendations` | streamlit_app.py:88 | for every intent, the router's included, the lookup yields one of the table's entries |
| `Dashboard.SentimentNumber` | streamlit_app.py:100-104 | exactly the three known labels have a number, and it lies between -1 and 1 |
| `Dashboard.SentimentNumberOrdersPolarity` | streamlit_app.py:100-104 | the map is injective on the known labels and orders them negative < neutral < positive |
| `Dashboard.MoodTimeline` | streamlit_app.py:99-104 | the timeline has one value per log record, in log order, each the number of that record's sentiment |
| `Dashboard.TimelineFollowsLog` | streamlit_app.py:99-104 | appending a record to the log appends exactly its number to the timeline |
| `Dashboard.TimelineHasNoGaps` | streamlit_app.py:100-104 | when every logged label is a known one, every timeline value is present |

## Left out

- The Streamlit page (streamlit_app.py:79-98, 105-107): widgets, markdown
  rendering and the line chart are presentation only.
- The survey upload, the mean mood score, the histogram and the word cloud
  (streamlit_app.py:109-129): file I/O, floating-point averaging and plotting.
- The sentiment model (streamlit_app.py:55): a foreign transformers pipeline;
  its result is an input value, and its failure is the `None` result.
- TF-IDF vectorizing and logistic-regression fitting and inference
  (streamlit_app.py:23-27, 65-66): a foreign library with floating-point
  numerics. The classifier is a function parameter and its probability a
  `real`; training twice on the same corpus is not modelled.
- `random.choice` (streamlit_app.py:67): modelled as an arbitrary draw, so
  uniformity is stated as "every candidate is reachable", not as a
  probability.
- The clock (streamlit_app.py:69): the formatted time is a parameter.
- Router.ChatSession: keeps one log across calls. The page as written
  re-creates its log on every rerun of the script (streamlit_app.py:57), and
  calls `process_input` again on each rerun while the text stays in the input
  box (streamlit_app.py:82-84), so its history and timeline
  (streamlit_app.py:91-107) never show more than the current message's
  record. The rerun behaviour is the web framework's and is not modelled.
- Text.LowerChar: lowers A-Z only. Python's `str.lower` also lower-cases
  non-ASCII letters, some onto ASCII ones (the Kelvin sign becomes `k`).
- Text.Lower: models ASCII lower-casing only, through `Text.LowerChar`, so a
  keyword spelled with such a non-ASCII letter is detected by the code and
  not by the model.
- Router.Respond: its precondition `Classifies` stands for the classifier's
  guarantee that it predicts a trained label; the code would raise a
  `KeyError` on any other label, which the model does not represent. The
  routing lemmas about `Router.Respond` carry the same precondition.
- Router.ChatSession.ProcessInput: carries the same `Classifies`
  precondition, for the same reason.
- The "purple elephant shoes" example (a text unlike the corpus) is covered by
  the general `Router.LowConfidenceFallsBack`, not as a literal scenario.
