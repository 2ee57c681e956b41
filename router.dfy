/**
 * The chat routing policy of `process_input` (streamlit_app.py:60-76): crisis
 * filter, confidence threshold, reply lookup, logging and the display string.
 *
 * The sentiment analyzer and the intent classifier are foreign models; they
 * enter as function parameters. The analyzer yields `None` when its call
 * raises. The random reply choice enters as a natural number `draw`, and the
 * clock as the already formatted timestamp `time`.
 */
module Router {
  import opened Wrappers
  import opened Tables
  import opened Text

  /** What the sentiment analyzer returns for a text. */
  datatype Sentiment = Sentiment(polarity: string, score: real)

  /** What the intent classifier returns: its most likely label and that label's probability. */
  datatype Prediction = Prediction(intent: string, maxProba: real)

  /** One entry of the conversation log. */
  datatype LogRecord = LogRecord(
    time: string,
    userInput: string,
    sentiment: string,
    sentimentScore: real,
    intent: string,
    response: string)

  /** What one call hands back: the analyzer's exception, or a display string and an intent. */
  datatype Outcome = Raised | Returned(display: string, intent: string)

  /** The outcome of one call together with the records it appends to the log. */
  datatype Step = Step(outcome: Outcome, logged: seq<LogRecord>)

  /** A prediction is trusted only when its probability is strictly above this. */
  const Threshold: real := 0.4

  /** The crisis filter: some keyword occurs in the lower-cased text. */
  predicate CrisisDetected(text: string)
  {
    AnyOccurs(Lower(text), CrisisKeywords)
  }

  /** The confidence policy: the predicted label, or the fallback when the prediction is not confident. */
  function ResolveIntent(p: Prediction): string
  {
    if p.maxProba > Threshold then p.intent else Default
  }

  /** The random draw among the candidates: whatever the draw, one of them. */
  function Choose(candidates: seq<string>, draw: nat): (r: string)
    requires |candidates| > 0
    ensures r in candidates
  {
    candidates[draw % |candidates|]
  }

  /** The formatted reply: the sentiment label in brackets, a space, then the reply. */
  function Display(tag: string, response: string): string
  {
    "[" + tag + "] " + response
  }

  /** The display string can be taken apart again: the label and the reply are recovered from it. */
  lemma DisplayRecoversParts(tag: string, response: string)
    ensures var d := Display(tag, response);
      && |d| == |tag| + |response| + 3
      && d[0] == '[' && d[1..|tag| + 1] == tag && d[|tag| + 1..|tag| + 3] == "] "
      && d[|tag| + 3..] == response
  {

  }

  /** The classifier keeps its promise for this text: it predicts a trained label. */
  predicate Classifies(classify: string -> Prediction, text: string)
  {
    classify(text).intent in TrainedLabels()
  }

  /**
   * One call of the router, as a value: what it returns and what it appends.
   * The analyzer runs first; the crisis filter returns before the classifier
   * runs and before anything is logged.
   */
  function Respond(text: string, analyze: string -> Option<Sentiment>, classify: string -> Prediction,
                   draw: nat, time: string): (s: Step)
    requires Classifies(classify, text)
    ensures |s.logged| <= 1
    ensures s.outcome.Raised? ==> s.logged == []
  {
    match analyze(text)
    case None => Step(Raised, [])
    case Some(sentiment) =>
      if CrisisDetected(text) then
        Step(Returned(CrisisMessage, CrisisLabel), [])
      else
        var intent := ResolveIntent(classify(text));
        ResponsesCoverResolvableIntents();
        var response := Choose(Responses[intent], draw);
        Step(Returned(Display(sentiment.polarity, response), intent),
             [LogRecord(time, text, sentiment.polarity, sentiment.score, intent, response)])
  }

  /** The analyzer runs before the crisis filter: when it raises, nothing is returned or logged, crisis text or not. */
  lemma AnalyzerRunsFirst(text: string, analyze: string -> Option<Sentiment>, classify: string -> Prediction,
                          draw: nat, time: string)
    requires Classifies(classify, text)
    requires analyze(text).None?
    ensures Respond(text, analyze, classify, draw, time) == Step(Raised, [])
  {
  }

  /** A crisis text gets the fixed alert and the "Crisis" label, and the log gains nothing. */
  lemma CrisisShortCircuits(text: string, analyze: string -> Option<Sentiment>, classify: string -> Prediction,
                            draw: nat, time: string)
    requires Classifies(classify, text)
    requires analyze(text).Some? && CrisisDetected(text)
    ensures Respond(text, analyze, classify, draw, time) == Step(Returned(CrisisMessage, CrisisLabel), [])
  {
  }

  /** On a crisis text the classifier, the draw and the clock play no part. */
  lemma CrisisIgnoresClassifier(text: string, analyze: string -> Option<Sentiment>,
                                c1: string -> Prediction, c2: string -> Prediction,
                                d1: nat, d2: nat, t1: string, t2: string)
    requires Classifies(c1, text) && Classifies(c2, text)
    requires CrisisDetected(text)
    ensures Respond(text, analyze, c1, d1, t1) == Respond(text, analyze, c2, d2, t2)
  {
  }

  /** The crisis filter ignores case: any casing of a keyword inside the text raises the alert. */
  lemma CrisisIgnoresCase(text: string, word: string, i: int)
    requires OccursAt(text, word, i)
    requires Lower(word) in CrisisKeywords
    ensures CrisisDetected(text)
  {
    OccursUnderLower(text, word, i);
    var k :| 0 <= k < |CrisisKeywords| && CrisisKeywords[k] == Lower(word);
    assert Contains(Lower(text), CrisisKeywords[k]);
  }

  /** Keywords match inside longer words too: "send it" contains "end it" and raises the alert. */
  lemma KeywordMatchesInsideWords()
    ensures CrisisDetected("Please send it")
  {
    assert OccursAt("Please send it", "end it", 8);
    LowerFixesLowerCase("end it");
    CrisisIgnoresCase("Please send it", "end it", 8);
  }

  /** Lower-casing the text first does not change the crisis verdict. */
  lemma CrisisVerdictStableUnderLower(text: string)
    ensures CrisisDetected(Lower(text)) == CrisisDetected(text)
  {
    LowerIdempotent(text);
  }

  /**
   * A prediction at or below the threshold is overridden by the fallback,
   * whatever its label, and the reply is the fallback's only candidate.
   */
  lemma LowConfidenceFallsBack(text: string, analyze: string -> Option<Sentiment>, classify: string -> Prediction,
                               draw: nat, time: string)
    requires Classifies(classify, text)
    requires analyze(text).Some? && !CrisisDetected(text)
    requires classify(text).maxProba <= Threshold
    ensures Respond(text, analyze, classify, draw, time).outcome.Returned?
    ensures Respond(text, analyze, classify, draw, time).outcome ==
              Returned(Display(analyze(text).value.polarity, "Tell me more, I'm listening."), Default)
  {

  }

  /** A prediction above the threshold is kept as the intent. */
  lemma ConfidentPredictionKept(text: string, analyze: string -> Option<Sentiment>, classify: string -> Prediction,
                                draw: nat, time: string)
    requires Classifies(classify, text)
    requires analyze(text).Some? && !CrisisDetected(text)
    requires classify(text).maxProba > Threshold
    ensures Respond(text, analyze, classify, draw, time).outcome.Returned?
    ensures Respond(text, analyze, classify, draw, time).outcome.intent == classify(text).intent
  {
  }

  /**
   * An ordinary text: exactly one record is logged, it holds the raw text, the
   * analyzer's label and score, the returned intent and a reply taken from that
   * intent's table entry, and the display string is that reply behind the
   * bracketed sentiment label.
   */
  lemma OrdinaryTextIsAnsweredAndLogged(text: string, analyze: string -> Option<Sentiment>,
                                        classify: string -> Prediction, draw: nat, time: string)
    requires Classifies(classify, text)
    requires analyze(text).Some? && !CrisisDetected(text)
    ensures var s := Respond(text, analyze, classify, draw, time);
      && s.outcome.Returned?
      && s.outcome.intent in ResolvableIntents()
      && |s.logged| == 1
      && s.logged[0].time == time
      && s.logged[0].userInput == text
      && s.logged[0].sentiment == analyze(text).value.polarity
      && s.logged[0].sentimentScore == analyze(text).value.score
      && s.logged[0].intent == s.outcome.intent
      && s.outcome.intent in Responses
      && s.logged[0].response in Responses[s.outcome.intent]
      && s.outcome.display == "[" + analyze(text).value.polarity + "] " + s.logged[0].response
  {

  }

  /** Every candidate reply of the resolved intent is the outcome of some draw. */
  lemma EveryCandidateCanBeDrawn(text: string, analyze: string -> Option<Sentiment>,
                                 classify: string -> Prediction, time: string, reply: string)
    requires Classifies(classify, text)
    requires analyze(text).Some? && !CrisisDetected(text)
    requires ResolveIntent(classify(text)) in Responses
    requires reply in Responses[ResolveIntent(classify(text))]
    ensures exists draw: nat :: Respond(text, analyze, classify, draw, time).logged == 
              [LogRecord(time, text, analyze(text).value.polarity, analyze(text).value.score,
                         ResolveIntent(classify(text)), reply)]
  {
    var cands := Responses[ResolveIntent(classify(text))];
    var i :| 0 <= i < |cands| && cands[i] == reply;
    assert Choose(cands, i) == reply;
    assert Respond(text, analyze, classify, i, time).logged ==
             [LogRecord(time, text, analyze(text).value.polarity, analyze(text).value.score,
                        ResolveIntent(classify(text)), reply)];
  }

  /** Every returned intent is "Crisis" or a resolvable intent. */
  lemma ReturnedIntentRange(text: string, analyze: string -> Option<Sentiment>,
                            classify: string -> Prediction, draw: nat, time: string)
    requires Classifies(classify, text)
    ensures var o := Respond(text, analyze, classify, draw, time).outcome;
      o.Returned? ==> o.intent == CrisisLabel || o.intent in ResolvableIntents()
  {
  }

  /**
   * A conversation log and the call that extends it. `ProcessInput` is the
   * only operation that changes the log, and it only ever appends. The page
   * itself re-creates an empty log on every rerun of its script, so there a
   * log never holds more than the current message's record.
   */
  class ChatSession {
    var log: seq<LogRecord>

    constructor ()
      ensures log == []
    {
      log := [];
    }

    method ProcessInput(text: string, analyze: string -> Option<Sentiment>, classify: string -> Prediction,
                        draw: nat, time: string) returns (out: Outcome)
      requires Classifies(classify, text)
      modifies this
      ensures out == Respond(text, analyze, classify, draw, time).outcome
      ensures log == old(log) + Respond(text, analyze, classify, draw, time).logged
      ensures analyze(text).None? || CrisisDetected(text) ==> log == old(log)
      ensures analyze(text).Some? && !CrisisDetected(text) ==>
                |log| == |old(log)| + 1 && log[..|old(log)|] == old(log) &&
                log[|old(log)|].intent == out.intent
    {
      var sentiment := analyze(text);
      if sentiment.None? {
        return Raised;
      }
      if AnyOccurs(Lower(text), CrisisKeywords) {
        return Returned(CrisisMessage, CrisisLabel);
      }
      var p := classify(text);
      var intent := if p.maxProba > Threshold then p.intent else Default;
      ResponsesCoverResolvableIntents();
      var candidates := Responses[intent];
      var response := candidates[draw % |candidates|];
      log := log + [LogRecord(time, text, sentiment.value.polarity, sentiment.value.score, intent, response)];
      out := Returned("[" + sentiment.value.polarity + "] " + response, intent);
    }
  }

  /** A text shorter than the shortest keyword ("end it") cannot raise the alert. */
  lemma ShortTextIsNoCrisis(text: string)
    requires |text| < 6
    ensures !CrisisDetected(text)
  {

  }

  /** The "Hello" scenario: a confident greeting with a NEUTRAL sentiment. */
  lemma HelloScenario(analyze: string -> Option<Sentiment>, classify: string -> Prediction, draw: nat, time: string)
    requires analyze("Hello") == Some(Sentiment("NEUTRAL", 0.9))
    requires classify("Hello") == Prediction("greeting", 0.8)
    ensures Classifies(classify, "Hello")
    ensures Respond("Hello", analyze, classify, draw, time).outcome ==
              Returned("[NEUTRAL] " + "Hi there! How can I support you today?", "greeting")
  {
    ShortTextIsNoCrisis("Hello");
    TrainingCorpus();
    var greeting := "Hi there! How can I support you today?";
    assert Responses["greeting"] == [greeting];
    assert Respond("Hello", analyze, classify, draw, time).outcome == Returned(Display("NEUTRAL", greeting), "greeting");
    assert "[" + "NEUTRAL" + "] " == "[NEUTRAL] ";
  }

  /** The "I want to give up" scenario: the crisis alert, and nothing logged. */
  lemma GiveUpScenario(analyze: string -> Option<Sentiment>, classify: string -> Prediction, draw: nat, time: string)
    requires Classifies(classify, "I want to give up")
    requires analyze("I want to give up").Some?
    ensures Respond("I want to give up", analyze, classify, draw, time) ==
              Step(Returned(CrisisMessage, CrisisLabel), [])
  {
    assert OccursAt("I want to give up", "give up", 10);
    LowerFixesLowerCase("give up");
    CrisisIgnoresCase("I want to give up", "give up", 10);
  }
}
