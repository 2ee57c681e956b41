/**
 * What the page derives from the router's results: the recommendations shown
 * after a reply (streamlit_app.py:88) and the numeric mood timeline drawn from
 * the conversation log (streamlit_app.py:100-104).
 */
module Dashboard {
  import opened Wrappers
  import opened Tables
  import opened Router

  /** `recommendations.get(intent, recommendations["default"])`: the intent's entry, or the default entry. */
  function RecommendationsFor(intent: string): (r: seq<Recommendation>)
    ensures |r| > 0
    ensures intent in Recommendations ==> r == Recommendations[intent]
    ensures intent !in Recommendations ==> r == Recommendations[Default]
  {
    RecommendationTableShape();
    if intent in Recommendations then Recommendations[intent] else Recommendations[Default]
  }

  /** A greeting and a crisis alert both get the default playlist; every other resolvable intent gets its own entry. */
  lemma RecommendationsPerIntent()
    ensures RecommendationsFor("greeting") == Recommendations[Default]
    ensures RecommendationsFor(CrisisLabel) == Recommendations[Default]
    ensures forall intent :: intent in ResolvableIntents() && intent != "greeting" ==>
              RecommendationsFor(intent) == Recommendations[intent]
  {

  }

  /** Whatever intent the router returns, and any other string, the lookup yields one of the table's entries. */
  lemma EveryReplyHasRecommendations(intent: string)
    ensures RecommendationsFor(intent) in Recommendations.Values
  {
  }

  /** The three sentiment labels the timeline knows. */
  predicate KnownPolarity(polarity: string)
  {
    polarity == "POSITIVE" || polarity == "NEGATIVE" || polarity == "NEUTRAL"
  }

  /** The sentiment-to-number map: positive 1, negative -1, neutral 0; any other label has no number. */
  function SentimentNumber(polarity: string): (n: Option<int>)
    ensures n.Some? <==> KnownPolarity(polarity)
    ensures n.Some? ==> -1 <= n.value <= 1
  {
    if polarity == "POSITIVE" then Some(1)
    else if polarity == "NEGATIVE" then Some(-1)
    else if polarity == "NEUTRAL" then Some(0)
    else None
  }

  /** Distinct known labels get distinct numbers, and the numbers keep their order from negative to positive. */
  lemma SentimentNumberOrdersPolarity(a: string, b: string)
    requires KnownPolarity(a) && KnownPolarity(b)
    ensures SentimentNumber(a) == SentimentNumber(b) <==> a == b
    ensures SentimentNumber("NEGATIVE").value < SentimentNumber("NEUTRAL").value < SentimentNumber("POSITIVE").value
  {
  }

  /** The timeline: one value per log record, in log order, the number of that record's sentiment. */
  function MoodTimeline(log: seq<LogRecord>): (t: seq<Option<int>>)
    ensures |t| == |log|
    ensures forall i :: 0 <= i < |log| ==> t[i] == SentimentNumber(log[i].sentiment)
  {
    if log == [] then [] else MoodTimeline(log[..|log| - 1]) + [SentimentNumber(log[|log| - 1].sentiment)]
  }

  /** Appending a record to the log appends exactly its number to the timeline. */
  lemma TimelineFollowsLog(log: seq<LogRecord>, record: LogRecord)
    ensures MoodTimeline(log + [record]) == MoodTimeline(log) + [SentimentNumber(record.sentiment)]
  {

  }

  /** When the analyzer only speaks the three known labels, the timeline has no gaps. */
  lemma TimelineHasNoGaps(log: seq<LogRecord>)
    requires forall i :: 0 <= i < |log| ==> KnownPolarity(log[i].sentiment)
    ensures forall i :: 0 <= i < |log| ==> MoodTimeline(log)[i].Some?
  {
  }
}
