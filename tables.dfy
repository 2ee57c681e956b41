/**
 * The static tables the assistant is configured with: the intent training
 * corpus, the reply table, the recommendation table, the crisis keywords and
 * the fixed crisis alert (streamlit_app.py:13-56).
 */
module Tables {

  /** Training texts of the intent classifier, in corpus order. */
  const IntentTexts: seq<string> :=
    [ "I feel stressed", "I'm anxious", "Hello", "Hi",
      "I'm sad", "Feeling low", "I'm overwhelmed", "Good morning" ]

  /** The intent label of each training text, position by position. */
  const IntentLabels: seq<string> :=
    [ "stress", "anxiety", "greeting", "greeting",
      "sadness", "sadness", "stress", "greeting" ]

  /** The fallback intent, never a label of the corpus. */
  const Default: string := "default"

  /** The synthetic intent returned for a crisis message. */
  const CrisisLabel: string := "Crisis"

  /**
   * The labels the classifier was fitted on, the only labels it predicts:
   * the four intents of the corpus, and never the fallback.
   */
  function TrainedLabels(): (labels: set<string>)
    ensures forall i :: 0 <= i < |IntentLabels| ==> IntentLabels[i] in labels
    ensures forall l :: l in labels ==> exists i :: 0 <= i < |IntentLabels| && IntentLabels[i] == l
    ensures labels == {"stress", "anxiety", "greeting", "sadness"}
    ensures Default !in labels
  {
    var labels := set i | 0 <= i < |IntentLabels| :: IntentLabels[i];
    assert IntentLabels[0] == "stress" && IntentLabels[1] == "anxiety";
    assert IntentLabels[2] == "greeting" && IntentLabels[4] == "sadness";
    assert {"stress", "anxiety", "greeting", "sadness"} <= labels;
    labels
  }

  /** Every intent the router can resolve: a trained label or the fallback. */
  function ResolvableIntents(): set<string>
  {
    TrainedLabels() + {Default}
  }

  /** Candidate replies per intent. */
  const Responses: map<string, seq<string>> := map[
    "greeting" := ["Hi there! How can I support you today?"],
    "stress"   := ["Stress is tough. Let\U{2019}s take a deep breath together."],
    "anxiety"  := ["It\U{2019}s okay to feel anxious. I'm here with you."],
    "sadness"  := ["I\U{2019}m sorry you feel this way. Want to talk more about it?"],
    "default"  := ["Tell me more, I'm listening."]
  ]

  /** A recommended resource: a title and a link. */
  datatype Recommendation = Recommendation(title: string, url: string)

  /** Recommended resources per intent; there is no "greeting" entry, and the fallback of the lookup covers it. */
  const Recommendations: map<string, seq<Recommendation>> := map[
    "stress" := [
      Recommendation("5-Minute Meditation", "https://www.youtube.com/watch?v=inpok4MKVLM"),
      Recommendation("Stretch & Relax", "https://www.youtube.com/watch?v=qHJ992N-Dhs")
    ],
    "anxiety" := [
      Recommendation("Anxiety Relief Music", "https://www.youtube.com/watch?v=ZToicYcHIOU"),
      Recommendation("Grounding Exercise", "https://www.youtube.com/watch?v=KZXT7L4s0bY")
    ],
    "sadness" := [
      Recommendation("Uplifting Music", "https://www.youtube.com/watch?v=UfcAVejslrU"),
      Recommendation("Talk on Depression", "https://www.youtube.com/watch?v=XiCrniLQGYc")
    ],
    "default" := [
      Recommendation("Mental Health Playlist",
                     "https://www.youtube.com/playlist?list=PLFzWFredxyJlR9L1_LPODw_JH6XkUnYVX")
    ]
  ]

  /** Phrases whose presence in the lower-cased input raises the crisis alert. */
  const CrisisKeywords: seq<string> := ["suicide", "kill myself", "end it", "hopeless", "give up"]

  /** The fixed reply to a crisis message (a warning sign, then the advice). */
  const CrisisMessage: string := "[\U{26A0}\U{FE0F} Crisis Detected] Please seek immediate help."

  /** The corpus pairs every text with a label, and its labels are exactly four. */
  lemma TrainingCorpus()
    ensures |IntentTexts| == |IntentLabels| == 8
    ensures TrainedLabels() == {"stress", "anxiety", "greeting", "sadness"}
    ensures Default !in TrainedLabels()
  {
  }

  /** The reply table covers every resolvable intent with at least one reply. */
  lemma ResponsesCoverResolvableIntents()
    ensures forall intent :: intent in ResolvableIntents() ==>
              intent in Responses && |Responses[intent]| > 0
  {

  }

  /** The recommendation table has "default", and every entry is non-empty. */
  lemma RecommendationTableShape()
    ensures Default in Recommendations
    ensures forall k :: k in Recommendations ==> |Recommendations[k]| > 0
    ensures Recommendations.Keys == {"stress", "anxiety", "sadness", "default"}
    ensures "greeting" !in Recommendations && CrisisLabel !in Recommendations
  {
  }
}
