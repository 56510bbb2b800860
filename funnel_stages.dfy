/** The emotion-to-funnel-stage lookup of `PostsToSentiment.map_emotion_to_stage`. */
module FunnelStages {

  /** The five funnel stage names the lookup can produce. */
  const Stages: set<string> := {"Awareness", "Interest", "Trust", "Advocacy", "Drop-Off"}

  /** The thirteen-entry emotion table, verbatim. */
  const EmotionTable: map<string, string> := map[
    "curiosity" := "Awareness",
    "neutral" := "Awareness",
    "admiration" := "Trust",
    "optimism" := "Interest",
    "excitement" := "Interest",
    "desire" := "Interest",
    "anticipation" := "Interest",
    "confusion" := "Drop-Off",
    "disapproval" := "Drop-Off",
    "anger" := "Drop-Off",
    "gratitude" := "Advocacy",
    "pride" := "Advocacy",
    "love" := "Advocacy"
  ]

  /** `mapping.get(emotion_label, "Awareness")`. The contract gives, for every stage, exactly
      which labels reach it; every emotion outside the non-Awareness entries lands in Awareness. */
  function MapEmotionToStage(emotion: string): (stage: string)
    ensures stage in Stages
    ensures stage == "Trust" <==> emotion == "admiration"
    ensures stage == "Interest" <==> emotion in {"optimism", "excitement", "desire", "anticipation"}
    ensures stage == "Drop-Off" <==> emotion in {"confusion", "disapproval", "anger"}
    ensures stage == "Advocacy" <==> emotion in {"gratitude", "pride", "love"}
    ensures stage == "Awareness" <==>
      emotion !in {"admiration", "optimism", "excitement", "desire", "anticipation",
                   "confusion", "disapproval", "anger", "gratitude", "pride", "love"}
  {
    if emotion in EmotionTable then EmotionTable[emotion] else "Awareness"
  }
}
