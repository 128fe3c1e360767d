/**
 * The two fixed advisory tables: what a recognised leaf is used for and
 * which skin conditions it treats, and a recommendation per skin
 * condition, each looked up with a default for labels it does not hold.
 */
module Knowledge {
  import Inference

  datatype LeafAdvice = LeafAdvice(uses: string, diseases: seq<string>)

  /** The advice for a label the leaf table does not hold. */
  const NoLeafInfo: LeafAdvice := LeafAdvice("No info", [])

  const LeafInfo: map<string, LeafAdvice> := map[
    "Aloevera" := LeafAdvice("Soothes burns, reduces scars, hydrates skin, and promotes wound healing.",
                             ["Eczema", "Psoriasis", "Acne", "Skin ulcers", "Sunburn", "Dry skin"]),
    "Amruthaballi" := LeafAdvice("Detoxifies blood and reduces skin allergies.", ["Skin rashes", "Skin allergies"]),
    "Tulsi" := LeafAdvice("Has antibacterial properties for skin health.", ["Acne", "Skin infections"]),
    "Neem" := LeafAdvice("Powerful antimicrobial, treats many skin conditions.",
                         ["Eczema", "Acne", "Psoriasis", "Ringworm", "Scabies", "Fungal infections"]),
    "Mint" := LeafAdvice("Cools and refreshes skin.", ["Acne", "Skin irritation"]),
    "Turmeric" := LeafAdvice("Natural anti-inflammatory for skin issues.",
                             ["Eczema", "Psoriasis", "Skin infections", "Wounds", "Acne scars"]),
    "Ginger" := LeafAdvice("Improves skin elasticity and reduces inflammation.", ["Inflammatory skin conditions", "Skin aging"]),
    "Lemon" := LeafAdvice("Lightens pigmentation and reduces acne scars.", ["Hyperpigmentation", "Acne scars", "Oily skin"]),
    "Guava" := LeafAdvice("Improves skin texture and prevents premature aging.", ["Skin aging", "Wrinkles"]),
    "Henna" := LeafAdvice("Cools skin and treats fungal issues.", ["Fungal skin infections", "Skin rashes", "Burns"]),
    "Hibiscus" := LeafAdvice("Rejuvenates skin and reduces aging signs.", ["Wrinkles", "Skin aging"]),
    "Rose" := LeafAdvice("Improves skin glow and soothes irritation.", ["Acne", "Dry skin", "Skin irritation"]),
    "Ashoka" := LeafAdvice("Has properties for skin rejuvenation.", ["Skin pigmentation", "Premature aging"]),
    "Curry leaves" := LeafAdvice("Nourishes skin and prevents dryness.", ["Dry skin"]),
    "Arali" := LeafAdvice("Reduces inflammation, soothes rashes and promotes wound healing.", ["Eczema", "Ringworm", "Minor Wounds"]),
    "Doddpathre" := LeafAdvice("Soothes the skin and reduces itching, redness and microbial infections.",
                               ["Skin rashes", "Eczema", "Ringworm"])
  ]

  /** `leaf_info.get(label, {"uses": "No info", "diseases": []})`. */
  function LeafAdviceFor(leafName: string): (advice: LeafAdvice)
    ensures advice.diseases == [] <==> leafName !in LeafInfo
    ensures advice.uses == "No info" <==> leafName !in LeafInfo
  {
    if leafName in LeafInfo then LeafInfo[leafName] else NoLeafInfo
  }

  /** The recommendation for a label the table does not hold. */
  const NoRecommendation: string := "No recommendation"

  const Recommendations: map<string, string> := map[
    "acne" := "Neem leaves act as a natural antibacterial agent...",
    "eczema" := "Aloe vera and neem leaves help calm itching...",
    "psoriasis" := "Neem and aloe vera leaves reduce scaling...",
    "ringworm" := "Basil (Tulsi) and neem leaves possess antifungal properties...",
    "unknown" := "No recommendation."
  ]

  /** `recommendations.get(label, "No recommendation")`. */
  function RecommendationFor(condition: string): (text: string)
    ensures text == NoRecommendation <==> condition !in Recommendations
    ensures text != ""
  {
    if condition in Recommendations then Recommendations[condition] else NoRecommendation
  }

  /** The sentinels and the one class the table misses get the default advice. */
  lemma LeafAdviceDefaults()
    ensures LeafAdviceFor("Not a Leaf") == NoLeafInfo
    ensures LeafAdviceFor("Unknown") == NoLeafInfo
    ensures LeafAdviceFor("Bhrami") == NoLeafInfo
  {
  }

  /** Every other class the leaf model can name has an entry. */
  lemma LeafClassesCovered(i: nat)
    requires i < |Inference.LeafClassNames|
    requires Inference.LeafClassNames[i] != "Bhrami" && Inference.LeafClassNames[i] != "Unknown"
    ensures Inference.LeafClassNames[i] in LeafInfo
  {
  }

  /**
   * The "unknown" entry reads "No recommendation." (with a full stop),
   * a different string from the lookup default "No recommendation".
   */
  lemma RecommendationDefaults()
    ensures RecommendationFor("unknown") == "No recommendation."
    ensures RecommendationFor("unknown") != NoRecommendation
  {
  }
}
