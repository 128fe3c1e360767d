/**
 * Post-processing of the two classifiers' score vectors: arg-max, the
 * class tables, the confidence thresholds and the "no model" sentinels.
 * The model output stands for `model.predict(...)[0]` on the loaded
 * image, or None when `load_img` cannot read the saved file; resizing and
 * normalisation happen before it and are not modelled.
 */
module Inference {
  import opened Wrappers

  /**
   * A classifier's answer, or the exception that ends the request: the
   * image could not be loaded, or numpy rejects an empty score vector.
   */
  datatype Classification = Classified(name: string, confidence: real) | ModelFault

  /** The leaf model's output classes, by index. */
  const LeafClassNames: seq<string> := [
    "Aloevera", "Amruthaballi", "Arali", "Bhrami", "Curry leaves", "Doddpathre", "Hibiscus",
    "Mint", "Neem", "Tulsi", "Turmeric", "Unknown"
  ]

  /** Leaf confidence is a percentage; below this the image is "Not a Leaf". */
  const LeafThreshold: real := 10.0

  /** Skin confidence is a fraction; below this the result is "unknown". */
  const SkinThreshold: real := 0.05

  /** `k` is the first index holding the largest score. */
  ghost predicate IsFirstMaximum(scores: seq<real>, k: int)
  {
    && 0 <= k < |scores|
    && (forall j :: 0 <= j < |scores| ==> scores[j] <= scores[k])
    && (forall j :: 0 <= j < k ==> scores[j] < scores[k])
  }

  /** `np.argmax`: the first index of the largest score. */
  function ArgMax(scores: seq<real>): (k: nat)
    requires scores != []
    ensures IsFirstMaximum(scores, k)
  {
    if |scores| == 1 then 0
    else
      var k := ArgMax(scores[..|scores| - 1]);
      if scores[|scores| - 1] > scores[k] then |scores| - 1 else k
  }

  /** Only one index is the first maximum. */
  lemma FirstMaximumUnique(scores: seq<real>, k1: int, k2: int)
    requires IsFirstMaximum(scores, k1) && IsFirstMaximum(scores, k2)
    ensures k1 == k2
  {
    assert scores[k1] == scores[k2];
  }

  /** `np.max`: the largest score. */
  function MaxScore(scores: seq<real>): (m: real)
    requires scores != []
    ensures m in scores
    ensures forall j :: 0 <= j < |scores| ==> scores[j] <= m
  {
    if |scores| == 1 then scores[0]
    else
      var m := MaxScore(scores[..|scores| - 1]);
      var last := scores[|scores| - 1];
      assert scores == scores[..|scores| - 1] + [last];
      if last > m then last else m
  }

  /** The confidence (`np.max`) is the score at the predicted index (`np.argmax`). */
  lemma MaxScoreAtArgMax(scores: seq<real>)
    requires scores != []
    ensures MaxScore(scores) == scores[ArgMax(scores)]
  {
  }

  /**
   * `leaf_class_names[idx]`, or "Unknown" past the end of the table; as
   * "Unknown" is itself the table's last class, the name is always a class.
   */
  function LeafName(idx: nat): (name: string)
    ensures name in LeafClassNames
  {
    if idx < |LeafClassNames| then LeafClassNames[idx] else "Unknown"
  }

  /**
   * `predict_leaf_image`, given whether the leaf model is loaded and its
   * output for the saved file (None when the file is not a readable image).
   */
  function ClassifyLeaf(modelLoaded: bool, output: Option<seq<real>>): (c: Classification)
    ensures c.ModelFault? <==> modelLoaded && (output.None? || output.value == [])
    ensures c.Classified? ==> c.name == "Not a Leaf" || c.name in LeafClassNames
    ensures c.Classified? && modelLoaded ==> (c.confidence < LeafThreshold <==> c.name == "Not a Leaf")
  {
    if !modelLoaded then Classified("Unknown", 0.0)
    else if output.None? || output.value == [] then ModelFault
    else
      var scores := output.value;
      var idx := ArgMax(scores);
      var conf := MaxScore(scores) * 100.0;
      var name := LeafName(idx);
      if conf < LeafThreshold then Classified("Not a Leaf", conf) else Classified(name, conf)
  }

  /** Without a leaf model every image is ("Unknown", 0). */
  lemma LeafWithoutModel(output: Option<seq<real>>)
    ensures ClassifyLeaf(false, output) == Classified("Unknown", 0.0)
  {
  }

  /**
   * Below 10 percent the label is "Not a Leaf" whatever the arg-max, and
   * the confidence is still reported, not zeroed.
   */
  lemma LeafBelowThreshold(scores: seq<real>)
    requires scores != [] && MaxScore(scores) * 100.0 < LeafThreshold
    ensures ClassifyLeaf(true, Some(scores)) == Classified("Not a Leaf", MaxScore(scores) * 100.0)
  {
  }

  /**
   * At or above 10 percent the label is the class name at the first
   * maximal score ("Unknown" past the table) and the confidence is that
   * score as a percentage.
   */
  lemma LeafAtOrAboveThreshold(scores: seq<real>, k: nat)
    requires IsFirstMaximum(scores, k) && scores[k] * 100.0 >= LeafThreshold
    ensures ClassifyLeaf(true, Some(scores)) == Classified(LeafName(k), scores[k] * 100.0)
  {
  }

  /** With probabilities as scores, the leaf confidence is a percentage. */
  lemma LeafConfidenceIsPercentage(scores: seq<real>)
    requires forall j :: 0 <= j < |scores| ==> 0.0 <= scores[j] <= 1.0
    ensures ClassifyLeaf(true, Some(scores)).Classified? ==> 0.0 <= ClassifyLeaf(true, Some(scores)).confidence <= 100.0
  {
    if scores != [] {
      MaxScoreAtArgMax(scores);
    }
  }

  /** `disease_classes[idx]`, or "unknown" past the end of the list. */
  function SkinName(classes: seq<string>, idx: nat): (name: string)
    ensures name == "unknown" || name in classes
  {
    if idx < |classes| then classes[idx] else "unknown"
  }

  /**
   * `predict_skin_image`, given whether the skin model is loaded, the
   * class list and the model's output for the saved file (None when the
   * file is not a readable image).
   */
  function ClassifySkin(modelLoaded: bool, classes: seq<string>, output: Option<seq<real>>): (c: Classification)
    ensures c.ModelFault? <==> modelLoaded && classes != [] && (output.None? || output.value == [])
    ensures c.Classified? ==> c.name == "unknown" || c.name in classes
    ensures c.Classified? ==> c.confidence == 0.0 || c.confidence >= SkinThreshold
  {
    if !modelLoaded || classes == [] then Classified("unknown", 0.0)
    else if output.None? || output.value == [] then ModelFault
    else
      var scores := output.value;
      var idx := ArgMax(scores);
      var conf := MaxScore(scores);
      var pred := SkinName(classes, idx);
      if conf < SkinThreshold then Classified("unknown", 0.0) else Classified(pred, conf)
  }

  /** Without a skin model or without class names every image is ("unknown", 0). */
  lemma SkinWithoutModel(modelLoaded: bool, classes: seq<string>, output: Option<seq<real>>)
    requires !modelLoaded || classes == []
    ensures ClassifySkin(modelLoaded, classes, output) == Classified("unknown", 0.0)
  {
  }

  /** Below 0.05 the answer is ("unknown", 0) whatever the arg-max. */
  lemma SkinBelowThreshold(classes: seq<string>, scores: seq<real>)
    requires classes != [] && scores != [] && MaxScore(scores) < SkinThreshold
    ensures ClassifySkin(true, classes, Some(scores)) == Classified("unknown", 0.0)
  {
  }

  /**
   * At or above 0.05 the label is the class at the first maximal score
   * ("unknown" past the list) and the confidence is that score.
   */
  lemma SkinAtOrAboveThreshold(classes: seq<string>, scores: seq<real>, k: nat)
    requires classes != [] && IsFirstMaximum(scores, k) && scores[k] >= SkinThreshold
    ensures ClassifySkin(true, classes, Some(scores)) == Classified(SkinName(classes, k), scores[k])
  {
  }
}
