/**
 * The label-type dispatch of the training driver: which dev-set evaluator
 * is selected for a configured label type, and whether it yields the
 * dev metric that the best-score bookkeeping compares.
 *
 * `'word'` is matched exactly; `'character'` and `'phone'` are matched as
 * substrings (the `in` operator on strings), in that order.
 */
module Labels {

  /** `sub` occurs in `s` starting at index `k`. */
  ghost predicate OccursAt(s: string, sub: string, k: int) {
    0 <= k && k + |sub| <= |s| && s[k..k + |sub|] == sub
  }

  /** Substring test, the meaning of `sub in s` on strings. */
  function Contains(s: string, sub: string): (r: bool)
    ensures r <==> exists k :: OccursAt(s, sub, k)
    decreases |s|
  {
    if |sub| > |s| then
      false
    else if s[..|sub|] == sub then
      assert OccursAt(s, sub, 0);
      true
    else
      ShiftOccurrence(s, sub);
      Contains(s[1..], sub)
  }

  /** When `sub` is not a prefix of `s`, its occurrences in `s` are those in `s[1..]`, shifted by one. */
  lemma ShiftOccurrence(s: string, sub: string)
    requires |sub| <= |s| && s[..|sub|] != sub
    ensures (exists k :: OccursAt(s, sub, k)) <==> (exists k :: OccursAt(s[1..], sub, k))
  {
    if k :| OccursAt(s, sub, k) {
      assert k != 0;
      assert s[1..][k - 1..k - 1 + |sub|] == s[k..k + |sub|];
      assert OccursAt(s[1..], sub, k - 1);
    }
    if k :| OccursAt(s[1..], sub, k) {
      assert s[1..][k..k + |sub|] == s[k + 1..k + 1 + |sub|];
      assert OccursAt(s, sub, k + 1);
    }
  }

  /** What the dev-set evaluation hands to the best-score comparison. */
  datatype Metric =
    | Measured(value: real)  // `metric_dev` is bound to the evaluator's error rate
    | Unassigned             // the phone branch stores its result elsewhere; `metric_dev` stays unbound
    | Unrecognized           // no branch matches; the driver raises a ValueError

  /**
   * Selects the dev metric for `labelType`, given the error rate `measured`
   * that the selected evaluator reports (WER for words, CER for characters).
   */
  function DevMetric(labelType: string, measured: real): (m: Metric)
    ensures m.Measured? <==> labelType == "word" || Contains(labelType, "character")
    ensures m.Measured? ==> m.value == measured
    ensures m == Unassigned <==>
      labelType != "word" && !Contains(labelType, "character") && Contains(labelType, "phone")
  {
    if labelType == "word" then Measured(measured)
    else if Contains(labelType, "character") then Measured(measured)
    else if Contains(labelType, "phone") then Unassigned
    else Unrecognized
  }

  /**
   * Label types used by the recipes: `word` and any `character...` variant
   * give a metric, every `phone...` variant leaves it unbound, and a label
   * type that merely resembles `word` or names another unit is rejected.
   */
  lemma DispatchExamples(x: real)
    ensures DevMetric("word", x) == Measured(x)
    ensures DevMetric("character_wb", x) == Measured(x)
    ensures DevMetric("character_capital_divide", x) == Measured(x)
    ensures DevMetric("phone61", x) == Unassigned
    ensures DevMetric("words", x) == Unrecognized
    ensures DevMetric("kanji", x) == Unrecognized
  {
    assert OccursAt("character_wb", "character", 0);
    assert OccursAt("character_capital_divide", "character", 0);
    assert OccursAt("phone61", "phone", 0);
    assert !Contains("words", "phone") by {
      assert "words"[..5][0] != "phone"[0];
      assert !Contains("ords", "phone");
    }
    assert !Contains("kanji", "phone") by {
      assert !Contains("anji", "phone");
    }
  }
}
