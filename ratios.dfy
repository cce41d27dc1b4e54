/**
 * The ratio calculation of a stump form: three percentages of the diameter,
 * each judged against a fixed felling-technique threshold, and the label
 * text that shows percentage and verdict.
 */
module Ratios {
  import opened Records

  /** `part` as a percentage of the diameter `d`. */
  function Percent(part: real, d: real): real
    requires d != 0.0
  {
    part / d * 100.0
  }

  function Abs(x: real): real {
    if x < 0.0 then -x else x
  }

  /** Felling cut: within 0.1 of 65 %, strictly. */
  predicate CtPasses(pct: real) {
    Abs(pct - 65.0) < 0.1
  }

  /** Directional cut: between 20 % and 25 %, both ends included. */
  predicate CdPasses(pct: real) {
    20.0 <= pct <= 25.0
  }

  /** Hinge width: at most 10 %. */
  predicate AbPasses(pct: real) {
    pct <= 10.0
  }

  /**
   * Over exact reals the felling-cut window is open at both ends. The app
   * computes in binary floating point, where a percentage equal to the
   * double nearest 64.9 or 65.1 lies within 0.1 of 65 and passes.
   */
  lemma CtPassesWindow(pct: real)
    ensures CtPasses(pct) <==> 64.9 < pct < 65.1
    ensures !CtPasses(64.9) && !CtPasses(65.1) && CtPasses(65.0)
  {
  }

  /** The directional-cut window is closed at both ends. */
  lemma CdPassesWindow(pct: real)
    ensures CdPasses(20.0) && CdPasses(25.0)
    ensures pct < 20.0 || 25.0 < pct ==> !CdPasses(pct)
  {
  }

  /**
   * For a positive diameter the verdicts read directly on the measurements:
   * the felling cut must lie strictly between 0.649 d and 0.651 d, the
   * directional cut between d/5 and d/4, the hinge be at most d/10.
   */
  lemma VerdictsOnMeasurements(d: real, ct: real, cd: real, ab: real)
    requires d > 0.0
    ensures CtPasses(Percent(ct, d)) <==> 0.649 * d < ct < 0.651 * d
    ensures CdPasses(Percent(cd, d)) <==> 0.2 * d <= cd <= 0.25 * d
    ensures AbPasses(Percent(ab, d)) <==> ab <= 0.1 * d
  {
    CtPassesWindow(Percent(ct, d));
    PercentBelow(64.9, ct, d);
    PercentBelow(65.1, ct, d);
    PercentBelow(20.0, cd, d);
    PercentBelow(25.0, cd, d);
    PercentBelow(10.0, ab, d);
  }

  /** Comparing a percentage with a bound is comparing the part with that share of d. */
  lemma PercentBelow(bound: real, part: real, d: real)
    requires d > 0.0
    ensures Percent(part, d) < bound <==> part < bound / 100.0 * d
    ensures Percent(part, d) <= bound <==> part <= bound / 100.0 * d
    ensures bound < Percent(part, d) <==> bound / 100.0 * d < part
    ensures bound <= Percent(part, d) <==> bound / 100.0 * d <= part
  {
    var p := Percent(part, d);
    assert p * d == part * 100.0;
    MultiplyMonotone(p, bound, d);
    MultiplyMonotone(bound, p, d);
  }

  /** Multiplying both sides by a positive number keeps an inequality. */
  lemma MultiplyMonotone(x: real, y: real, d: real)
    requires d > 0.0
    ensures x < y <==> x * d < y * d
    ensures x <= y <==> x * d <= y * d
  {
    if x < y {
      assert (y - x) * d > 0.0;
    } else {
      assert (x - y) * d >= 0.0;
    }
  }

  /** The measurements the calculation reads (the four inputs parsed as numbers). */
  datatype Readings = Readings(d: real, ct: real, cd: real, ab: real)

  /**
   * The four inputs d, ct, cd and ab as numbers, or None when any of them
   * does not parse; `parse` stands for the runtime's float conversion.
   * The two height inputs are never read.
   */
  function ReadingsOf(t: StumpRecord, parse: string -> Option<real>): Option<Readings> {
    var d, ct, cd, ab := parse(t.d), parse(t.ct), parse(t.cd), parse(t.ab);
    if d.Some? && ct.Some? && cd.Some? && ab.Some? then
      Some(Readings(d.value, ct.value, cd.value, ab.value))
    else
      None
  }

  /**
   * The calculation is defined: when all four inputs parse, the diameter is
   * not zero (a zero diameter raises a division error that nothing catches).
   */
  predicate RatiosDefined(t: StumpRecord, parse: string -> Option<real>) {
    ReadingsOf(t, parse).Some? ==> ReadingsOf(t, parse).value.d != 0.0
  }

  const PassMark: char := '✅'
  const FailMark: char := '❌'

  /** Label text: the formatted percentage, "% " and the verdict mark. */
  function RatioLabel(number: string, ok: bool): (s: string)
    ensures VerdictOf(s) == Some(ok)
    ensures number < s
  {
    number + "% " + [if ok then PassMark else FailMark]
  }

  /** The verdict a label shows, read from its final mark. */
  function VerdictOf(text: string): Option<bool> {
    if text == [] then None
    else if text[|text| - 1] == PassMark then Some(true)
    else if text[|text| - 1] == FailMark then Some(false)
    else None
  }

  /** The six measurement inputs of two records agree. */
  predicate SameInputs(a: StumpRecord, b: StumpRecord) {
    a.d == b.d && a.altura == b.altura && a.ct == b.ct && a.cd == b.cd &&
    a.ab == b.ab && a.altura1 == b.altura1
  }

  /**
   * The form texts after pressing "Calcular": unchanged when an input does
   * not parse (an error is shown instead); otherwise the three labels show
   * each percentage, formatted by `fmt` (one decimal), with its verdict.
   */
  function Recalculated(t: StumpRecord, parse: string -> Option<real>, fmt: real -> string): (r: StumpRecord)
    requires RatiosDefined(t, parse)
    ensures SameInputs(r, t)
    ensures ReadingsOf(t, parse).None? ==> r == t
    ensures ReadingsOf(t, parse).Some? ==>
      var m := ReadingsOf(t, parse).value;
      && r.ctRatio != "" && r.cdRatio != "" && r.abRatio != ""
      && VerdictOf(r.ctRatio) == Some(CtPasses(Percent(m.ct, m.d)))
      && VerdictOf(r.cdRatio) == Some(CdPasses(Percent(m.cd, m.d)))
      && VerdictOf(r.abRatio) == Some(AbPasses(Percent(m.ab, m.d)))
      && fmt(Percent(m.ct, m.d)) < r.ctRatio
      && fmt(Percent(m.cd, m.d)) < r.cdRatio
      && fmt(Percent(m.ab, m.d)) < r.abRatio
  {
    match ReadingsOf(t, parse)
    case None => t
    case Some(m) =>
      var ctPct, cdPct, abPct := Percent(m.ct, m.d), Percent(m.cd, m.d), Percent(m.ab, m.d);
      t.(ctRatio := RatioLabel(fmt(ctPct), CtPasses(ctPct)),
         cdRatio := RatioLabel(fmt(cdPct), CdPasses(cdPct)),
         abRatio := RatioLabel(fmt(abPct), AbPasses(abPct)))
  }

  /**
   * The reference stump (d = 20, CT = 13, CD = 4.6, AB = 1.8) gives 65 %,
   * 23 % and 9 %, and passes all three rules.
   */
  lemma ReferenceStumpPasses()
    ensures Percent(13.0, 20.0) == 65.0 && CtPasses(65.0)
    ensures Percent(4.6, 20.0) == 23.0 && CdPasses(23.0)
    ensures Percent(1.8, 20.0) == 9.0 && AbPasses(9.0)
  {
  }
}
