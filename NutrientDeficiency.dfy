/**
 * The nutrient-deficiency predictor
 * (vermi-backend/src/pages/pred/NutrientDeficiency.tsx): `handleAnalyze`
 * pushes one recommendation per failed test onto a fresh list, in a fixed
 * order, and stores that list as the diagnosis.  The N, P and K sliders
 * hold integers; pH is a decimal number, modelled as a `real`.
 */
module NutrientDeficiency {

  /** The five recommendations, in the order they are checked. */
  datatype Rec = LowNitrogen | LowPhosphorus | LowPotassium | TooAcidic | TooAlkaline

  /** The text shown for a recommendation. */
  function Text(r: Rec): string {
    match r
    case LowNitrogen => "Low Nitrogen: Add green waste like vegetable scraps or coffee grounds."
    case LowPhosphorus => "Low Phosphorus: Add bone meal or banana peels."
    case LowPotassium => "Low Potassium: Add fruit peels or wood ash."
    case TooAcidic => "pH too acidic: Add crushed eggshells or lime."
    case TooAlkaline => "pH too alkaline: Add citrus scraps or coffee grounds."
  }

  /** Position in the test order. */
  function Rank(r: Rec): nat {
    match r
    case LowNitrogen => 0
    case LowPhosphorus => 1
    case LowPotassium => 2
    case TooAcidic => 3
    case TooAlkaline => 4
  }

  /** Whether the test of `r` fails for these readings: the thresholds are strict. */
  predicate Fails(r: Rec, n: int, p: int, kLevel: int, pH: real) {
    match r
    case LowNitrogen => n < 40
    case LowPhosphorus => p < 30
    case LowPotassium => kLevel < 30
    case TooAcidic => pH < 6.5
    case TooAlkaline => pH > 7.5
  }

  /** `r` when its test fails, nothing otherwise. */
  function If(r: Rec, fails: bool): seq<Rec> {
    if fails then [r] else []
  }

  /** The diagnosis for the readings: the failing recommendations in test order. */
  function Diagnosis(n: int, p: int, kLevel: int, pH: real): seq<Rec> {
    If(LowNitrogen, n < 40) + If(LowPhosphorus, p < 30) + If(LowPotassium, kLevel < 30)
    + If(TooAcidic, pH < 6.5) + If(TooAlkaline, pH > 7.5)
  }

  /** The list of texts `handleAnalyze` stores. */
  function Texts(recs: seq<Rec>): (t: seq<string>)
    ensures |t| == |recs| && forall i :: 0 <= i < |t| ==> t[i] == Text(recs[i])
  {
    seq(|recs|, i requires 0 <= i < |recs| => Text(recs[i]))
  }

  lemma TextsSnoc(recs: seq<Rec>, r: Rec)
    ensures Texts(recs + [r]) == Texts(recs) + [Text(r)]
  {
  }

  /** Strictly increasing rank along `s`. */
  predicate Ranked(s: seq<Rec>) {
    forall i, j :: 0 <= i < j < |s| ==> Rank(s[i]) < Rank(s[j])
  }

  /** Appending a recommendation ranked after everything already there keeps the order. */
  lemma RankedAppend(s: seq<Rec>, r: Rec, fails: bool)
    requires Ranked(s) && forall i :: 0 <= i < |s| ==> Rank(s[i]) < Rank(r)
    ensures Ranked(s + If(r, fails))
    ensures forall i :: 0 <= i < |s + If(r, fails)| ==> Rank((s + If(r, fails))[i]) <= Rank(r)
  {
  }

  /** Each recommendation appears exactly when its own test fails. */
  lemma DiagnosisMembership(n: int, p: int, kLevel: int, pH: real, r: Rec)
    ensures r in Diagnosis(n, p, kLevel, pH) <==> Fails(r, n, p, kLevel, pH)
  {
  }

  /** Rows keep the test order N, P, K, acidic, alkaline, so none is repeated. */
  lemma DiagnosisOrdered(n: int, p: int, kLevel: int, pH: real)
    ensures Ranked(Diagnosis(n, p, kLevel, pH))
  {
    var d0 := If(LowNitrogen, n < 40);
    RankedAppend(d0, LowPhosphorus, p < 30);
    var d1 := d0 + If(LowPhosphorus, p < 30);
    RankedAppend(d1, LowPotassium, kLevel < 30);
    var d2 := d1 + If(LowPotassium, kLevel < 30);
    RankedAppend(d2, TooAcidic, pH < 6.5);
    var d3 := d2 + If(TooAcidic, pH < 6.5);
    RankedAppend(d3, TooAlkaline, pH > 7.5);
  }

  /** The two pH rows never appear together, so there are at most four rows. */
  lemma DiagnosisAtMostFour(n: int, p: int, kLevel: int, pH: real)
    ensures !(TooAcidic in Diagnosis(n, p, kLevel, pH) && TooAlkaline in Diagnosis(n, p, kLevel, pH))
    ensures |Diagnosis(n, p, kLevel, pH)| <= 4
  {
    assert !(pH < 6.5 && pH > 7.5);
  }

  /** No row at all exactly when every reading is in range: a reading on a threshold adds nothing. */
  lemma EmptyDiagnosisIff(n: int, p: int, kLevel: int, pH: real)
    ensures Diagnosis(n, p, kLevel, pH) == [] <==> n >= 40 && p >= 30 && kLevel >= 30 && 6.5 <= pH <= 7.5
  {
    DiagnosisMembership(n, p, kLevel, pH, LowNitrogen);
    DiagnosisMembership(n, p, kLevel, pH, LowPhosphorus);
    DiagnosisMembership(n, p, kLevel, pH, LowPotassium);
    DiagnosisMembership(n, p, kLevel, pH, TooAcidic);
    DiagnosisMembership(n, p, kLevel, pH, TooAlkaline);
    if Diagnosis(n, p, kLevel, pH) != [] {
      var r := Diagnosis(n, p, kLevel, pH)[0];
      DiagnosisMembership(n, p, kLevel, pH, r);
    }
  }

  class NutrientForm {
    var n: int
    var p: int
    var kLevel: int
    var pH: real
    var diagnosis: seq<string>

    /** The initial readings N 30, P 40, K 20 and pH 6.0, with no diagnosis. */
    constructor ()
      ensures n == 30 && p == 40 && kLevel == 20 && pH == 6.0 && diagnosis == []
    {
      n, p, kLevel, pH, diagnosis := 30, 40, 20, 6.0, [];
    }

    /** `handleAnalyze`: the new list replaces the previous diagnosis. */
    method Analyze()
      modifies this`diagnosis
      ensures diagnosis == Texts(Diagnosis(n, p, kLevel, pH))
    {
      var recs: seq<string> := [];
      ghost var pushed: seq<Rec> := [];
      if n < 40 {
        TextsSnoc(pushed, LowNitrogen);
        recs, pushed := recs + [Text(LowNitrogen)], pushed + [LowNitrogen];
      }
      assert recs == Texts(pushed) && pushed == If(LowNitrogen, n < 40);
      if p < 30 {
        TextsSnoc(pushed, LowPhosphorus);
        recs, pushed := recs + [Text(LowPhosphorus)], pushed + [LowPhosphorus];
      }
      assert recs == Texts(pushed) && pushed == If(LowNitrogen, n < 40) + If(LowPhosphorus, p < 30);
      if kLevel < 30 {
        TextsSnoc(pushed, LowPotassium);
        recs, pushed := recs + [Text(LowPotassium)], pushed + [LowPotassium];
      }
      assert recs == Texts(pushed) && pushed == If(LowNitrogen, n < 40) + If(LowPhosphorus, p < 30) + If(LowPotassium, kLevel < 30);
      if pH < 6.5 {
        TextsSnoc(pushed, TooAcidic);
        recs, pushed := recs + [Text(TooAcidic)], pushed + [TooAcidic];
      }
      assert recs == Texts(pushed) && pushed == If(LowNitrogen, n < 40) + If(LowPhosphorus, p < 30) + If(LowPotassium, kLevel < 30) + If(TooAcidic, pH < 6.5);
      if pH > 7.5 {
        TextsSnoc(pushed, TooAlkaline);
        recs, pushed := recs + [Text(TooAlkaline)], pushed + [TooAlkaline];
      }
      assert recs == Texts(pushed) && pushed == Diagnosis(n, p, kLevel, pH);
      diagnosis := recs;
    }

    /** The diagnosis block is shown only for a non-empty list. */
    predicate ShowsDiagnosis()
      reads this
    {
      |diagnosis| > 0
    }
  }

  /** After `Analyze` the diagnosis block is shown exactly when some reading is out of range. */
  lemma ShowsDiagnosisAfterAnalyze(form: NutrientForm)
    requires form.diagnosis == Texts(Diagnosis(form.n, form.p, form.kLevel, form.pH))
    ensures form.ShowsDiagnosis() <==>
              !(form.n >= 40 && form.p >= 30 && form.kLevel >= 30 && 6.5 <= form.pH <= 7.5)
  {
    EmptyDiagnosisIff(form.n, form.p, form.kLevel, form.pH);
  }

  /** The initial readings diagnose low nitrogen, low potassium and acidity. */
  lemma InitialDiagnosis()
    ensures Diagnosis(30, 40, 20, 6.0) == [LowNitrogen, LowPotassium, TooAcidic]
  {
  }
}
