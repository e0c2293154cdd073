/**
 * The plant-readiness estimator
 * (vermi-backend/src/pages/pred/PlantReadyEstimator.tsx): the days left
 * are a base of 28 (mint) or 35 days, less one day per unit of turning,
 * food and water input and half a day per degree above 25, clamped to at
 * least 7 and then rounded.  The number inputs hold integers, so every
 * intermediate value is a whole number of half-days; the model computes
 * in half-days and is related below to the same expression over `real`.
 */
module PlantReadyEstimator {
  import opened Base

  /** The form: the plant select, the N/P/K moisture sliders and the four number inputs. */
  datatype PlantForm = PlantForm(
    selectedPlant: string, moistureN: int, moistureP: int, moistureK: int,
    turning: int, foodInput: int, waterInput: int, temp: int)

  /** The initial `useState` values. */
  const InitialForm: PlantForm := PlantForm("", 50, 50, 50, 3, 2, 1, 30)

  const Recommendation: string := "You are 80% there! Try adding more banana peels or turning more frequently."

  /** `baseDays`: 28 for mint, 35 for anything else, the empty selection included. */
  function BaseDays(plant: string): (d: int)
    ensures d == 28 || d == 35
    ensures d == 28 <==> plant == "Mint"
  {
    if plant == "Mint" then 28 else 35
  }

  /** `Math.max(7, baseDays + adjustment)`, in half-days. */
  function ResultHalfDays(f: PlantForm): (h: int)
    ensures h >= 14
  {
    var raw := 2 * BaseDays(f.selectedPlant) - 2 * (f.turning + f.foodInput + f.waterInput) - (f.temp - 25);
    if raw > 14 then raw else 14
  }

  /** `Math.round(result)`: halves round up. */
  function DaysLeft(f: PlantForm): (d: int)
    ensures d >= 7
    ensures 2 * d == ResultHalfDays(f) || 2 * d == ResultHalfDays(f) + 1
  {
    (ResultHalfDays(f) + 1) / 2
  }

  /** The same computation over exact reals, as the source writes it. */
  function RealResult(f: PlantForm): real {
    var adjustment := ((f.turning + f.foodInput + f.waterInput) as real) * -1.0 + ((f.temp - 25) as real) * -0.5;
    var raw := BaseDays(f.selectedPlant) as real + adjustment;
    if 7.0 > raw then 7.0 else raw
  }

  /** The half-day count is exact: it is twice the real result. */
  lemma HalfDaysExact(f: PlantForm)
    ensures ResultHalfDays(f) as real == 2.0 * RealResult(f)
  {
  }

  /** `Math.round(x)` is `floor(x + 0.5)`; the half-day rounding agrees with it. */
  lemma DaysLeftIsRounded(f: PlantForm)
    ensures DaysLeft(f) == (RealResult(f) + 0.5).Floor
  {
    HalfDaysExact(f);
    var h := ResultHalfDays(f);
    var d := DaysLeft(f);
    assert RealResult(f) + 0.5 == (h + 1) as real / 2.0;
    assert d as real <= (h + 1) as real / 2.0 < (d + 1) as real;
  }

  /** An odd half-day count k + ½ rounds up to k + 1; an even one is exact. */
  lemma HalvesRoundUp(f: PlantForm, k: int)
    ensures ResultHalfDays(f) == 2 * k + 1 ==> DaysLeft(f) == k + 1
    ensures ResultHalfDays(f) == 2 * k ==> DaysLeft(f) == k
  {
  }

  /** The clamp comes before rounding: however high the inputs, at least 7 days are left. */
  lemma AtLeastAWeek(f: PlantForm)
    ensures DaysLeft(f) >= 7
    ensures ResultHalfDays(f) <= 14 ==> DaysLeft(f) == 7
  {
  }

  /** The moisture sliders never influence the estimate. */
  lemma MoistureIgnored(f: PlantForm, n: int, p: int, k: int)
    ensures DaysLeft(f.(moistureN := n, moistureP := p, moistureK := k)) == DaysLeft(f)
  {
  }

  /** The default inputs: 35 - 6 - 2.5 = 26.5 days, shown as 27. */
  lemma InitialEstimate()
    ensures ResultHalfDays(InitialForm) == 53 && DaysLeft(InitialForm) == 27
  {
  }

  /** The page: the form, `daysLeft` (`null` before the first estimate) and the recommendation. */
  datatype PlantPage = PlantPage(form: PlantForm, daysLeft: Option<int>, recommendation: string)

  const InitialPage: PlantPage := PlantPage(InitialForm, None, "")

  /** `handleEstimate`: the estimate and the fixed recommendation replace what was shown. */
  function AfterEstimate(page: PlantPage): (next: PlantPage)
    ensures next.form == page.form
    ensures next.daysLeft == Some(DaysLeft(page.form))
    ensures next.recommendation == Recommendation
  {
    page.(daysLeft := Some(DaysLeft(page.form)), recommendation := Recommendation)
  }
}
