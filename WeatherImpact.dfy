/**
 * The weather-impact predictor (src/pages/pred/WeatherImpact.tsx): one
 * if/else-if chain over the four sliders gives the composting speed, the
 * expected number of days and a tip.  The location box and the compost
 * type select are part of the form but take no part in the prediction.
 */
module WeatherImpact {
  import opened Base

  /** The form's state; the sliders hold integers. */
  datatype WeatherForm = WeatherForm(
    location: string, temperature: int, humidity: int, rainfall: int, sunlight: int, compostType: string)

  datatype Prediction = Prediction(speed: string, days: int, tip: string)

  /** The page: the form and the last prediction, `null` before the first. */
  datatype WeatherPage = WeatherPage(form: WeatherForm, result: Option<Prediction>)

  /** The initial `useState` values. */
  const InitialPage: WeatherPage := WeatherPage(WeatherForm("", 30, 60, 10, 6, "Mixed"), None)

  const FastTip: string := "Dry & sunny. Turn compost regularly to maintain balance."
  const SlowTip: string := "Too wet. Add brown materials like cardboard or leaves."
  const ModerateTip: string := "Conditions are suitable. Monitor moisture regularly."

  /** Hot, dry and sunny. */
  predicate DrySunny(f: WeatherForm) {
    f.temperature > 35 && f.humidity < 40 && f.sunlight > 6
  }

  /** Rainy or humid. */
  predicate TooWet(f: WeatherForm) {
    f.rainfall > 25 || f.humidity > 80
  }

  /**
   * `handlePredict`: Fast in 20 days when hot, dry and sunny; else Slow
   * in 40 days when rainy or humid; else the Moderate default of 30 days.
   * Exactly one of the three outcomes applies.
   */
  function Predict(f: WeatherForm): (p: Prediction)
    ensures p.days == 20 || p.days == 30 || p.days == 40
    ensures p.days == 20 <==> p.speed == "Fast"
    ensures p.days == 40 <==> p.speed == "Slow"
    ensures p.days == 30 <==> p.speed == "Moderate"
    ensures p.speed == "Fast" ==> p.tip == FastTip
    ensures p.speed == "Slow" ==> p.tip == SlowTip
    ensures p.speed == "Moderate" ==> p.tip == ModerateTip
  {
    var p := Prediction("Moderate", 30, ModerateTip);
    if DrySunny(f) then Prediction("Fast", 20, FastTip)
    else if TooWet(f) then Prediction("Slow", 40, SlowTip)
    else p
  }

  /** The outcome chosen for each set of readings; the fast test wins over the wet one. */
  lemma PredictCases(f: WeatherForm)
    ensures Predict(f).speed == "Fast" <==> DrySunny(f)
    ensures Predict(f).speed == "Slow" <==> !DrySunny(f) && TooWet(f)
    ensures Predict(f).speed == "Moderate" <==> !DrySunny(f) && !TooWet(f)
  {
  }

  /** Humidity above 80 always rules the fast outcome out: it needs humidity below 40. */
  lemma HumidIsSlow(f: WeatherForm)
    requires f.humidity > 80
    ensures Predict(f) == Prediction("Slow", 40, SlowTip)
  {
  }

  /** The location and the compost type never change the prediction. */
  lemma LocationAndTypeIgnored(f: WeatherForm, location: string, compostType: string)
    ensures Predict(f.(location := location, compostType := compostType)) == Predict(f)
  {
  }

  /** The default readings predict the moderate outcome. */
  lemma InitialReadingsModerate()
    ensures Predict(InitialPage.form) == Prediction("Moderate", 30, ModerateTip)
  {
  }

  /** `setResult`: the prediction replaces whatever was shown, and the form is kept. */
  function AfterPredict(page: WeatherPage): (next: WeatherPage)
    ensures next.form == page.form && next.result == Some(Predict(page.form))
  {
    page.(result := Some(Predict(page.form)))
  }

  /** Predicting again without changing the form shows the same result. */
  lemma PredictAgainSame(page: WeatherPage)
    ensures AfterPredict(AfterPredict(page)) == AfterPredict(page)
  {
  }
}
