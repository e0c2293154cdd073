/**
 * The maturity rule of the compost outcome simulator
 * (src/pages/pred/CompostSimulator.tsx): on confirm, maturity becomes
 * five points per kilogram of daily food waste, ten less in rainy
 * weather, capped at 100.  The waste slider holds whole kilograms.
 */
module CompostSimulator {

  /** The maturity before any confirm. */
  const InitialMaturity: int := 65

  /** `Math.min(100, waste * 5 + (weather === 'Rainy' ? -10 : 0))` */
  function Maturity(waste: int, weather: string): (m: int)
    ensures m <= 100
    ensures m == 100 || m == waste * 5 - (if weather == "Rainy" then 10 else 0)
  {
    var raw := waste * 5 + (if weather == "Rainy" then -10 else 0);
    if raw < 100 then raw else 100
  }

  /** The cap is reached from 20 kg a day in dry weather, 22 kg when rainy. */
  lemma CapReached(waste: int, weather: string)
    ensures Maturity(waste, weather) == 100 <==> (if weather == "Rainy" then waste >= 22 else waste >= 20)
  {
  }

  /** There is no lower clamp: no waste on a rainy day gives -10. */
  lemma NoLowerClamp()
    ensures Maturity(0, "Rainy") == -10
  {
  }

  /** Only "Rainy" changes the result; every other weather behaves like "Dry". */
  lemma OnlyRainMatters(waste: int, weather: string)
    requires weather != "Rainy"
    ensures Maturity(waste, weather) == Maturity(waste, "Dry")
  {
  }

  /** More waste never lowers maturity, and rain never raises it. */
  lemma MaturityMonotone(w1: int, w2: int, weather: string)
    requires w1 <= w2
    ensures Maturity(w1, weather) <= Maturity(w2, weather)
    ensures Maturity(w1, "Rainy") <= Maturity(w1, weather)
  {
  }
}
