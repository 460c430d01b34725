/** Round-duration estimate: the play-time table, the slow-play add-on and
    the minutes-per-hole figure shown beside it. */
module PlayTime {

  import opened Arith

  predicate ValidHoles(holes: int) { holes == 9 || holes == 18 }

  predicate ValidFlight(flightSize: int) { 1 <= flightSize <= 4 }

  /** Minutes a full flight of four needs: 135 for nine holes, 255 otherwise. */
  function BaseTime(holes: int): int {
    if holes == 9 then 135 else 255
  }

  /** Minutes a flight smaller than four saves on each hole; a full flight saves none. */
  function SavingPerHole(flightSize: int): int
    requires ValidFlight(flightSize)
  {
    if flightSize < 4 then
      match flightSize
      case 1 => 3
      case 2 => 2
      case 3 => 1
    else 0
  }

  /** Estimated minutes for the round before any slow-play add-on. Each player
      missing from a full flight saves one minute per hole. */
  function CalculatePlayTime(holes: int, flightSize: int): (minutes: int)
    requires ValidHoles(holes) && ValidFlight(flightSize)
    ensures minutes == BaseTime(holes) - (4 - flightSize) * holes
    ensures 0 < minutes <= BaseTime(holes)
    ensures minutes == BaseTime(holes) <==> flightSize == 4
  {
    BaseTime(holes) - SavingPerHole(flightSize) * holes
  }

  /** The whole table of estimates. */
  lemma PlayTimeTable()
    ensures CalculatePlayTime(18, 1) == 201 && CalculatePlayTime(18, 2) == 219
    ensures CalculatePlayTime(18, 3) == 237 && CalculatePlayTime(18, 4) == 255
    ensures CalculatePlayTime(9, 1) == 108 && CalculatePlayTime(9, 2) == 117
    ensures CalculatePlayTime(9, 3) == 126 && CalculatePlayTime(9, 4) == 135
  {
  }

  /** A larger flight never plays faster; a strictly larger one plays strictly slower. */
  lemma PlayTimeMonotone(holes: int, smaller: int, larger: int)
    requires ValidHoles(holes) && ValidFlight(smaller) && ValidFlight(larger)
    ensures smaller <= larger ==> CalculatePlayTime(holes, smaller) <= CalculatePlayTime(holes, larger)
    ensures smaller < larger ==> CalculatePlayTime(holes, smaller) < CalculatePlayTime(holes, larger)
  {
  }

  /** Minutes for the round once the slow-play factor (minutes per hole, may be
      negative for a fast flight) is added. The source only adds a nonzero factor. */
  function TotalPlayTime(holes: int, flightSize: int, slowFactor: int): (total: int)
    requires ValidHoles(holes) && ValidFlight(flightSize)
    ensures total == CalculatePlayTime(holes, flightSize) + slowFactor * holes
    ensures slowFactor == 0 <==> total == CalculatePlayTime(holes, flightSize)
    ensures slowFactor < 0 <==> total < CalculatePlayTime(holes, flightSize)
  {
    var minutes := CalculatePlayTime(holes, flightSize);
    if slowFactor != 0 then minutes + slowFactor * holes else minutes
  }

  /** A larger slow-play factor always lengthens the round, by exactly one hole count per step. */
  lemma TotalPlayTimeStrictlyIncreasing(holes: int, flightSize: int, f: int, g: int)
    requires ValidHoles(holes) && ValidFlight(flightSize)
    requires f < g
    ensures TotalPlayTime(holes, flightSize, g) - TotalPlayTime(holes, flightSize, f) == (g - f) * holes
    ensures TotalPlayTime(holes, flightSize, f) < TotalPlayTime(holes, flightSize, g)
  {
  }

  /** `Math.round(total / holes)`: the nearest integer, halves rounded up. */
  function MinutesPerHole(total: int, holes: int): (perHole: int)
    requires holes > 0
    ensures 2 * holes * perHole - holes <= 2 * total < 2 * holes * perHole + holes
  {
    var n := 2 * total + holes;
    var d := 2 * holes;
    assert n == (n / d) * d + n % d;
    assert 2 * holes * (n / d) == (n / d) * d;
    n / d
  }

  /** There is only one integer within half a minute of the average, so the
      rounding above is determined by its contract. */
  lemma MinutesPerHoleUnique(total: int, holes: int, m: int)
    requires holes > 0
    requires 2 * holes * m - holes <= 2 * total < 2 * holes * m + holes
    ensures m == MinutesPerHole(total, holes)
  {
    DivModUnique(2 * total + holes, 2 * holes, m, 2 * total + holes - 2 * holes * m);
  }

  /** When the round divides evenly, the per-hole figure is the exact quotient. */
  lemma MinutesPerHoleExact(q: int, holes: int)
    requires holes > 0
    ensures MinutesPerHole(q * holes, holes) == q
  {
    assert 2 * holes * q == 2 * (q * holes);
    MinutesPerHoleUnique(q * holes, holes, q);
  }
}
