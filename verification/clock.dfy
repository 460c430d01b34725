/** Instants and wall-clock time.

    An instant is a whole number of milliseconds since the Unix epoch (UTC),
    the resolution of the date library the application uses. A timezone is
    an offset function giving, for each instant, the zone's distance from UTC
    in minutes; a wall-clock reading is the day/hour/minute/second/millisecond
    decomposition of an instant shifted by that offset. */
module Clock {

  import opened Arith

  const MsPerSecond: int := 1000
  const MsPerMinute: int := 60 * MsPerSecond
  const MsPerHour: int := 60 * MsPerMinute
  const MsPerDay: int := 24 * MsPerHour

  /** Minutes east of UTC in force at an instant (the resolved IANA zone). */
  type Offset = int -> int

  /** A wall-clock reading; `day` counts days since 1970-01-01 on the same clock. */
  datatype WallClock = WallClock(day: int, hour: int, minute: int, second: int, millisecond: int)

  predicate Valid(w: WallClock) {
    && 0 <= w.hour < 24
    && 0 <= w.minute < 60
    && 0 <= w.second < 60
    && 0 <= w.millisecond < 1000
  }

  /** The milliseconds a reading denotes on its own clock. */
  function ToMillis(w: WallClock): int {
    w.day * MsPerDay + w.hour * MsPerHour + w.minute * MsPerMinute
      + w.second * MsPerSecond + w.millisecond
  }

  /** Splits a millisecond count into its fields (floor division, so instants
      before the epoch fall on the previous day, as in the date library). */
  function FromMillis(t: int): (w: WallClock)
    ensures Valid(w)
    ensures ToMillis(w) == t
  {
    var inDay := t % MsPerDay;
    var inHour := inDay % MsPerHour;
    var inMinute := inHour % MsPerMinute;
    WallClock(t / MsPerDay, inDay / MsPerHour, inHour / MsPerMinute,
              inMinute / MsPerSecond, inMinute % MsPerSecond)
  }

  /** Fields are unique: a valid reading is recovered from the milliseconds it denotes. */
  lemma FromToMillis(w: WallClock)
    requires Valid(w)
    ensures FromMillis(ToMillis(w)) == w
  {
    var t := ToMillis(w);
    var inDay := w.hour * MsPerHour + w.minute * MsPerMinute + w.second * MsPerSecond + w.millisecond;
    var inHour := w.minute * MsPerMinute + w.second * MsPerSecond + w.millisecond;
    var inMinute := w.second * MsPerSecond + w.millisecond;
    DivModUnique(t, MsPerDay, w.day, inDay);
    DivModUnique(inDay, MsPerHour, w.hour, inHour);
    DivModUnique(inHour, MsPerMinute, w.minute, inMinute);
    DivModUnique(inMinute, MsPerSecond, w.second, w.millisecond);
  }

  /** The wall clock of a zone at an instant. */
  function Local(t: int, offset: Offset): WallClock {
    FromMillis(t + offset(t) * MsPerMinute)
  }

  /** The wall clock in UTC (the zero offset). */
  function Utc(t: int): WallClock {
    FromMillis(t)
  }

  /** The date library's `set({minute: floor(minute / 10) * 10, second: 0, millisecond: 0})`. */
  function FloorTo10(w: WallClock): (f: WallClock)
    requires Valid(w)
    ensures Valid(f)
    ensures f.minute % 10 == 0 && f.minute <= w.minute < f.minute + 10
    ensures f.second == 0 && f.millisecond == 0
    ensures f.day == w.day && f.hour == w.hour
  {
    w.(minute := w.minute / 10 * 10, second := 0, millisecond := 0)
  }

  lemma FloorTo10Idempotent(w: WallClock)
    requires Valid(w)
    ensures FloorTo10(FloorTo10(w)) == FloorTo10(w)
  {
  }

  /** Length of a tee slot. */
  const SlotMillis: int := 10 * MsPerMinute

  /** Flooring the minute field is flooring the milliseconds to a slot boundary. */
  lemma FloorTo10Millis(t: int)
    ensures ToMillis(FloorTo10(FromMillis(t))) == t - t % SlotMillis
  {
    var w := FromMillis(t);
    var f := FloorTo10(w);
    var inSlot := (w.minute % 10) * MsPerMinute + w.second * MsPerSecond + w.millisecond;
    assert 0 <= inSlot < SlotMillis;
    assert t == ToMillis(f) + inSlot;
    assert ToMillis(f) == (w.day * 144 + w.hour * 6 + w.minute / 10) * SlotMillis;
    DivModUnique(t, SlotMillis, w.day * 144 + w.hour * 6 + w.minute / 10, inSlot);
  }
}
