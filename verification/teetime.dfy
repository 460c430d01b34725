/** The latest tee time: the daylight-end instant, less the round's minutes,
    floored to a 10-minute slot. */
module TeeTime {

  import opened Arith
  import opened Clock

  /** The date library's `minus({minutes})`, which moves the instant itself
      (minutes are absolute time, not wall-clock time). */
  function SubtractMinutes(t: int, minutes: int): (r: int)
    ensures r < t <==> minutes > 0
    ensures Utc(r) == Utc(t) <==> minutes == 0
  {
    t - minutes * MsPerMinute
  }

  /** Subtracting in two steps is subtracting the sum, and adding the minutes back
      restores the instant. */
  lemma SubtractMinutesCompose(t: int, a: int, b: int)
    ensures SubtractMinutes(SubtractMinutes(t, a), b) == SubtractMinutes(t, a + b)
    ensures SubtractMinutes(SubtractMinutes(t, a), -a) == t
  {
  }

  /** Where the zone's offset does not change over the interval, the local wall
      clock moves back by exactly the minutes subtracted. */
  lemma SubtractMinutesLocal(t: int, minutes: int, offset: Offset)
    ensures offset(SubtractMinutes(t, minutes)) == offset(t) ==>
              ToMillis(Local(SubtractMinutes(t, minutes), offset))
                == ToMillis(Local(t, offset)) - minutes * MsPerMinute
  {
  }

  /** Floors the zone's local minute field to a multiple of ten and clears the
      seconds and milliseconds, mapping the new wall clock back to an instant with
      the offset in force at `t`. */
  function FloorLocal(t: int, offset: Offset): (r: int)
    ensures r == t - (t + offset(t) * MsPerMinute) % SlotMillis
    ensures r <= t < r + SlotMillis
    ensures var w := FromMillis(r + offset(t) * MsPerMinute);
            var v := Local(t, offset);
            && w.minute % 10 == 0 && w.second == 0 && w.millisecond == 0
            && w.day == v.day && w.hour == v.hour
            && w.minute <= v.minute < w.minute + 10
  {
    var shift := offset(t) * MsPerMinute;
    var f := FloorTo10(Local(t, offset));
    FloorTo10Millis(t + shift);
    FromToMillis(f);
    ToMillis(f) - shift
  }

  /** `roundToNext10Minutes`: despite its name, it floors. It re-reads its
      argument in UTC, so it is the UTC minute field that is floored. */
  function RoundToNext10Minutes(t: int): (r: int)
    ensures r == t - t % SlotMillis
    ensures r <= t < r + SlotMillis
    ensures var w := Utc(r);
            var v := Utc(t);
            && w.minute % 10 == 0 && w.second == 0 && w.millisecond == 0
            && w.day == v.day && w.hour == v.hour
            && w.minute <= v.minute < w.minute + 10
  {
    var f := FloorTo10(Utc(t));
    FloorTo10Millis(t);
    FromToMillis(f);
    ToMillis(f)
  }

  lemma RoundToNext10MinutesIdempotent(t: int)
    ensures RoundToNext10Minutes(RoundToNext10Minutes(t)) == RoundToNext10Minutes(t)
  {
  }

  /** Flooring the local minute field and flooring the UTC minute field give
      the same instant exactly when the zone's offset is a whole number of
      ten-minute slots. */
  lemma FloorLocalAgreesWithUtc(t: int, offset: Offset)
    ensures FloorLocal(t, offset) == RoundToNext10Minutes(t) <==> offset(t) % 10 == 0
  {
    var shift := offset(t) * MsPerMinute;
    var q, k := offset(t) / 10, offset(t) % 10;
    assert shift == q * SlotMillis + k * MsPerMinute;
    var a, b := t / SlotMillis, t % SlotMillis;
    if b + k * MsPerMinute < SlotMillis {
      DivModUnique(t + shift, SlotMillis, a + q, b + k * MsPerMinute);
    } else {
      DivModUnique(t + shift, SlotMillis, a + q + 1, b + k * MsPerMinute - SlotMillis);
    }
  }

  /** The inline floor in `calculateLastTeeTime`: the latest tee time, floored
      on the local minute field. */
  function LastTeeTime(daylightEnd: int, totalMinutes: int, offset: Offset): (r: int)
    ensures r <= daylightEnd - totalMinutes * MsPerMinute < r + SlotMillis
    ensures var raw := SubtractMinutes(daylightEnd, totalMinutes);
            var w := FromMillis(r + offset(raw) * MsPerMinute);
            w.minute % 10 == 0 && w.second == 0 && w.millisecond == 0
  {
    FloorLocal(SubtractMinutes(daylightEnd, totalMinutes), offset)
  }

  /** `roundToNext10Minutes` applied to both daylight ends, as written: the same subtraction, floored by
      `roundToNext10Minutes` on the UTC minute field. */
  function LastTeeTimeAsWritten(daylightEnd: int, totalMinutes: int): (r: int)
    ensures r <= daylightEnd - totalMinutes * MsPerMinute < r + SlotMillis
    ensures Utc(r).minute % 10 == 0 && Utc(r).second == 0 && Utc(r).millisecond == 0
  {
    RoundToNext10Minutes(SubtractMinutes(daylightEnd, totalMinutes))
  }

  /** A zone five hours forty-five minutes east of UTC, as Asia/Kathmandu has been since 1986. */
  function Kathmandu(t: int): int { 345 }

  /** 2024-06-01, day 19875 after the epoch. */
  const June2024: int := 19875 * MsPerDay

  /** Sunset in Kathmandu on 2024-06-01, taken as 13:09 UTC (18:54 local). */
  const KathmanduSunset: int := June2024 + 47340000

  /** With a 171-minute round the raw start is 10:18 UTC, 16:03 local. The
      local floor gives 16:00, on the 10-minute slot grid. */
  lemma CorrectedHitsLocalSlot()
    ensures Local(LastTeeTime(KathmanduSunset, 171, Kathmandu), Kathmandu) == WallClock(19875, 16, 0, 0, 0)
  {
    var raw := SubtractMinutes(KathmanduSunset, 171);
    assert raw == June2024 + 37080000;
    assert Kathmandu(raw) == 345;
    DivModUnique(raw + 345 * MsPerMinute, SlotMillis, 19875 * 144 + 96, 180000);
    var r := LastTeeTime(KathmanduSunset, 171, Kathmandu);
    assert r == June2024 + 36900000;
    assert Kathmandu(r) == 345;
    assert ToMillis(WallClock(19875, 16, 0, 0, 0)) == June2024 + 36900000 + 345 * MsPerMinute;
    FromToMillis(WallClock(19875, 16, 0, 0, 0));
  }

  /** The same round as written: the UTC floor gives 10:10 UTC, which is 15:55
      local, off the 10-minute slot grid. */
  lemma AsWrittenMissesLocalSlot()
    ensures Local(LastTeeTimeAsWritten(KathmanduSunset, 171), Kathmandu) == WallClock(19875, 15, 55, 0, 0)
  {
    var raw := SubtractMinutes(KathmanduSunset, 171);
    assert raw == June2024 + 37080000;
    DivModUnique(raw, SlotMillis, 19875 * 144 + 61, 480000);
    var r := LastTeeTimeAsWritten(KathmanduSunset, 171);
    assert r == June2024 + 36600000;
    assert Kathmandu(r) == 345;
    assert ToMillis(WallClock(19875, 15, 55, 0, 0)) == June2024 + 36600000 + 345 * MsPerMinute;
    FromToMillis(WallClock(19875, 15, 55, 0, 0));
  }

  /** In a zone whose offset is a multiple of ten minutes the two floors coincide. */
  lemma LastTeeTimeMatchesAsWritten(daylightEnd: int, totalMinutes: int, offset: Offset)
    ensures offset(SubtractMinutes(daylightEnd, totalMinutes)) % 10 == 0 ==>
              LastTeeTime(daylightEnd, totalMinutes, offset) == LastTeeTimeAsWritten(daylightEnd, totalMinutes)
  {
    FloorLocalAgreesWithUtc(SubtractMinutes(daylightEnd, totalMinutes), offset);
  }
}
