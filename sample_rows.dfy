/** Which rows of the generated list open a new date section. */
module SampleRows {
  import opened ChatModel
  import opened SampleData
  import opened RowPresenter

  /** No calendar day lasts longer than 24 hours: two times a full day apart
      fall on different days. */
  ghost predicate DaysAtMostOneDayLong(day: int -> int) {
    forall t, u :: t + OneDay <= u ==> day(t) < day(u)
  }

  /** Whatever the time zone, as long as no day lasts longer than 24 hours,
      the first message of every round and its fifth and sixth messages each
      show a date separator: a day or more has passed since the message above. */
  lemma SampleNewDayRows(seed: int, r: nat, day: int -> int)
    requires DaysAtMostOneDayLong(day)
    requires r < Rounds
    ensures |SampleMessages(seed)| == 56
    ensures !SeparatorHidden(SampleMessages(seed), 7 * r, day)
    ensures !SeparatorHidden(SampleMessages(seed), 7 * r + 4, day)
    ensures !SeparatorHidden(SampleMessages(seed), 7 * r + 5, day)
  {
    SampleTime(seed, r, 3);
    SampleTime(seed, r, 4);
    SampleTime(seed, r, 5);
    if r > 0 {
      SampleTime(seed, r, 0);
      SampleTime(seed, r - 1, 6);
      assert 7 * (r - 1) + 6 == 7 * r - 1;
      assert (r - 1) * RoundAdvance + RoundAdvance == r * RoundAdvance;
    }
  }

  /** The seed the demo parses, 2020-01-03T10:44:00Z, in seconds since
      1970-01-01T00:00:00Z. */
  const DemoSeed: int := 1578048240

  /** The calendar day of a time, in seconds since 1970-01-01T00:00:00Z, for a
      viewer in UTC. */
  function UtcDay(t: int): int {
    t / 86400
  }

  /** The UTC day of message `k` of round `r` of the demo list: round `r`
      starts on day 18264 + 3r (2020-01-03 for r = 0) at 10:44 plus 104
      minutes per round, so only the last round's closing messages pass
      midnight early. */
  function DemoDayNumber(r: nat, k: nat): int {
    18264 + 3 * r + (if k < 4 then 0 else if k == 4 then 1 else if r < 7 then 2 else 3)
  }

  lemma DemoTimeDay(r: nat, k: nat)
    requires r < Rounds && k < 7
    ensures UtcDay(DemoSeed + r * RoundAdvance + RoundOffsets[k]) == DemoDayNumber(r, k)
  {
    var t := DemoSeed + r * RoundAdvance + RoundOffsets[k];
    assert t == 1578048240 + 265440 * r + RoundOffsets[k];
    UtcDayBetween(t, DemoDayNumber(r, k));
  }

  lemma UtcDayBetween(t: int, q: int)
    requires 86400 * q <= t < 86400 * q + 86400
    ensures UtcDay(t) == q
  {
  }

  /** The UTC day of message `k` of round `r` of the demo list. */
  lemma DemoMessageDay(seed: int, r: nat, k: nat)
    requires seed == DemoSeed
    requires r < Rounds && k < 7
    ensures |SampleMessages(seed)| == 56
    ensures UtcDay(SampleMessages(seed)[7 * r + k].postedDate) == DemoDayNumber(r, k)
  {
    SampleTime(seed, r, k);
    DemoTimeDay(r, k);
  }

  /** The scenario of the demo as a viewer in UTC sees it: rows 7r, 7r + 4 and
      7r + 5 show a date separator and every other row hides it. */
  lemma DemoSeparatorsInUtc(seed: int, row: nat)
    requires seed == DemoSeed
    requires row < 56
    ensures |SampleMessages(seed)| == 56
    ensures SeparatorHidden(SampleMessages(seed), row, UtcDay) <==> row % 7 in {1, 2, 3, 6}
  {
    var m := SampleMessages(seed);
    var r, k := row / 7, row % 7;
    assert row == 7 * r + k;
    DemoMessageDay(seed, r, k);
    if row > 0 {
      var r', k' := if k > 0 then r else r - 1, if k > 0 then k - 1 else 6;
      assert row - 1 == 7 * r' + k';
      DemoMessageDay(seed, r', k');
      assert SeparatorHidden(m, row, UtcDay) <==> DemoDayNumber(r, k) == DemoDayNumber(r', k');
    }
  }
}
