/**
 * The statistics store of the graphical race (Phase-2/Statistics.java): an
 * append-only list of race records per horse, the fastest time seen for
 * each track and weather, and the averages, ratios and trends read back
 * from a horse's records.
 */
module RaceStatistics {
  import opened Common
  import opened HorseCustomisation

  /** What is recorded about one horse in one race. Each record is created
      for a single horse's list and only the final confidence is ever
      changed afterwards, so a value with that one field replaced stands for
      the updated record. */
  datatype RaceStats = RaceStats(
    trackName: string,
    weatherCondition: string,
    finishingTime: real,
    averageSpeed: real,
    initialConfidence: real,
    finalConfidence: real,
    isWinner: bool)

  /** The key the record tables use for a track in a weather. */
  function TrackKey(trackName: string, weatherCondition: string): string
  {
    trackName + "_" + weatherCondition
  }

  // ---------------------------------------------------------------------
  // Fastest times

  /** A record table after a new time for key: the key gets the smaller of
      its old record and the new time (the new time when the key is new),
      and every other key keeps its record. */
  function Improve(records: map<string, real>, key: string, time: real): (r: map<string, real>)
    ensures r.Keys == records.Keys + {key}
    ensures r[key] <= time && (key in records ==> r[key] <= records[key])
    ensures r[key] == time || (key in records && r[key] == records[key])
    ensures forall k :: k in records && k != key ==> r[k] == records[k]
  {
    if key !in records || time < records[key] then records[key := time] else records
  }

  /** Every time ever offered for a key, once one more has been offered. */
  function Offer(seen: map<string, set<real>>, key: string, time: real): map<string, set<real>>
  {
    seen[key := (if key in seen then seen[key] else {}) + {time}]
  }

  /** The table holds, for exactly the keys offered so far, the smallest
      time offered for that key. */
  ghost predicate RecordsAreMinima(records: map<string, real>, seen: map<string, set<real>>)
  {
    records.Keys == seen.Keys
    && (forall k :: k in records ==> records[k] in seen[k])
    && (forall k, t :: k in seen && t in seen[k] ==> records[k] <= t)
  }

  /** Offering a time keeps every record the minimum of its times. */
  lemma ImproveKeepsMinima(records: map<string, real>, seen: map<string, set<real>>, key: string, time: real)
    requires RecordsAreMinima(records, seen)
    ensures RecordsAreMinima(Improve(records, key, time), Offer(seen, key, time))
  {
    var r, s := Improve(records, key, time), Offer(seen, key, time);
    forall k, t | k in s && t in s[k]
      ensures r[k] <= t
    {
      if k == key && t != time {
        assert t in seen[key];
      }
    }
  }

  // ---------------------------------------------------------------------
  // Aggregates over a horse's records, each folded from the oldest record
  // to the newest

  function SumSpeeds(s: seq<RaceStats>): real
  {
    if s == [] then 0.0 else SumSpeeds(s[..|s| - 1]) + s[|s| - 1].averageSpeed
  }

  function CountWins(s: seq<RaceStats>): (r: nat)
    ensures r <= |s|
  {
    if s == [] then 0 else CountWins(s[..|s| - 1]) + (if s[|s| - 1].isWinner then 1 else 0)
  }

  /** The sum of the changes in final confidence between consecutive records. */
  function Changes(s: seq<RaceStats>): real
  {
    if |s| < 2 then 0.0
    else Changes(s[..|s| - 1]) + (s[|s| - 1].finalConfidence - s[|s| - 2].finalConfidence)
  }

  /** The mean recorded speed, 0 for no records. */
  function MeanSpeed(s: seq<RaceStats>): real
  {
    if s == [] then 0.0 else SumSpeeds(s) / |s| as real
  }

  /** The fraction of records that are wins, 0 for no records. */
  function WinFraction(s: seq<RaceStats>): real
  {
    if s == [] then 0.0 else CountWins(s) as real / |s| as real
  }

  /** The mean change in final confidence per race, 0 for fewer than two
      records. */
  function Trend(s: seq<RaceStats>): real
  {
    if |s| < 2 then 0.0 else Changes(s) / (|s| - 1) as real
  }

  lemma {:induction false} SumSpeedsWithin(s: seq<RaceStats>, lo: real, hi: real)
    requires forall i :: 0 <= i < |s| ==> lo <= s[i].averageSpeed <= hi
    ensures lo * |s| as real <= SumSpeeds(s) <= hi * |s| as real
  {
    if s != [] {
      var n := |s| - 1;
      SumSpeedsWithin(s[..n], lo, hi);
      assert lo * (n + 1) as real == lo * n as real + lo;
      assert hi * (n + 1) as real == hi * n as real + hi;
    }
  }

  /** The mean lies between the slowest and the fastest recorded speed. */
  lemma MeanSpeedWithin(s: seq<RaceStats>, lo: real, hi: real)
    requires s != []
    requires forall i :: 0 <= i < |s| ==> lo <= s[i].averageSpeed <= hi
    ensures lo <= MeanSpeed(s) <= hi
  {
    SumSpeedsWithin(s, lo, hi);
    var n := |s| as real;
    var m := SumSpeeds(s) / n;
    assert m * n == SumSpeeds(s);
    if m < lo {
      assert m * n < lo * n;
    }
    if m > hi {
      assert m * n > hi * n;
    }
  }

  /** Every record is a win exactly when the count is the number of
      records, and none is exactly when the count is zero. */
  lemma {:induction false} CountWinsExtremes(s: seq<RaceStats>)
    ensures CountWins(s) == |s| <==> forall i :: 0 <= i < |s| ==> s[i].isWinner
    ensures CountWins(s) == 0 <==> forall i :: 0 <= i < |s| ==> !s[i].isWinner
  {
    if s != [] {
      var n := |s| - 1;
      CountWinsExtremes(s[..n]);
      assert forall i :: 0 <= i < n ==> s[..n][i] == s[i];
    }
  }

  /** The win ratio is a fraction: 1 exactly when every record is a win and
      0 exactly when none is (or there are no records). */
  lemma WinFractionInUnit(s: seq<RaceStats>)
    ensures 0.0 <= WinFraction(s) <= 1.0
    ensures s != [] ==> (WinFraction(s) == 1.0 <==> forall i :: 0 <= i < |s| ==> s[i].isWinner)
    ensures WinFraction(s) == 0.0 <==> forall i :: 0 <= i < |s| ==> !s[i].isWinner
  {
    CountWinsExtremes(s);
    if s != [] {
      FractionInUnit(CountWins(s) as real, |s| as real);
    }
  }

  /** A part over a positive whole lies in [0, 1], is 1 only for the whole
      and 0 only for nothing. */
  lemma FractionInUnit(part: real, whole: real)
    requires 0.0 <= part <= whole && whole > 0.0
    ensures 0.0 <= part / whole <= 1.0
    ensures part / whole == 1.0 <==> part == whole
    ensures part / whole == 0.0 <==> part == 0.0
  {
    QuotientBounds(part, whole, 0.0, 1.0);
    var f := part / whole;
    assert f * whole == part;
    assert (f - 1.0) * whole == part - whole;
  }

  /** The consecutive changes telescope to the last final confidence minus
      the first. */
  lemma {:induction false} ChangesTelescope(s: seq<RaceStats>)
    requires s != []
    ensures Changes(s) == s[|s| - 1].finalConfidence - s[0].finalConfidence
  {
    if |s| >= 2 {
      ChangesTelescope(s[..|s| - 1]);
    }
  }

  /** The trend is the overall change in final confidence spread evenly over
      the gaps between races. */
  lemma TrendIsOverallChange(s: seq<RaceStats>)
    requires |s| >= 2
    ensures Trend(s) * (|s| - 1) as real == s[|s| - 1].finalConfidence - s[0].finalConfidence
  {
    ChangesTelescope(s);
  }

  /** Adjusting only the newest record's final confidence by d shifts the
      total change by exactly d. */
  lemma ChangesShiftLast(s: seq<RaceStats>, d: real)
    requires |s| >= 2
    ensures Changes(s[|s| - 1 := s[|s| - 1].(finalConfidence := s[|s| - 1].finalConfidence + d)]) == Changes(s) + d
  {
    var t := s[|s| - 1 := s[|s| - 1].(finalConfidence := s[|s| - 1].finalConfidence + d)];
    ChangesTelescope(s);
    ChangesTelescope(t);
  }

  /** A horse's records after a settlement in which it won and the given
      amount was paid out: the newest record's final confidence moves by
      0.1, up when something was paid out and down otherwise, unclamped; a
      horse without records keeps none. */
  function BetShifted(h: seq<RaceStats>, payout: real): (r: seq<RaceStats>)
    ensures |r| == |h|
    ensures h != [] ==>
      r[..|h| - 1] == h[..|h| - 1]
      && r[|h| - 1] == h[|h| - 1].(finalConfidence := r[|h| - 1].finalConfidence)
      && r[|h| - 1].finalConfidence == h[|h| - 1].finalConfidence + (if payout > 0.0 then 0.1 else -0.1)
  {
    if h == [] then h
    else h[|h| - 1 := h[|h| - 1].(finalConfidence := h[|h| - 1].finalConfidence + (if payout > 0.0 then 0.1 else -0.1))]
  }

  /** The records after a settlement in which the horse won and the given
      amount was paid out: the horse's newest record has its final
      confidence raised by 0.1 when something was paid out and lowered by
      0.1 otherwise, unclamped; every other record, and every record of a
      horse without records, stays as it was. */
  function AfterBettingStats(horseStats: map<HorseGUI, seq<RaceStats>>, horse: HorseGUI, payout: real): (r: map<HorseGUI, seq<RaceStats>>)
    ensures r.Keys == horseStats.Keys
    ensures forall other :: other in horseStats && other != horse ==> r[other] == horseStats[other]
    ensures horse in horseStats ==> |r[horse]| == |horseStats[horse]|
    ensures horse in horseStats && horseStats[horse] != [] ==>
      var h, g := horseStats[horse], r[horse];
      g[..|h| - 1] == h[..|h| - 1]
      && g[|h| - 1] == h[|h| - 1].(finalConfidence := g[|h| - 1].finalConfidence)
      && g[|h| - 1].finalConfidence == h[|h| - 1].finalConfidence + (if payout > 0.0 then 0.1 else -0.1)
  {
    if horse in horseStats then horseStats[horse := BetShifted(horseStats[horse], payout)] else horseStats
  }

  // ---------------------------------------------------------------------
  // The store

  class Statistics {
    var horseStats: map<HorseGUI, seq<RaceStats>>
    var trackRecords: map<string, real>
    /** Every finishing time recorded so far, per track key. */
    ghost var seenTimes: map<string, set<real>>

    ghost predicate Valid()
      reads this`trackRecords, this`seenTimes
    {
      RecordsAreMinima(trackRecords, seenTimes)
    }

    constructor ()
      ensures Valid()
      ensures horseStats == map[] && trackRecords == map[]
    {
      horseStats := map[];
      trackRecords := map[];
      seenTimes := map[];
    }

    /** A horse's records, oldest first; none for a horse never recorded. */
    function RaceHistory(horse: HorseGUI): seq<RaceStats>
      reads this`horseStats
    {
      if horse in horseStats then horseStats[horse] else []
    }

    /** Appends the record to the horse's list and offers its finishing
        time to the record for its track and weather. */
    method RecordRace(horse: HorseGUI, stats: RaceStats)
      requires Valid()
      modifies this`horseStats, this`trackRecords, this`seenTimes
      ensures Valid()
      ensures horseStats == old(horseStats)[horse := old(RaceHistory(horse)) + [stats]]
      ensures trackRecords == Improve(old(trackRecords), TrackKey(stats.trackName, stats.weatherCondition), stats.finishingTime)
      ensures seenTimes == Offer(old(seenTimes), TrackKey(stats.trackName, stats.weatherCondition), stats.finishingTime)
    {
      // the horse's list, created empty when absent, gets the record
      var history := if horse in horseStats then horseStats[horse] else [];
      horseStats := horseStats[horse := history + [stats]];

      var trackKey := TrackKey(stats.trackName, stats.weatherCondition);
      var currentTime := stats.finishingTime;
      ImproveKeepsMinima(trackRecords, seenTimes, trackKey, currentTime);
      if trackKey !in trackRecords || currentTime < trackRecords[trackKey] {
        trackRecords := trackRecords[trackKey := currentTime];
      }
      seenTimes := Offer(seenTimes, trackKey, currentTime);
    }

    method AverageSpeed(horse: HorseGUI) returns (r: real)
      ensures r == MeanSpeed(RaceHistory(horse))
    {
      if horse !in horseStats || horseStats[horse] == [] {
        return 0.0;
      }
      var stats := horseStats[horse];
      var totalSpeed := 0.0;
      var i := 0;
      while i < |stats|
        invariant 0 <= i <= |stats|
        invariant totalSpeed == SumSpeeds(stats[..i])
      {
        assert stats[..i + 1][..i] == stats[..i];
        totalSpeed := totalSpeed + stats[i].averageSpeed;
        i := i + 1;
      }
      assert stats[..i] == stats;
      return totalSpeed / |stats| as real;
    }

    method WinRatio(horse: HorseGUI) returns (r: real)
      ensures r == WinFraction(RaceHistory(horse))
    {
      if horse !in horseStats || horseStats[horse] == [] {
        return 0.0;
      }
      var stats := horseStats[horse];
      var wins := 0;
      var i := 0;
      while i < |stats|
        invariant 0 <= i <= |stats|
        invariant wins == CountWins(stats[..i])
      {
        assert stats[..i + 1][..i] == stats[..i];
        if stats[i].isWinner {
          wins := wins + 1;
        }
        i := i + 1;
      }
      assert stats[..i] == stats;
      return wins as real / |stats| as real;
    }

    /** The fastest time recorded for a track and weather, 0 when none is;
        never slower than any time recorded for that key. */
    function TrackRecord(trackName: string, weatherCondition: string): (r: real)
      reads this`trackRecords, this`seenTimes
      ensures TrackKey(trackName, weatherCondition) !in trackRecords ==> r == 0.0
      ensures Valid() && TrackKey(trackName, weatherCondition) in seenTimes ==>
        r in seenTimes[TrackKey(trackName, weatherCondition)]
        && forall t :: t in seenTimes[TrackKey(trackName, weatherCondition)] ==> r <= t
    {
      var key := TrackKey(trackName, weatherCondition);
      if key in trackRecords then trackRecords[key] else 0.0
    }

    method ConfidenceTrend(horse: HorseGUI) returns (r: real)
      ensures r == Trend(RaceHistory(horse))
    {
      if horse !in horseStats || |horseStats[horse]| < 2 {
        return 0.0;
      }
      var stats := horseStats[horse];
      var totalChange := 0.0;
      var i := 1;
      while i < |stats|
        invariant 1 <= i <= |stats|
        invariant totalChange == Changes(stats[..i])
      {
        assert stats[..i + 1][..i] == stats[..i];
        totalChange := totalChange + (stats[i].finalConfidence - stats[i - 1].finalConfidence);
        i := i + 1;
      }
      assert stats[..i] == stats;
      return totalChange / (|stats| - 1) as real;
    }

    /** After a settlement: see AfterBettingStats. */
    method RecordBettingStats(winningHorse: HorseGUI, totalBets: real, payout: real)
      modifies this`horseStats
      ensures horseStats == AfterBettingStats(old(horseStats), winningHorse, payout)
    {
      if winningHorse in horseStats && horseStats[winningHorse] != [] {
        var stats := horseStats[winningHorse];
        var lastRace := stats[|stats| - 1];
        var confidenceChange := if payout > 0.0 then 0.1 else -0.1;
        horseStats := horseStats[winningHorse := stats[|stats| - 1 := lastRace.(finalConfidence := lastRace.finalConfidence + confidenceChange)]];
      }
    }
  }
}
