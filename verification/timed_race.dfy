/**
 * The timer-driven race of the graphical simulator (Part-2/Race.java): a
 * lane map of customisable horses on a track with shape and weather, a
 * running/paused state machine driven by start, stop and reset, one tick per
 * timer event, the end-of-race bookkeeping (horse records, statistics, best
 * times, settlement of the bets) and the history of settled bets.
 *
 * Math.random() is replaced by draws the caller supplies: per tick, a
 * function from lane to the move draw and the fall draw of the horse in that
 * lane; per new horse in a lane-count change, the draws that pick its
 * attributes. System.nanoTime() is replaced by the time the caller passes to
 * startRace and to each tick, and String.format by a rendering function the
 * caller passes for finishing times.
 */
module TimedRace {
  import opened Common
  import opened HorseCustomisation
  import opened RaceTrack
  import opened RaceStatistics
  import opened Betting

  // ---------------------------------------------------------------------
  // One tick of one horse

  /** Below this draw a standing horse moves: its effective confidence,
      scaled by 0.95, the weather's confidence factor and the shape's speed
      factor. */
  function MoveChance(confidence: real, weatherConfidence: real, shapeModifier: real): real
  {
    confidence * 0.95 * weatherConfidence * shapeModifier
  }

  /** Below this draw a standing horse falls: a hundredth of how far its
      confidence is below 1.3, scaled by the weather's fall factor. */
  function FallChance(confidence: real, weatherFall: real): real
  {
    0.01 * (1.3 - confidence) * weatherFall
  }

  /** For a valid horse on a valid track the fall chance is positive and at
      most 1.95%, and the move chance at most 1.1495: a horse of confidence
      above about 0.87 in clear weather on an oval always moves. */
  lemma ChancesInRange(confidence: real, weatherConfidence: real, shapeModifier: real, weatherFall: real)
    requires 0.0 <= confidence <= 1.21
    requires 0.8 <= weatherConfidence <= 1.0 && 0.8 <= shapeModifier <= 1.0 && 1.0 <= weatherFall <= 1.5
    ensures 0.0 <= MoveChance(confidence, weatherConfidence, shapeModifier) <= 1.1495
    ensures 0.0009 <= FallChance(confidence, weatherFall) <= 0.0195
    ensures MoveChance(1.21, 1.0, 1.0) > 1.0
  {
    var a := confidence * 0.95;
    assert 0.0 <= a <= 1.1495;
    MulWithin(weatherConfidence, a, 1.1495);
    var b := weatherConfidence * a;
    MulWithin(shapeModifier, b, 1.1495);
    assert MoveChance(confidence, weatherConfidence, shapeModifier) == shapeModifier * b;
    var f := 0.01 * (1.3 - confidence);
    assert 0.0009 <= f <= 0.013;
    assert FallChance(confidence, weatherFall) == f * weatherFall;
    MulMonotone(f, 1.0, weatherFall);
    MulMonotone(f, weatherFall, 1.5);
    assert f * 1.0 <= f * weatherFall <= f * 1.5;
  }

  lemma MulMonotone(x: real, y: real, z: real)
    requires x >= 0.0 && y <= z
    ensures x * y <= x * z
  {
    assert x * z - x * y == x * (z - y);
    MulNonNegative(x, z - y);
  }

  /** What one tick does to a horse's place: a fallen horse stays where it
      is; a standing one covers its steps per move on the move draw and,
      independently, falls on the fall draw. */
  function Step(p: Position, steps: nat, moveChance: real, fallChance: real, d: Draw): (r: Position)
    ensures p.fallen ==> r == p
    ensures p.distance <= r.distance <= p.distance + steps
    ensures !p.fallen && steps > 0 ==> (r.distance > p.distance <==> d.move < moveChance)
    ensures !p.fallen ==> (r.fallen <==> d.fall < fallChance)
  {
    if p.fallen then p
    else Position(if d.move < moveChance then p.distance + steps else p.distance, d.fall < fallChance)
  }

  // ---------------------------------------------------------------------
  // Finishing times

  /** A positive number of nanoseconds in seconds. */
  function Seconds(nanos: int): (r: real)
    requires nanos > 0
    ensures r > 0.0
    ensures r * 1000000000.0 == nanos as real
  {
    nanos as real / 1000000000.0
  }

  /** Whether the source can give the horse a finite time: every horse can
      except one still standing at distance 0 before the finish, whose time
      would be a division by zero. */
  predicate HasTime(raceLength: int, distance: nat, fallen: bool)
  {
    fallen || distance >= raceLength || distance > 0
  }

  /** A horse's time for the race: the race time for a fallen or finished
      horse; for one still standing short of the finish, the race time
      stretched to the whole length at the pace it kept, which is longer. */
  function HorseTime(raceTime: real, raceLength: int, distance: nat, fallen: bool): (r: real)
    requires raceTime > 0.0 && HasTime(raceLength, distance, fallen)
    ensures r >= raceTime
    ensures fallen || distance >= raceLength ==> r == raceTime
    ensures !fallen && distance < raceLength ==>
      r > raceTime && r * (distance as real) == raceTime * (raceLength as real)
  {
    if fallen then raceTime
    else if distance < raceLength then
      var ratio := distance as real / raceLength as real;
      assert 0.0 < ratio < 1.0;
      var t := raceTime / ratio;
      assert t * ratio == raceTime;
      assert t > raceTime;
      assert t * (distance as real) == raceTime * (raceLength as real) by {
        assert ratio * (raceLength as real) == distance as real;
        calc {
          t * (distance as real);
          t * (ratio * (raceLength as real));
          (t * ratio) * (raceLength as real);
          raceTime * (raceLength as real);
        }
      }
      t
    else raceTime
  }

  /** The speed recorded for a horse is the race length over its time: for
      one that did not finish, exactly the distance it covered over the race
      time. */
  lemma RecordedSpeedOfUnfinishedHorse(raceTime: real, raceLength: int, distance: nat)
    requires raceTime > 0.0 && 0 < distance < raceLength
    ensures (raceLength as real) / HorseTime(raceTime, raceLength, distance, false) == (distance as real) / raceTime
  {
    var t := HorseTime(raceTime, raceLength, distance, false);
    var s := (raceLength as real) / t;
    assert s * t == raceLength as real;
    assert s * t * (distance as real) == (raceLength as real) * (distance as real);
    assert s * raceTime * (raceLength as real) == (distance as real) * (raceLength as real) by {
      calc {
        s * raceTime * (raceLength as real);
        s * (raceTime * (raceLength as real));
        s * (t * (distance as real));
        (s * t) * (distance as real);
      }
    }
    assert s * raceTime == distance as real by {
      var L := raceLength as real;
      assert (s * raceTime - distance as real) * L == 0.0;
    }
  }

  /** The text appended to a horse's history: the shape, the rendered time
      and, for a fallen horse, a note that it fell. */
  function ResultText(shape: string, time: string, fell: bool): (r: string)
    ensures |r| >= |shape| + 2 && r[..|shape| + 2] == shape + ": "
    ensures fell <==> |r| >= 7 && r[|r| - 7..] == " (fell)" && |r| == |shape| + 2 + |time| + 7
  {
    shape + ": " + time + (if fell then " (fell)" else "")
  }

  /** What a horse and the statistics remember of its races: the history
      lines, the wins, the total distance and time, and the statistics
      records. */
  datatype HorseRecord = HorseRecord(history: seq<string>, wins: nat, totalDistance: real, totalTime: real, stats: seq<RaceStats>)

  // ---------------------------------------------------------------------
  // Settled bets

  /** A settled bet as the race remembers it: the amount on the table and
      whether the player had money on the winner. */
  datatype BetRecord = BetRecord(amount: real, won: bool)

  /** The betting table: the player's balance, the stakes per horse, the
      total staked, the house's balance and the odds per horse. */
  datatype Table = Table(balance: real, stakes: map<HorseGUI, real>, total: real, house: real, odds: map<HorseGUI, real>)

  /** All the money there is: the player's, the house's and the table's. */
  function Money(t: Table): real
  {
    t.balance + t.house + t.total
  }

  /** What the table pays the player on the winner: its stake times the
      winner's odds after settlement, 1.0 without odds; nothing without a
      winner. */
  function WinnerPayout(winner: HorseGUI?, before: Table, after: Table): real
  {
    if winner == null then 0.0
    else
      var stake := if winner in before.stakes then before.stakes[winner] else 0.0;
      Payout(stake, if winner in after.odds then after.odds[winner] else 1.0)
  }

  /** The bets are settled from the table and bet history before to the
      table and history after, winner being the race's winner and allFallen
      telling whether every horse was down, and pricing the odds the race's
      horses get when the table has none: with a winner the table keeps its
      odds, or takes pricing when it had none, the table total is recorded
      as a bet won exactly when the player had staked on the winner, the
      player gets that stake back with its winnings at the winner's odds
      (1.0 without odds), the house gets the rest of the table and the
      table is cleared; without a winner but with every horse down the
      table total is recorded as a lost bet and refunded to the player
      while the stakes, the odds and the house stay; otherwise nothing is
      settled. */
  ghost predicate Settled(winner: HorseGUI?, allFallen: bool, before: Table, history: seq<BetRecord>, after: Table, afterHistory: seq<BetRecord>, pricing: map<HorseGUI, real>)
  {
    if winner != null then
      var stake := if winner in before.stakes then before.stakes[winner] else 0.0;
      var payout := WinnerPayout(winner, before, after);
      after.odds == (if before.odds == map[] then Normalized(pricing) else before.odds)
      && afterHistory == history + [BetRecord(before.total, stake > 0.0)]
      && after.balance == before.balance + stake + payout
      && after.house == before.house + before.total - (stake + payout)
      && after.stakes == map[] && after.total == 0.0
    else if allFallen then
      afterHistory == history + [BetRecord(before.total, false)]
      && after.balance == before.balance + before.total && after.house == before.house
      && after.stakes == before.stakes && after.total == before.total && after.odds == before.odds
    else
      afterHistory == history && after.balance == before.balance && after.house == before.house
      && after.stakes == before.stakes && after.total == before.total && after.odds == before.odds
  }

  /** Settling on a winner makes and loses no money; a refund moves the
      table total to the player without taking it off the table. */
  lemma SettledMoney(winner: HorseGUI?, allFallen: bool, before: Table, history: seq<BetRecord>, after: Table, afterHistory: seq<BetRecord>, pricing: map<HorseGUI, real>)
    requires Settled(winner, allFallen, before, history, after, afterHistory, pricing)
    ensures winner != null ==> Money(after) == Money(before)
    ensures winner == null && allFallen ==> Money(after) == Money(before) + before.total
    ensures winner == null && !allFallen ==> Money(after) == Money(before)
  {
  }

  /** The statistics after settlement: with a winner, its newest record's
      final confidence moves by 0.1, up when the table paid out on it and
      down otherwise; without one they stay as they were. */
  ghost predicate StatsSettled(winner: HorseGUI?, before: Table, after: Table, stats: map<HorseGUI, seq<RaceStats>>, afterStats: map<HorseGUI, seq<RaceStats>>)
  {
    if winner != null then afterStats == AfterBettingStats(stats, winner, WinnerPayout(winner, before, after))
    else afterStats == stats
  }

  /** The statistics list of the horse in each lane, read off a table of
      lists; a horse without a list has none. */
  ghost function LaneView(lanes: map<int, HorseGUI?>, stats: map<HorseGUI, seq<RaceStats>>): (r: map<int, seq<RaceStats>>)
    ensures r.Keys == set l | l in lanes && lanes[l] != null
  {
    map l | l in lanes && lanes[l] != null :: if lanes[l] in stats then stats[lanes[l]] else []
  }

  /** The lanes' statistics lists after settlement, from the records the
      race wrote: the winner's list is shifted as settling on it with the
      given payout shifts it, and every other list is the one written;
      without a winner every list is the one written. */
  ghost predicate LaneStatsSettled(lanes: map<int, HorseGUI?>, winner: HorseGUI?, payout: real, written: map<int, HorseRecord>, laneStats: map<int, seq<RaceStats>>)
  {
    laneStats.Keys == written.Keys
    && forall l :: l in written ==>
      laneStats[l] == (if winner != null && l in lanes && lanes[l] == winner then BetShifted(written[l].stats, payout) else written[l].stats)
  }

  /** Settling moves the lanes' statistics lists as it moves the table of
      lists: from the lists written, settling on the winner shifts the
      winner's list and keeps the others, and no winner keeps them all. */
  lemma {:induction false} LanesSettled(lanes: map<int, HorseGUI?>, winner: HorseGUI?, payout: real, written: map<int, HorseRecord>, stats: map<HorseGUI, seq<RaceStats>>, afterStats: map<HorseGUI, seq<RaceStats>>)
    requires written.Keys == LaneView(lanes, stats).Keys
    requires forall l :: l in written ==> written[l].stats == LaneView(lanes, stats)[l]
    requires winner != null ==> afterStats == AfterBettingStats(stats, winner, payout)
    requires winner == null ==> afterStats == stats
    ensures LaneStatsSettled(lanes, winner, payout, written, LaneView(lanes, afterStats))
  {
    forall l | l in written
      ensures LaneView(lanes, afterStats)[l] == (if winner != null && l in lanes && lanes[l] == winner then BetShifted(written[l].stats, payout) else written[l].stats)
    {
      var h := lanes[l];
      assert LaneView(lanes, stats)[l] == if h in stats then stats[h] else [];
    }
  }

  /** How many of the bets were won. */
  function WonCount(history: seq<BetRecord>): (r: nat)
    ensures r <= |history|
  {
    if history == [] then 0 else WonCount(history[..|history| - 1]) + (if history[|history| - 1].won then 1 else 0)
  }

  /** The sum of the amounts. */
  function AmountSum(history: seq<BetRecord>): real
  {
    if history == [] then 0.0 else AmountSum(history[..|history| - 1]) + history[|history| - 1].amount
  }

  /** The last ten bets, or all of them when there are fewer, oldest first. */
  function Recent(history: seq<BetRecord>): (r: seq<BetRecord>)
    ensures |r| == if |history| < 10 then |history| else 10
  {
    var from := if |history| < 10 then 0 else |history| - 10;
    assert history == history[..from] + history[from..];
    history[from..]
  }

  /** Appending a bet to at most ten recent ones and dropping the oldest
      when there are then eleven gives the last ten of the longer history. */
  lemma RecentAfterAppend(history: seq<BetRecord>, b: BetRecord)
    ensures var appended := Recent(history) + [b];
      Recent(history + [b]) == if |appended| > 10 then appended[1..] else appended
  {
    var h := history + [b];
    var appended := Recent(history) + [b];
    if |history| < 10 {
      assert Recent(history) == history;
    } else {
      assert Recent(history) == history[|history| - 10..];
      assert appended[1..] == h[|h| - 10..];
    }
  }

  /** The four horses every new race starts with, at the start line, in
      lanes 0 to 3 and in the list of horses in the same order. */
  method Roster() returns (lanes: map<int, HorseGUI?>, list: seq<HorseGUI>)
    ensures |list| == 4 && lanes == map[0 := list[0], 1 := list[1], 2 := list[2], 3 := list[3]]
    ensures forall a, b :: a in lanes && b in lanes && lanes[a] != null && lanes[a] == lanes[b] ==> a == b
    ensures forall h :: h in list ==> fresh(h) && h.distance == 0 && !h.fallen && !h.winner
    ensures list[0].symbol == '>' && list[0].name == " Le Horse" && list[0].confidence == 0.7
    ensures list[1].symbol == '^' && list[1].name == " Solider" && list[1].confidence == 0.65
    ensures list[2].symbol == '#' && list[2].name == " The Castle" && list[2].confidence == 0.75
    ensures list[3].symbol == '*' && list[3].name == " King" && list[3].confidence == 0.68
  {
    var h0 := new HorseGUI('>', " Le Horse", 0.7);
    var h1 := new HorseGUI('^', " Solider", 0.65);
    var h2 := new HorseGUI('#', " The Castle", 0.75);
    var h3 := new HorseGUI('*', " King", 0.68);
    lanes := map[0 := h0, 1 := h1, 2 := h2, 3 := h3];
    list := [h0, h1, h2, h3];
  }

  /** The track, statistics and ledger of a new race; the ledger records
      its settlements in those statistics. */
  method Components(distance: int) returns (track: Track, statistics: Statistics, bettingSystem: BettingSystem)
    ensures fresh(track) && fresh(statistics) && fresh(bettingSystem)
    ensures track.Valid() && track.length == distance && track.numberOfLanes == 4
    ensures track.shape == "Oval" && track.weatherCondition == "Clear"
    ensures statistics.Valid() && statistics.horseStats == map[] && statistics.trackRecords == map[]
    ensures bettingSystem.Valid() && bettingSystem.statistics == statistics
    ensures bettingSystem.odds == map[] && bettingSystem.bets == map[]
    ensures bettingSystem.playerBalance == 1000.0 && bettingSystem.houseBalance == 10000.0
  {
    track := new Track(distance, 4);
    statistics := new Statistics();
    bettingSystem := new BettingSystem(statistics);
  }


  // ---------------------------------------------------------------------
  // Horses for new lanes

  /** The random values drawn for a horse that a lane-count change adds, in
      the order they are drawn: confidence, speed and stamina as values in
      [0, 1), then the breed, coat colour, saddle and horseshoes as indices
      into their lists, which (int)(Math.random() * n) draws from [0, n). */
  datatype NewHorseRolls = NewHorseRolls(confidence: real, speed: real, stamina: real,
                                         breed: nat, coat: nat, saddle: nat, shoes: nat)

  function Breeds(): seq<string> { ["Thoroughbred", "Arabian", "Quarter Horse", "Appaloosa", "Paint"] }
  function CoatColors(): seq<string> { ["Brown", "Black", "Grey", "White", "Chestnut"] }
  function Saddles(): seq<string> { ["Standard", "Racing", "Lightweight", "Heavy"] }
  function Horseshoes(): seq<string> { ["Standard", "Lightweight", "Heavy", "Racing"] }

  /** Every value lies in its range. */
  predicate RollsValid(r: NewHorseRolls)
  {
    0.0 <= r.confidence < 1.0 && 0.0 <= r.speed < 1.0 && 0.0 <= r.stamina < 1.0
    && r.breed < |Breeds()| && r.coat < |CoatColors()| && r.saddle < |Saddles()| && r.shoes < |Horseshoes()|
  }

  /** The state of a horse apart from its base attributes and confidence. */
  datatype HorseState = HorseState(symbol: char, name: string, distance: nat, fallen: bool, winner: bool,
                                   breed: string, coatColor: string, saddle: string, horseshoes: string,
                                   equipment: string, speedModifier: real, confidenceModifier: real,
                                   speed: real, stamina: real,
                                   raceHistory: seq<string>, wins: nat, totalDistance: real, totalTime: real)

  ghost function StateOf(h: HorseGUI): HorseState
    reads h
  {
    HorseState(h.symbol, h.name, h.distance, h.fallen, h.winner, h.breed, h.coatColor, h.saddle, h.horseshoes,
               h.equipment, h.speedModifier, h.confidenceModifier, h.speed, h.stamina,
               h.raceHistory, h.wins, h.totalDistance, h.totalTime)
  }

  /** What a horse added for lane i looks like: symbol '@' + i, name
      "Horse " and i + 1, at the start and standing, the drawn breed, coat
      colour, saddle and horseshoes with standard equipment and neutral
      modifiers, an empty record, and the speed and stamina its breed,
      saddle and horseshoes give: each of those three setters rebuilds the
      attributes, so the drawn speed and stamina do not survive. */
  function NewLaneState(i: int, r: NewHorseRolls): HorseState
    requires 0 <= i < 25 && RollsValid(r)
  {
    var breed, saddle, horseshoes := Breeds()[r.breed], Saddles()[r.saddle], Horseshoes()[r.shoes];
    var f := AttributeFactors(breed, saddle, horseshoes);
    HorseState(('@' as int + i) as char, "Horse " + Decimal(i + 1), 0, false, false,
               breed, CoatColors()[r.coat], saddle, horseshoes, "Standard", 1.0, 1.0, f.speed, f.stamina,
               [], 0, 0.0, 0.0)
  }

  /** The k-th horse of s is what a lane-count change makes for lane
      from + k out of that lane's draws. */
  ghost predicate MadeForLanes(s: seq<HorseGUI>, from: int, rolls: int -> NewHorseRolls)
    reads s
  {
    forall k {:trigger StateOf(s[k])} :: 0 <= k < |s| ==>
      0 <= from + k < 25 && RollsValid(rolls(from + k)) && StateOf(s[k]) == NewLaneState(from + k, rolls(from + k))
  }

  /** A horse made for the lane after a run of made horses extends the
      run. */
  lemma MadeForLanesExtend(s: seq<HorseGUI>, from: int, rolls: int -> NewHorseRolls, h: HorseGUI)
    requires MadeForLanes(s, from, rolls) && MadeForLanes([h], from + |s|, rolls)
    ensures MadeForLanes(s + [h], from, rolls)
  {
    var t := s + [h];
    forall k | 0 <= k < |t|
      ensures 0 <= from + k < 25 && RollsValid(rolls(from + k)) && StateOf(t[k]) == NewLaneState(from + k, rolls(from + k))
    {
      if k < |s| {
        assert t[k] == s[k] && StateOf(s[k]) == NewLaneState(from + k, rolls(from + k));
      } else {
        assert t[k] == [h][0] && StateOf([h][0]) == NewLaneState(from + |s|, rolls(from + |s|));
      }
    }
  }

  /** Makes the horse for the lane after a run of made horses, which
      extends the run. */
  method MakeLaneHorse(i: int, rolls: int -> NewHorseRolls, ghost made: seq<HorseGUI>, ghost from: int)
    returns (h: HorseGUI)
    requires 0 <= i < 25 && RollsValid(rolls(i)) && from + |made| == i
    requires MadeForLanes(made, from, rolls)
    ensures fresh(h) && MadeForLanes(made + [h], from, rolls)
  {
    h := NewLaneHorse(i, rolls(i));
    assert StateOf([h][0]) == NewLaneState(i, rolls(i));
    MadeForLanesExtend(made, from, rolls, h);
  }

  /** Creates the horse for lane i from its draws: confidence in [0.5, 0.9),
      speed in [0.6, 0.9) and stamina in [0.5, 0.9), then breed, coat
      colour, saddle and horseshoes picked from their lists. */
  method NewLaneHorse(i: int, r: NewHorseRolls) returns (h: HorseGUI)
    requires 0 <= i < 25 && RollsValid(r)
    ensures fresh(h) && StateOf(h) == NewLaneState(i, r)
  {
    var confidence := 0.5 + r.confidence * 0.4;
    var speed := 0.6 + r.speed * 0.3;
    var stamina := 0.5 + r.stamina * 0.4;
    h := new HorseGUI(('@' as int + i) as char, "Horse " + Decimal(i + 1), confidence);
    h.SetSpeed(speed);
    h.SetStamina(stamina);
    SetLooks(h, Breeds()[r.breed], CoatColors()[r.coat]);
    SetTack(h, Saddles()[r.saddle], Horseshoes()[r.shoes]);
  }

  /** Sets the breed, which rebuilds the attributes, and the coat colour. */
  method SetLooks(h: HorseGUI, breed: string, coat: string)
    modifies h`breed, h`coatColor, h`baseSpeed, h`baseConfidence, h`baseStamina, h`speed, h`stamina, h`confidence
    ensures h.breed == breed && h.coatColor == coat
    ensures unchanged(h`symbol, h`name, h`distance, h`fallen, h`winner, h`saddle, h`horseshoes, h`equipment)
    ensures unchanged(h`speedModifier, h`confidenceModifier, h`raceHistory, h`wins, h`totalDistance, h`totalTime)
  {
    h.SetBreed(breed);
    h.SetCoatColor(coat);
  }

  /** Sets the saddle and then the horseshoes, each of which rebuilds the
      attributes, so that speed and stamina end as the breed, saddle and
      horseshoes give them. */
  method SetTack(h: HorseGUI, saddle: string, horseshoes: string)
    modifies h`saddle, h`horseshoes, h`baseSpeed, h`baseConfidence, h`baseStamina, h`speed, h`stamina, h`confidence
    ensures h.saddle == saddle && h.horseshoes == horseshoes
    ensures h.speed == AttributeFactors(h.breed, saddle, horseshoes).speed
    ensures h.stamina == AttributeFactors(h.breed, saddle, horseshoes).stamina
    ensures unchanged(h`symbol, h`name, h`distance, h`fallen, h`winner, h`breed, h`coatColor, h`equipment)
    ensures unchanged(h`speedModifier, h`confidenceModifier, h`raceHistory, h`wins, h`totalDistance, h`totalTime)
  {
    h.SetSaddle(saddle);
    h.SetHorseshoes(horseshoes);
  }

  // ---------------------------------------------------------------------
  // Lanes in ascending order

  /** The lanes of m below count, with what they hold. */
  ghost function KeptLanes(m: map<int, HorseGUI?>, count: int): map<int, HorseGUI?>
  {
    map l | l in m && l < count :: m[l]
  }

  /** The horses in the given lanes of m, lowest lane first, skipping empty
      lanes. */
  ghost function InLaneOrder(m: map<int, HorseGUI?>, lanes: set<int>): seq<HorseGUI>
    requires lanes <= m.Keys
    decreases lanes
  {
    if lanes == {} then []
    else
      LowestLaneExists(lanes);
      var l :| l in lanes && forall k :: k in lanes ==> l <= k;
      (if m[l] != null then [m[l]] else []) + InLaneOrder(m, lanes - {l})
  }

  /** The listing starts with the lowest lane. */
  lemma InLaneOrderLowest(m: map<int, HorseGUI?>, lanes: set<int>, l: int)
    requires lanes <= m.Keys && l in lanes && forall k :: k in lanes ==> l <= k
    ensures InLaneOrder(m, lanes) == (if m[l] != null then [m[l]] else []) + InLaneOrder(m, lanes - {l})
  {
    var first :| first in lanes && forall k :: k in lanes ==> first <= k;
    assert first == l;
  }

  /** The listing holds the horse of every given lane that has one, and
      nothing else. */
  lemma {:induction false} InLaneOrderMembers(m: map<int, HorseGUI?>, lanes: set<int>)
    requires lanes <= m.Keys
    ensures forall l :: l in lanes && m[l] != null ==> m[l] in InLaneOrder(m, lanes)
    ensures forall h :: h in InLaneOrder(m, lanes) ==> exists l :: l in lanes && m[l] == h
    decreases lanes
  {
    if lanes != {} {
      LowestLaneExists(lanes);
      var l :| l in lanes && forall k :: k in lanes ==> l <= k;
      InLaneOrderLowest(m, lanes, l);
      InLaneOrderMembers(m, lanes - {l});
    }
  }

  /** Gathers the lanes of m below count, one entry at a time. */
  method KeepLanes(m: map<int, HorseGUI?>, count: int) returns (kept: map<int, HorseGUI?>)
    ensures forall l :: l in kept <==> l in m && l < count
    ensures forall l :: l in kept ==> kept[l] == m[l]
    ensures kept == KeptLanes(m, count)
  {
    kept := map[];
    var remaining := m.Keys;
    while remaining != {}
      invariant remaining <= m.Keys
      invariant forall l :: l in kept <==> l in m && l !in remaining && l < count
      invariant forall l :: l in kept ==> kept[l] == m[l]
      decreases remaining
    {
      var l := LowestLane(remaining);
      if l < count {
        kept := kept[l := m[l]];
      }
      remaining := remaining - {l};
    }
  }

  /** Lists the horses of m lane by lane, lowest lane first, skipping
      empty lanes. */
  method ListLanes(m: map<int, HorseGUI?>) returns (list: seq<HorseGUI>)
    ensures list == InLaneOrder(m, m.Keys)
    ensures forall l :: l in m && m[l] != null ==> m[l] in list
    ensures forall h :: h in list ==> exists l :: l in m && m[l] == h
  {
    list := [];
    var remaining := m.Keys;
    while remaining != {}
      invariant remaining <= m.Keys
      invariant list + InLaneOrder(m, remaining) == InLaneOrder(m, m.Keys)
      decreases remaining
    {
      var l := LowestLane(remaining);
      InLaneOrderLowest(m, remaining, l);
      if m[l] != null {
        list := list + [m[l]];
      }
      remaining := remaining - {l};
    }
    InLaneOrderMembers(m, m.Keys);
  }

  /** lanes and added are what filling lanes |kept| .. count-1 of kept
      with new horses leaves: the kept lanes and those lanes, the latter
      holding the added horses in lane order; every other lane holds what
      it held. */
  ghost predicate Refilled(kept: map<int, HorseGUI?>, count: int, lanes: map<int, HorseGUI?>, added: seq<HorseGUI>)
  {
    var n := |kept|;
    |added| == (if n < count then count - n else 0)
    && (forall l :: l in lanes <==> l in kept || n <= l < count)
    && (forall l :: l in kept && !(n <= l < count) ==> lanes[l] == kept[l])
    && (forall l :: n <= l < count ==> lanes[l] == added[l - n])
  }

  /** Fills lanes |kept| .. count-1 with new horses, one at a time in
      ascending order, each replacing whatever a kept lane of that number
      held; added lists the new horses in the order they were made. */
  method AddLaneHorses(kept: map<int, HorseGUI?>, count: int, rolls: int -> NewHorseRolls)
    returns (lanes: map<int, HorseGUI?>, added: seq<HorseGUI>)
    requires count <= 25 && forall i :: 0 <= i < 25 ==> RollsValid(rolls(i))
    ensures Refilled(kept, count, lanes, added)
    ensures forall h :: h in added ==> fresh(h)
    ensures MadeForLanes(added, |kept|, rolls)
    ensures forall j, k :: 0 <= j < k < |added| ==> added[j] != added[k]
  {
    lanes, added := kept, [];
    var i := |kept|;
    while i < count
      invariant i == |kept| + |added| && (i <= count || added == [])
      invariant Refilled(kept, i, lanes, added)
      invariant forall k :: 0 <= k < |added| ==> fresh(added[k])
      invariant MadeForLanes(added, |kept|, rolls)
      invariant forall j, k :: 0 <= j < k < |added| ==> added[j] != added[k]
    {
      var h := MakeLaneHorse(i, rolls, added, |kept|);
      lanes := lanes[i := h];
      added := added + [h];
      i := i + 1;
    }
  }

  /** lanes and list are what a change to count lanes makes of the lanes
      before: the lanes below count are kept and their horses listed
      first, lowest lane first; then lanes |kept| .. count-1 hold horses
      made for them out of their draws, listed in lane order after the
      kept ones. */
  ghost predicate LaneChange(before: map<int, HorseGUI?>, count: int, lanes: map<int, HorseGUI?>, list: seq<HorseGUI>,
                             rolls: int -> NewHorseRolls)
    reads list
  {
    var kept := KeptLanes(before, count);
    var listed := InLaneOrder(kept, kept.Keys);
    |listed| <= |list| && list[..|listed|] == listed
    && Refilled(kept, count, lanes, list[|listed|..]) && MadeForLanes(list[|listed|..], |kept|, rolls)
  }

  /** No horse stands in two lanes of m. */
  ghost predicate LanesDistinct(m: map<int, HorseGUI?>)
  {
    forall a, b :: a in m && b in m && m[a] != null && m[a] == m[b] ==> a == b
  }

  /** Filling lanes with distinct horses that stand in no kept lane keeps
      every horse in one lane at most. */
  lemma RefilledDistinct(kept: map<int, HorseGUI?>, count: int, lanes: map<int, HorseGUI?>, added: seq<HorseGUI>)
    requires Refilled(kept, count, lanes, added) && LanesDistinct(kept)
    requires forall j, k :: 0 <= j < k < |added| ==> added[j] != added[k]
    requires forall l, k :: l in kept && 0 <= k < |added| ==> kept[l] != added[k]
    ensures LanesDistinct(lanes)
  {
    var n := |kept|;
    forall a, b | a in lanes && b in lanes && lanes[a] != null && lanes[a] == lanes[b]
      ensures a == b
    {
      if n <= a < count && n <= b < count {
        assert added[a - n] == added[b - n];
      }
    }
  }

  /** The lanes and the list a lane-count change builds from the lanes
      before: the lanes below count are kept and their horses listed lowest
      lane first, then lanes |kept| .. count-1 get new horses made from
      their draws, which follow in the list. Every horse stands in one
      lane at most, and every lane horse is listed. */
  method RefillLanes(before: map<int, HorseGUI?>, count: int, rolls: int -> NewHorseRolls)
    returns (lanes: map<int, HorseGUI?>, list: seq<HorseGUI>)
    requires count <= 25 && forall i :: 0 <= i < 25 ==> RollsValid(rolls(i))
    requires LanesDistinct(before)
    ensures LaneChange(before, count, lanes, list, rolls)
    ensures var kept := KeptLanes(before, count); forall h :: h in list[|InLaneOrder(kept, kept.Keys)|..] ==> fresh(h)
    ensures LanesDistinct(lanes)
    ensures forall l :: l in lanes && lanes[l] != null ==> lanes[l] in list
  {
    var kept := KeepLanes(before, count);
    var listed := ListLanes(kept);
    var added;
    lanes, added := AddLaneHorses(kept, count, rolls);
    list := listed + added;
    assert list[..|listed|] == listed && list[|listed|..] == added;
    forall l, k | l in kept && 0 <= k < |added|
      ensures kept[l] != added[k]
    {
      assert added[k] in added;
    }
    RefilledDistinct(kept, count, lanes, added);
  }

  /** The list with every horse of m it does not hold yet appended, lowest
      lane first; a list that already holds them all comes back as it was. */
  method ListMissing(m: map<int, HorseGUI?>, list: seq<HorseGUI>) returns (r: seq<HorseGUI>)
    ensures list <= r
    ensures forall l :: l in m && m[l] != null ==> m[l] in r
    ensures forall h :: h in r ==> h in list || exists l :: l in m && m[l] == h
    ensures (forall l :: l in m && m[l] != null ==> m[l] in list) ==> r == list
  {
    r := list;
    var remaining := m.Keys;
    while remaining != {}
      invariant remaining <= m.Keys
      invariant list <= r
      invariant forall l :: l in m && l !in remaining && m[l] != null ==> m[l] in r
      invariant forall h :: h in r ==> h in list || exists l :: l in m && m[l] == h
      invariant (forall l :: l in m && m[l] != null ==> m[l] in list) ==> r == list
      decreases remaining
    {
      var lane := LowestLane(remaining);
      var h := m[lane];
      if h != null && h !in r {
        r := r + [h];
      }
      remaining := remaining - {lane};
    }
  }

  class Race {
    var raceLength: int
    var horseMap: map<int, HorseGUI?>
    var winnerHorse: HorseGUI?
    var track: Track
    const statistics: Statistics
    const bettingSystem: BettingSystem
    var horses: seq<HorseGUI>
    var raceStartTime: int
    var timerRunning: bool
    var laneCount: int
    var trackLength: int
    var bestTimes: map<string, real>
    /** Every race time offered to bestTimes, per key. */
    ghost var bestSeen: map<string, set<real>>
    var recentBets: seq<BetRecord>
    /** Every bet the race has recorded, oldest first. */
    ghost var betHistory: seq<BetRecord>
    var totalBets: nat
    var totalBetAmount: real
    var winningBets: nat
    var raceRunning: bool
    var racePaused: bool
    var hasEndListener: bool
    /** How many times the end listener has been run. */
    var endNotifications: nat

    /** The horses standing in some lane. */
    ghost function Horses(): set<HorseGUI>
      reads this`horseMap
    {
      set l | l in horseMap && horseMap[l] != null :: horseMap[l]
    }

    /** No horse stands in two lanes. */
    ghost predicate Distinct()
      reads this`horseMap
    {
      LanesDistinct(horseMap)
    }

    /** The counters, the amount and the recent list are those of the bet
        history. */
    ghost predicate LedgerValid()
      reads this`betHistory, this`totalBets, this`winningBets, this`totalBetAmount, this`recentBets
    {
      totalBets == |betHistory| && winningBets == WonCount(betHistory)
      && totalBetAmount == AmountSum(betHistory) && recentBets == Recent(betHistory)
    }

    /** The timer runs exactly while a race is running and not paused, and
        only a running race can be paused. */
    ghost predicate StateValid()
      reads this`timerRunning, this`raceRunning, this`racePaused
    {
      (timerRunning <==> raceRunning && !racePaused) && (racePaused ==> raceRunning)
    }

    /** Everything the race keeps consistent apart from its running state:
        distinct lane horses, the bet ledger, the track, the
        statistics and the betting system sharing them, and best times that
        are the minima of the race times seen. */
    ghost predicate Consistent()
      reads this`horseMap, this`betHistory, this`totalBets, this`winningBets, this`totalBetAmount, this`recentBets
      reads this`track, this`bestTimes, this`bestSeen
      reads track`weatherCondition, track`weatherSpeedModifier, track`weatherConfidenceModifier, track`weatherFallChanceModifier
      reads statistics`trackRecords, statistics`seenTimes
      reads bettingSystem`odds, bettingSystem`bets, bettingSystem`totalBets, bettingSystem`playerBalance
    {
      Distinct() && LedgerValid()
      && track.Valid() && statistics.Valid() && bettingSystem.Valid() && bettingSystem.statistics == statistics
      && RecordsAreMinima(bestTimes, bestSeen)
    }

    ghost predicate Valid()
      reads this`horseMap, this`betHistory, this`totalBets, this`winningBets, this`totalBetAmount, this`recentBets
      reads this`timerRunning, this`raceRunning, this`racePaused, this`track, this`bestTimes, this`bestSeen
      reads track`weatherCondition, track`weatherSpeedModifier, track`weatherConfidenceModifier, track`weatherFallChanceModifier
      reads statistics`trackRecords, statistics`seenTimes
      reads bettingSystem`odds, bettingSystem`bets, bettingSystem`totalBets, bettingSystem`playerBalance
    {
      Consistent() && StateValid()
    }

    ghost function Pos(h: HorseGUI): Position
      reads h`distance, h`fallen
    {
      Position(h.distance, h.fallen)
    }

    /** Every horse in a lane is at the start, standing, and not marked as
        the winner. */
    ghost predicate AtStart()
      reads this`horseMap, Horses()`distance, Horses()`fallen, Horses()`winner
    {
      forall l :: l in horseMap && horseMap[l] != null ==> Pos(horseMap[l]) == Position(0, false) && !horseMap[l].winner
    }

    /** Lanes whose horse has run exactly the race length. */
    ghost function FinishedLanes(): set<int>
      reads this`horseMap, this`raceLength, Horses()`distance
    {
      set l | l in horseMap && horseMap[l] != null && horseMap[l].distance == raceLength
    }

    /** Every lane is empty or holds a fallen horse. */
    ghost predicate AllFallen()
      reads this`horseMap, Horses()`fallen
    {
      forall l :: l in horseMap && horseMap[l] != null ==> horseMap[l].fallen
    }

    /** The best times once a race of the given time has run on the
        track's current shape and weather. */
    ghost function ImprovedBestTimes(raceTime: real): map<string, real>
      reads this`bestTimes, this`track, track`shape, track`weatherCondition
    {
      Improve(bestTimes, TrackKey(track.shape, track.weatherCondition), raceTime)
    }

    /** The spread odds of the race's horses on its track with the given
        stakes on the table, as the betting system prices them when its
        table has none. */
    ghost function PricedOdds(stakes: map<HorseGUI, real>): map<HorseGUI, real>
      reads this`horses, this`track
      reads NonNull(horses), track
    {
      Priced(horses, track, stakes)
    }

    /** The pricing of the race's horses is the same in two states that
        agree on the horse list, the track and every field the pricing
        reads. */
    twostate lemma PricingKept(stakes: map<HorseGUI, real>)
      requires unchanged(this`horses, this`track)
      requires unchanged(old(track)) && unchanged(old(horses))
      ensures PricedOdds(stakes) == old(PricedOdds(stakes))
    {
      var now, before := Priced(horses, track, stakes), old(Priced(horses, track, stakes));
      forall h | h in now
        ensures now[h] == before[h]
      {
        assert now[h] == PriceOf(h, track, stakes);
        assert before[h] == old(PriceOf(h, track, stakes));
      }
      assert now.Keys == before.Keys;
    }

    /** The betting system's table now. */
    ghost function TableNow(): Table
      reads bettingSystem`playerBalance, bettingSystem`bets, bettingSystem`totalBets, bettingSystem`houseBalance, bettingSystem`odds
    {
      Table(bettingSystem.playerBalance, bettingSystem.bets, bettingSystem.totalBets, bettingSystem.houseBalance, bettingSystem.odds)
    }

    /** Four horses in lanes 0 to 3, an oval track in clear weather of the
        given length with four lanes, fresh statistics, a ledger sharing
        them, no race running and no bets recorded; the track length used
        by lane-count changes starts at 0. */
    constructor (distance: int)
      ensures Valid()
      ensures raceLength == distance && winnerHorse == null
      ensures |horses| == 4 && horseMap == map[0 := horses[0], 1 := horses[1], 2 := horses[2], 3 := horses[3]]
      ensures forall h :: h in horses ==> fresh(h) && Pos(h) == Position(0, false) && !h.winner
      ensures horses[0].symbol == '>' && horses[0].name == " Le Horse" && horses[0].confidence == 0.7
      ensures horses[1].symbol == '^' && horses[1].name == " Solider" && horses[1].confidence == 0.65
      ensures horses[2].symbol == '#' && horses[2].name == " The Castle" && horses[2].confidence == 0.75
      ensures horses[3].symbol == '*' && horses[3].name == " King" && horses[3].confidence == 0.68
      ensures fresh(track) && track.length == distance && track.numberOfLanes == 4
      ensures track.shape == "Oval" && track.weatherCondition == "Clear"
      ensures fresh(statistics) && statistics.horseStats == map[] && statistics.trackRecords == map[]
      ensures fresh(bettingSystem) && bettingSystem.odds == map[] && bettingSystem.bets == map[]
      ensures bettingSystem.playerBalance == 1000.0 && bettingSystem.houseBalance == 10000.0
      ensures laneCount == 4 && trackLength == 0 && bestTimes == map[]
      ensures recentBets == [] && totalBets == 0 && totalBetAmount == 0.0 && winningBets == 0
      ensures !raceRunning && !racePaused && !timerRunning && !hasEndListener && endNotifications == 0
    {
      raceLength := distance;
      var lanes, list := Roster();
      horseMap := lanes;
      winnerHorse := null;
      var t, stats, ledger := Components(distance);
      track, statistics, bettingSystem := t, stats, ledger;
      horses := list;
      raceStartTime := 0;
      timerRunning := false;
      laneCount := 4;
      trackLength := 0;
      bestTimes := map[];
      bestSeen := map[];
      recentBets := [];
      betHistory := [];
      totalBets := 0;
      totalBetAmount := 0.0;
      winningBets := 0;
      raceRunning := false;
      racePaused := false;
      hasEndListener := false;
      endNotifications := 0;
    }

    // -------------------------------------------------------------------
    // Start, stop and reset

    /** Brings every horse in a lane back to the start with its winner flag
        cleared, and forgets the winner. */
    method ResetHorses()
      requires Distinct()
      modifies this`winnerHorse, Horses()`winner, Horses()`distance, Horses()`fallen
      ensures winnerHorse == null
      ensures AtStart()
    {
      var remaining := horseMap.Keys;
      while remaining != {}
        invariant remaining <= horseMap.Keys
        invariant forall l :: l in horseMap && l !in remaining && horseMap[l] != null ==>
          Pos(horseMap[l]) == Position(0, false) && !horseMap[l].winner
        decreases remaining
      {
        var lane := LowestLane(remaining);
        var h := horseMap[lane];
        if h != null {
          h.SetIsWinner(false);
          h.GoBackToStart();
        }
        remaining := remaining - {lane};
      }
      winnerHorse := null;
    }

    /** Starts a race that is not running: every horse back at the start,
        no winner, the start time taken and the timer started. Resumes a
        paused race without touching the horses. Does nothing to a race
        that is running and not paused. */
    method StartRace(now: int)
      requires Valid()
      modifies this`raceRunning, this`racePaused, this`raceStartTime, this`timerRunning, this`winnerHorse
      modifies Horses()`winner, Horses()`distance, Horses()`fallen
      ensures Valid()
      ensures raceRunning && !racePaused && timerRunning
      ensures !old(raceRunning) ==> (raceStartTime == now && winnerHorse == null
        && AtStart())
      ensures old(raceRunning) ==> (raceStartTime == old(raceStartTime) && winnerHorse == old(winnerHorse)
        && forall l :: l in horseMap && horseMap[l] != null ==>
          Pos(horseMap[l]) == old(Pos(horseMap[l])) && horseMap[l].winner == old(horseMap[l].winner))
    {
      if !raceRunning {
        BeginRace(now);
      } else if racePaused {
        racePaused := false;
        timerRunning := true;
      }
    }

    /** The part of StartRace for a race that is not running. */
    method BeginRace(now: int)
      requires Valid() && !raceRunning
      modifies this`raceRunning, this`racePaused, this`raceStartTime, this`timerRunning, this`winnerHorse
      modifies Horses()`winner, Horses()`distance, Horses()`fallen
      ensures Valid()
      ensures raceRunning && !racePaused && timerRunning && raceStartTime == now && winnerHorse == null
      ensures AtStart()
    {
      ResetHorses();
      Launch(now);
    }

    /** Pauses a running race and stops its timer; does nothing otherwise. */
    method StopRace()
      requires Valid()
      modifies this`racePaused, this`timerRunning
      ensures Valid()
      ensures old(raceRunning) ==> racePaused && !timerRunning
      ensures !old(raceRunning) ==> racePaused == old(racePaused) && timerRunning == old(timerRunning)
    {
      if raceRunning {
        racePaused := true;
        timerRunning := false;
      }
    }

    /** Ends any race at once: not running, not paused, timer stopped, every
        horse back at the start without a winner flag, no winner. */
    method ResetRace()
      requires Valid()
      modifies this`raceRunning, this`racePaused, this`timerRunning, this`winnerHorse
      modifies Horses()`winner, Horses()`distance, Horses()`fallen
      ensures Valid()
      ensures !raceRunning && !racePaused && !timerRunning && winnerHorse == null
      ensures AtStart()
    {
      ResetHorses();
      SetRunState(false, false);
    }

    /** Takes the start time and sets the race running and not paused. */
    method Launch(now: int)
      requires Consistent()
      modifies this`raceRunning, this`racePaused, this`timerRunning, this`raceStartTime
      ensures Consistent()
      ensures raceRunning && !racePaused && timerRunning && raceStartTime == now
    {
      raceStartTime := now;
      SetRunState(true, false);
    }

    /** Sets the running and paused flags and runs the timer exactly when
        the race is then running and not paused. */
    method SetRunState(running: bool, paused: bool)
      requires Consistent()
      modifies this`raceRunning, this`racePaused, this`timerRunning
      ensures Consistent()
      ensures raceRunning == running && racePaused == paused && timerRunning == (running && !paused)
      ensures TableNow() == old(TableNow()) && AllFallen() == old(AllFallen())
      ensures unchanged(this`bestTimes, this`betHistory, this`winnerHorse, this`endNotifications, this`hasEndListener)
      ensures unchanged(this`track, track`shape, track`weatherCondition)
    {
      raceRunning, racePaused, timerRunning := running, paused, running && !paused;
    }

    // -------------------------------------------------------------------
    // One tick

    /** Where one tick leaves a horse, given its draws, on the current
        track. */
    ghost function Advanced(h: HorseGUI, d: Draw): Position
      reads this`track, track`weatherConfidenceModifier, track`weatherFallChanceModifier, track`shape
      reads h`distance, h`fallen, h`confidence, h`speedModifier, h`confidenceModifier
    {
      Step(Pos(h), StepCount(h.speedModifier),
        MoveChance(h.Confidence(), track.weatherConfidenceModifier, track.TrackShapeModifier()),
        FallChance(h.Confidence(), track.weatherFallChanceModifier), d)
    }

    /** One horse's turn: a standing horse makes its move on the move draw
        (one base step per unit of its speed modifier, rounded up) and falls
        on the fall draw. */
    method MoveHorse(theHorse: HorseGUI, d: Draw)
      modifies theHorse`distance, theHorse`fallen
      ensures Pos(theHorse) == old(Advanced(theHorse, d))
    {
      if !theHorse.fallen {
        var moveChance := theHorse.Confidence() * 0.95;
        moveChance := moveChance * track.weatherConfidenceModifier;
        moveChance := moveChance * track.TrackShapeModifier();
        var fallChance := 0.01 * (1.3 - theHorse.Confidence());
        fallChance := fallChance * track.weatherFallChanceModifier;
        if d.move < moveChance {
          theHorse.MoveForward();
        }
        if d.fall < fallChance {
          theHorse.Fall();
        }
      }
    }

    /** Every horse takes its turn, in ascending lane order. */
    method MoveAll(draw: int -> Draw)
      requires Distinct()
      modifies Horses()`distance, Horses()`fallen
      ensures Valid() == old(Valid())
      ensures forall l :: l in horseMap && horseMap[l] != null ==> Pos(horseMap[l]) == old(Advanced(horseMap[l], draw(l)))
    {
      var remaining := horseMap.Keys;
      while remaining != {}
        invariant remaining <= horseMap.Keys
        invariant forall l :: l in horseMap && l !in remaining && horseMap[l] != null ==>
          Pos(horseMap[l]) == old(Advanced(horseMap[l], draw(l)))
        invariant forall l :: l in remaining && horseMap[l] != null ==> Pos(horseMap[l]) == old(Pos(horseMap[l]))
        decreases remaining
      {
        var lane := LowestLane(remaining);
        var h := horseMap[lane];
        if h != null {
          MoveHorse(h, draw(lane));
        }
        remaining := remaining - {lane};
      }
    }

    /** Marks and records the horse in the lowest lane that has run exactly
        the race length; a zero-length race has no winner. */
    method RaceWonBy() returns (won: bool)
      modifies this`winnerHorse, Horses()`winner
      ensures Valid() == old(Valid())
      ensures won <==> raceLength != 0 && FinishedLanes() != {}
      ensures !won ==> winnerHorse == old(winnerHorse)
      ensures won ==> exists l :: l in FinishedLanes() && (forall k :: k in FinishedLanes() ==> l <= k) && winnerHorse == horseMap[l]
      ensures won ==> winnerHorse != null && winnerHorse.winner
      ensures forall l :: l in horseMap && horseMap[l] != null && horseMap[l] != winnerHorse ==>
        horseMap[l].winner == old(horseMap[l].winner)
    {
      if raceLength == 0 {
        return false;
      }
      var remaining := horseMap.Keys;
      var winner: HorseGUI? := null;
      ghost var winnerLane := 0;
      while remaining != {} && winner == null
        invariant remaining <= horseMap.Keys
        invariant forall a, b :: a in horseMap && a !in remaining && b in remaining ==> a < b
        invariant forall l :: l in horseMap && l !in remaining ==> l !in FinishedLanes()
        invariant winner != null ==> winnerLane in remaining && winnerLane in FinishedLanes() && winner == horseMap[winnerLane]
        invariant winner != null ==> forall k :: k in remaining ==> winnerLane <= k
        modifies {}
        decreases remaining, if winner == null then 1 else 0
      {
        var lane := LowestLane(remaining);
        var h := horseMap[lane];
        if h != null && h.distance == raceLength {
          winner, winnerLane := h, lane;
        } else {
          remaining := remaining - {lane};
        }
      }
      if winner == null {
        assert forall l :: l in horseMap ==> l !in remaining;
        assert forall l :: l !in FinishedLanes();
        return false;
      }
      MarkWinner(winner);
      return true;
    }

    /** Marks a horse as the winner and records it as the race's winner. */
    method MarkWinner(h: HorseGUI)
      modifies this`winnerHorse, h`winner
      ensures Valid() == old(Valid())
      ensures winnerHorse == h && h.winner
    {
      h.SetIsWinner(true);
      winnerHorse := h;
    }

    /** Whether every lane is empty or holds a fallen horse, by counting. */
    method IsAllHorsesFallen() returns (r: bool)
      ensures r <==> AllFallen()
    {
      var fallenCount, nullCount, seen := 0, 0, 0;
      var remaining := horseMap.Keys;
      while remaining != {}
        invariant remaining <= horseMap.Keys
        invariant seen + |remaining| == |horseMap|
        invariant fallenCount + nullCount <= seen
        invariant fallenCount + nullCount == seen <==>
          forall l :: l in horseMap && l !in remaining && horseMap[l] != null ==> horseMap[l].fallen
        decreases remaining
      {
        var lane := LowestLane(remaining);
        var h := horseMap[lane];
        if h == null {
          nullCount := nullCount + 1;
        } else if h.fallen {
          fallenCount := fallenCount + 1;
        }
        seen := seen + 1;
        remaining := remaining - {lane};
      }
      r := fallenCount + nullCount == |horseMap|;
    }

    // -------------------------------------------------------------------
    // Configuration

    /** A lane that is missing from the map or mapped to null is free. */
    ghost predicate FreeLane(laneNumber: int)
      reads this
    {
      laneNumber !in horseMap || horseMap[laneNumber] == null
    }

    /** Puts a horse in a free lane (missing, or mapped to null, the
        behaviour of putIfAbsent); a lane holding a horse keeps it. The list
        of horses is not touched. */
    method AddHorse(theHorse: HorseGUI?, laneNumber: int)
      requires Valid()
      requires FreeLane(laneNumber) && theHorse != null ==> theHorse !in Horses()
      modifies this`horseMap
      ensures Valid()
      ensures !old(FreeLane(laneNumber)) ==> horseMap == old(horseMap)
      ensures old(FreeLane(laneNumber)) ==> horseMap == old(horseMap)[laneNumber := theHorse]
    {
      if laneNumber !in horseMap || horseMap[laneNumber] == null {
        horseMap := horseMap[laneNumber := theHorse];
      }
    }

    /** Changes the track's shape; its weather stays. */
    method SetTrackShape(shape: string)
      requires Valid()
      modifies track`shape
      ensures Valid()
      ensures track.shape == shape
    {
      track.SetShape(shape);
    }

    /** Changes the track's weather and with it the weather modifiers. */
    method SetWeatherCondition(weather: string)
      requires Valid()
      modifies track`weatherCondition, track`weatherSpeedModifier, track`weatherConfidenceModifier, track`weatherFallChanceModifier
      ensures Valid()
      ensures track.weatherCondition == weather
    {
      track.SetWeatherCondition(weather);
    }

    /** A length in [20, 200] becomes both the race length and the length of
        a new track with the current lane count, which is oval and clear;
        any other length changes nothing. */
    method SetTrackLength(length: int)
      requires Valid()
      modifies this`trackLength, this`raceLength, this`track
      ensures Valid()
      ensures !(20 <= length <= 200) ==> trackLength == old(trackLength) && raceLength == old(raceLength) && track == old(track)
      ensures 20 <= length <= 200 ==> (trackLength == length && raceLength == length
        && fresh(track) && track.length == length && track.numberOfLanes == laneCount
        && track.shape == "Oval" && track.weatherCondition == "Clear")
    {
      if 20 <= length <= 200 {
        var t := new Track(length, laneCount);
        Relength(length, t);
      }
    }

    /** Installs a new length and track. */
    method Relength(length: int, t: Track)
      requires Consistent() && t.Valid()
      modifies this`trackLength, this`raceLength, this`track
      ensures Consistent()
      ensures trackLength == length && raceLength == length && track == t
    {
      trackLength, raceLength, track := length, length, t;
    }

    /** A count in [2, 25] becomes the lane count and that of a new track
        of the stored track length, which is oval and clear. The lanes
        below the count keep their horses, which make up the new list,
        lowest lane first; then each lane from the number of kept lanes up
        to count - 1 gets a new horse made from its draws, which replaces
        whatever a kept lane of that number held and joins the end of the
        list. Any other count changes nothing. */
    method SetLaneCount(count: int, rolls: int -> NewHorseRolls)
      requires Valid() && forall i :: 0 <= i < 25 ==> RollsValid(rolls(i))
      modifies this`laneCount, this`track, this`horseMap, this`horses
      ensures Valid()
      ensures !(2 <= count <= 25) ==> unchanged(this`laneCount, this`track, this`horseMap, this`horses)
      ensures 2 <= count <= 25 ==> (laneCount == count && fresh(track) && track.length == trackLength
        && track.numberOfLanes == count && track.shape == "Oval" && track.weatherCondition == "Clear")
      ensures 2 <= count <= 25 ==> LaneChange(old(horseMap), count, horseMap, horses, rolls)
      ensures 2 <= count <= 25 ==> (var kept := KeptLanes(old(horseMap), count);
        forall h :: h in horses[|InLaneOrder(kept, kept.Keys)|..] ==> fresh(h))
    {
      if 2 <= count <= 25 {
        var lanes, list := RefillLanes(horseMap, count, rolls);
        var listed := ListMissing(lanes, list);
        InstallLanes(count, lanes, listed);
      }
    }

    /** Installs a lane count, a new oval track in clear weather with the
        stored length and that many lanes, the lanes and the list. */
    method InstallLanes(count: int, lanes: map<int, HorseGUI?>, list: seq<HorseGUI>)
      requires Valid() && LanesDistinct(lanes)
      modifies this`laneCount, this`track, this`horseMap, this`horses
      ensures Valid()
      ensures laneCount == count && horseMap == lanes && horses == list
      ensures fresh(track) && track.length == trackLength && track.numberOfLanes == count
      ensures track.shape == "Oval" && track.weatherCondition == "Clear"
    {
      laneCount := count;
      track := new Track(trackLength, count);
      horseMap, horses := lanes, list;
    }

    /** From now on the end of every race is reported to a listener. */
    method AddRaceEndListener()
      modifies this`hasEndListener
      ensures hasEndListener
    {
      hasEndListener := true;
    }

    // -------------------------------------------------------------------
    // Best times

    /** The race time becomes the best time for the current shape and
        weather when there is none yet or it is strictly faster. */
    method UpdateBestTime(raceTime: real)
      requires Consistent()
      modifies this`bestTimes, this`bestSeen
      ensures Consistent()
      ensures unchanged(this`raceRunning, this`racePaused, this`timerRunning, this`endNotifications, this`hasEndListener, this`betHistory, this`winnerHorse, bettingSystem`bets, bettingSystem`totalBets)
      ensures AllFallen() == old(AllFallen())
      ensures bestTimes == old(ImprovedBestTimes(raceTime))
      ensures TableNow() == old(TableNow())
    {
      var trackKey := TrackKey(track.shape, track.weatherCondition);
      ImproveKeepsMinima(bestTimes, bestSeen, trackKey, raceTime);
      var improved := if trackKey !in bestTimes || raceTime < bestTimes[trackKey] then bestTimes[trackKey := raceTime] else bestTimes;
      SetBestTimes(improved, Offer(bestSeen, trackKey, raceTime));
    }

    method SetBestTimes(times: map<string, real>, ghost seen: map<string, set<real>>)
      requires Consistent() && RecordsAreMinima(times, seen)
      modifies this`bestTimes, this`bestSeen
      ensures Consistent()
      ensures bestTimes == times && bestSeen == seen
      ensures unchanged(this`raceRunning, this`racePaused, this`timerRunning, this`endNotifications, this`hasEndListener, this`betHistory, this`winnerHorse, bettingSystem`bets, bettingSystem`totalBets)
      ensures AllFallen() == old(AllFallen())
    {
      bestTimes, bestSeen := times, seen;
    }

    /** The best time for a shape in the current weather, 0 when there is
        none; otherwise the fastest race time seen for that shape and
        weather. */
    function BestTimeForTrack(shape: string): (r: real)
      reads this`bestTimes, this`bestSeen, this`track, track`weatherCondition
      ensures TrackKey(shape, track.weatherCondition) !in bestTimes ==> r == 0.0
      ensures RecordsAreMinima(bestTimes, bestSeen) && TrackKey(shape, track.weatherCondition) in bestTimes ==>
        r in bestSeen[TrackKey(shape, track.weatherCondition)]
        && forall t :: t in bestSeen[TrackKey(shape, track.weatherCondition)] ==> r <= t
    {
      var key := TrackKey(shape, track.weatherCondition);
      if key in bestTimes then bestTimes[key] else 0.0
    }

    // -------------------------------------------------------------------
    // Bet history

    /** Counts a settled bet, adds its amount, counts it as won when it was,
        and keeps it among the ten most recent. */
    method RecordBet(amount: real, won: bool)
      requires Consistent()
      modifies this`totalBets, this`totalBetAmount, this`winningBets, this`recentBets, this`betHistory
      ensures Consistent()
      ensures AllFallen() == old(AllFallen())
      ensures unchanged(this`raceRunning, this`racePaused, this`timerRunning, this`endNotifications, this`hasEndListener, this`bestTimes, this`winnerHorse)
      ensures unchanged(bettingSystem`odds, bettingSystem`bets, bettingSystem`totalBets, bettingSystem`playerBalance, bettingSystem`houseBalance)
      ensures betHistory == old(betHistory) + [BetRecord(amount, won)]
      ensures totalBets == old(totalBets) + 1 && totalBetAmount == old(totalBetAmount) + amount
      ensures winningBets == old(winningBets) + (if won then 1 else 0)
      ensures |recentBets| <= 10 && recentBets[|recentBets| - 1] == BetRecord(amount, won)
    {
      var b := BetRecord(amount, won);
      var history := betHistory + [b];
      assert history[..|history| - 1] == betHistory;
      RecentAfterAppend(betHistory, b);
      var recent := recentBets + [b];
      if |recent| > 10 {
        recent := recent[1..];
      }
      SetLedger(totalBets + 1, totalBetAmount + amount, winningBets + (if won then 1 else 0), recent, history);
    }

    method SetLedger(count: nat, amount: real, wins: nat, recent: seq<BetRecord>, ghost history: seq<BetRecord>)
      requires Consistent()
      requires count == |history| && wins == WonCount(history) && amount == AmountSum(history) && recent == Recent(history)
      modifies this`totalBets, this`totalBetAmount, this`winningBets, this`recentBets, this`betHistory
      ensures Consistent()
      ensures totalBets == count && totalBetAmount == amount && winningBets == wins && recentBets == recent && betHistory == history
    {
      totalBets, totalBetAmount, winningBets, recentBets, betHistory := count, amount, wins, recent, history;
    }

    /** The share of recorded bets that were won: 0 without bets, otherwise
        the fraction whose product with the number of bets is the number
        won, which lies in [0, 1]. */
    function BettingWinRate(): (r: real)
      reads this`totalBets, this`winningBets, this`betHistory
      ensures totalBets == 0 ==> r == 0.0
      ensures totalBets > 0 ==> r * totalBets as real == winningBets as real
      ensures totalBets == |betHistory| && winningBets == WonCount(betHistory) ==> 0.0 <= r <= 1.0
    {
      if totalBets > 0 then winningBets as real / totalBets as real else 0.0
    }

    /** The mean amount of the recorded bets: 0 without bets, otherwise the
        value whose product with the number of bets is the total amount. */
    function AverageBetAmount(): (r: real)
      reads this`totalBets, this`totalBetAmount
      ensures totalBets == 0 ==> r == 0.0
      ensures totalBets > 0 ==> r * totalBets as real == totalBetAmount
    {
      if totalBets > 0 then totalBetAmount / totalBets as real else 0.0
    }

    // -------------------------------------------------------------------
    // End of a race

    /** The record the statistics keep of a horse for a race of the given
        time: the current shape and weather, its time, the race length over
        that time as its speed, its effective confidence twice, and whether
        it is the winner. */
    ghost function RaceRecord(h: HorseGUI, raceTime: real): RaceStats
      requires raceTime > 0.0 && HasTime(raceLength, h.distance, h.fallen)
      reads this`raceLength, this`track, track`shape, track`weatherCondition, this`winnerHorse
      reads h`distance, h`fallen, h`confidence, h`confidenceModifier
    {
      var t := HorseTime(raceTime, raceLength, h.distance, h.fallen);
      RaceStats(track.shape, track.weatherCondition, t, raceLength as real / t, h.Confidence(), h.Confidence(), h == winnerHorse)
    }

    /** What a horse and the statistics remember of it now. */
    ghost function RecordOf(h: HorseGUI): HorseRecord
      reads h`raceHistory, h`wins, h`totalDistance, h`totalTime, statistics`horseStats
    {
      HorseRecord(h.raceHistory, h.wins, h.totalDistance, h.totalTime, statistics.RaceHistory(h))
    }

    /** A horse's record after a race of the given time: one more history
        line, one more win for the winner, the race length and its time
        added to the totals, and one more statistics record. */
    ghost function Recorded(before: HorseRecord, h: HorseGUI, raceTime: real, timeText: real -> string): HorseRecord
      requires raceTime > 0.0 && HasTime(raceLength, h.distance, h.fallen)
      reads this`raceLength, this`track, track`shape, track`weatherCondition, this`winnerHorse
      reads h`distance, h`fallen, h`confidence, h`confidenceModifier
    {
      var t := HorseTime(raceTime, raceLength, h.distance, h.fallen);
      HorseRecord(before.history + [ResultText(track.shape, timeText(t), h.fallen)],
        before.wins + (if h == winnerHorse then 1 else 0),
        before.totalDistance + raceLength as real, before.totalTime + t,
        before.stats + [RaceRecord(h, raceTime)])
    }

    /** Records one horse's race: its history line, its win when it is the
        winner, the race length and its time added to its totals, and one
        statistics record, whose time is offered to the record for the
        current track and weather. */
    method RecordHorse(horse: HorseGUI, raceTime: real, timeText: real -> string)
      requires raceTime > 0.0 && HasTime(raceLength, horse.distance, horse.fallen) && statistics.Valid()
      modifies horse`wins, horse`raceHistory, horse`totalDistance, horse`totalTime
      modifies statistics`horseStats, statistics`trackRecords, statistics`seenTimes
      ensures statistics.Valid()
      ensures RecordOf(horse) == old(Recorded(RecordOf(horse), horse, raceTime, timeText))
      ensures statistics.horseStats == old(statistics.horseStats)[horse := old(statistics.RaceHistory(horse) + [RaceRecord(horse, raceTime)])]
      ensures var key := TrackKey(track.shape, track.weatherCondition);
        var t := old(HorseTime(raceTime, raceLength, horse.distance, horse.fallen));
        statistics.trackRecords == Improve(old(statistics.trackRecords), key, t)
        && statistics.seenTimes == Offer(old(statistics.seenTimes), key, t)
    {
      ghost var expected := Recorded(RecordOf(horse), horse, raceTime, timeText);
      ghost var record := RaceRecord(horse, raceTime);
      ghost var history := statistics.RaceHistory(horse);
      ghost var key := TrackKey(track.shape, track.weatherCondition);
      var horseTime := HorseTime(raceTime, raceLength, horse.distance, horse.fallen);
      var horseSpeed := raceLength as real / horseTime;
      if horse == winnerHorse {
        horse.AddWin();
      }
      var resultText := ResultText(track.shape, timeText(horseTime), horse.fallen);
      horse.AddRaceResult(resultText);
      horse.UpdateRaceStats(raceLength as real, horseTime);
      var stats := RaceStats(track.shape, track.weatherCondition, horseTime, horseSpeed,
        horse.Confidence(), horse.Confidence(), horse == winnerHorse);
      assert stats == record && TrackKey(stats.trackName, stats.weatherCondition) == key;
      statistics.RecordRace(horse, stats);
      assert statistics.RaceHistory(horse) == history + [record];
    }

    /** Whether the horse in a lane gets a record at the end of the race. */
    ghost predicate Timed(l: int)
      reads this`horseMap, this`raceLength, Horses()`distance, Horses()`fallen
    {
      l in horseMap && horseMap[l] != null && HasTime(raceLength, horseMap[l].distance, horseMap[l].fallen)
    }

    /** The records of the horses in the lanes. */
    ghost function Records(): map<int, HorseRecord>
      reads this`horseMap, statistics`horseStats
      reads Horses()`raceHistory, Horses()`wins, Horses()`totalDistance, Horses()`totalTime
    {
      map l | l in horseMap && horseMap[l] != null :: RecordOf(horseMap[l])
    }

    /** The records a race of the given time leaves: the timed lanes get
        their new record, the others keep theirs. */
    ghost function RecordsAfter(before: map<int, HorseRecord>, raceTime: real, timeText: real -> string): (r: map<int, HorseRecord>)
      requires raceTime > 0.0
      reads this`horseMap, this`raceLength, this`track, track`shape, track`weatherCondition, this`winnerHorse
      reads Horses()`distance, Horses()`fallen, Horses()`confidence, Horses()`confidenceModifier
      ensures r.Keys == before.Keys
    {
      map l | l in before :: if Timed(l) then Recorded(before[l], horseMap[l], raceTime, timeText) else before[l]
    }

    /** Records the race of every horse in a lane, in ascending lane order:
        each timed horse gets its history line, its win, its totals and its
        statistics record, and the track records stay the smallest times
        offered for each track and weather; the horses in other lanes and
        their statistics keep what they had. */
    method RecordResults(raceTime: real, timeText: real -> string)
      requires raceTime > 0.0 && Distinct() && statistics.Valid()
      modifies Horses()`wins, Horses()`raceHistory, Horses()`totalDistance, Horses()`totalTime
      modifies statistics`horseStats, statistics`trackRecords, statistics`seenTimes
      ensures statistics.Valid()
      ensures unchanged(this)
      ensures Records() == old(RecordsAfter(Records(), raceTime, timeText))
      ensures AllFallen() == old(AllFallen())
      ensures unchanged(bettingSystem)
    {
      ghost var start := Records();
      ghost var target := RecordsAfter(start, raceTime, timeText);
      var remaining := horseMap.Keys;
      while remaining != {}
        invariant remaining <= horseMap.Keys
        invariant statistics.Valid()
        invariant LanesRecorded(start, target, remaining)
        decreases remaining
      {
        var lane := LowestLane(remaining);
        RecordLane(lane, raceTime, timeText, start, target, remaining);
        remaining := remaining - {lane};
      }
      AllLanesRecorded(start, target);
    }

    /** Once no lane remains, the lane records are the new ones. */
    lemma AllLanesRecorded(start: map<int, HorseRecord>, target: map<int, HorseRecord>)
      requires start.Keys == target.Keys == set l | l in horseMap && horseMap[l] != null
      requires LanesRecorded(start, target, {})
      ensures Records() == target
    {
      var r := Records();
      assert r.Keys == target.Keys;
      forall l | l in target
        ensures r[l] == target[l]
      {
        assert r[l] == RecordOf(horseMap[l]);
      }
    }

    /** The horse in each lane still to do has its record from before, every
        other one its new record. */
    ghost predicate LanesRecorded(start: map<int, HorseRecord>, target: map<int, HorseRecord>, remaining: set<int>)
      reads this`horseMap, Horses()`raceHistory, Horses()`wins, Horses()`totalDistance, Horses()`totalTime, statistics`horseStats
    {
      forall l :: l in start && l in target && l in horseMap && horseMap[l] != null ==>
        HorseRecord(horseMap[l].raceHistory, horseMap[l].wins, horseMap[l].totalDistance, horseMap[l].totalTime, statistics.RaceHistory(horseMap[l]))
        == if l in remaining then start[l] else target[l]
    }

    /** One step of RecordResults: records the horse in the lane, if it has
        a time, and leaves every other lane's record as it was. */
    method RecordLane(lane: int, raceTime: real, timeText: real -> string, ghost start: map<int, HorseRecord>, ghost target: map<int, HorseRecord>, ghost remaining: set<int>)
      requires raceTime > 0.0 && Distinct() && statistics.Valid()
      requires lane in remaining && lane in horseMap
      requires lane in start ==> lane in target && target[lane] == if Timed(lane) then Recorded(start[lane], horseMap[lane], raceTime, timeText) else start[lane]
      requires LanesRecorded(start, target, remaining)
      modifies Horses()`wins, Horses()`raceHistory, Horses()`totalDistance, Horses()`totalTime
      modifies statistics`horseStats, statistics`trackRecords, statistics`seenTimes
      ensures statistics.Valid()
      ensures LanesRecorded(start, target, remaining - {lane})
    {
      var h := horseMap[lane];
      if h != null && HasTime(raceLength, h.distance, h.fallen) {
        RecordHorse(h, raceTime, timeText);
      }
    }

    /** Settles the bets at the end of a race: with a winner, as
        SettleWinner says; without one but with every horse fallen, as
        SettleRefund says; otherwise nothing happens. */
    method SettleBets()
      requires Consistent()
      modifies this`totalBets, this`totalBetAmount, this`winningBets, this`recentBets, this`betHistory
      modifies bettingSystem`odds, bettingSystem`bets, bettingSystem`totalBets, bettingSystem`playerBalance, bettingSystem`houseBalance
      modifies statistics`horseStats
      ensures Consistent()
      ensures AllFallen() == old(AllFallen())
      ensures unchanged(this`raceRunning, this`racePaused, this`timerRunning, this`endNotifications, this`hasEndListener, this`bestTimes, this`winnerHorse)
      ensures winnerHorse != null ==>
        bettingSystem.odds == (if old(bettingSystem.odds) == map[] then Normalized(PricedOdds(old(bettingSystem.bets))) else old(bettingSystem.odds))
      ensures winnerHorse != null ==>
        var stake := old(bettingSystem.BetOn(winnerHorse));
        betHistory == old(betHistory) + [BetRecord(old(bettingSystem.totalBets), stake > 0.0)]
        && bettingSystem.playerBalance == old(bettingSystem.playerBalance) + stake + Payout(stake, bettingSystem.SettlementOdds(winnerHorse))
        && bettingSystem.bets == map[] && bettingSystem.totalBets == 0.0
        && bettingSystem.Money() == old(bettingSystem.Money())
      ensures winnerHorse == null && old(AllFallen()) ==>
        betHistory == old(betHistory) + [BetRecord(old(bettingSystem.totalBets), false)]
        && bettingSystem.playerBalance == old(bettingSystem.playerBalance) + old(bettingSystem.totalBets)
        && bettingSystem.bets == old(bettingSystem.bets) && bettingSystem.totalBets == old(bettingSystem.totalBets)
      ensures winnerHorse == null && !old(AllFallen()) ==>
        betHistory == old(betHistory) && bettingSystem.playerBalance == old(bettingSystem.playerBalance)
        && bettingSystem.bets == old(bettingSystem.bets) && bettingSystem.totalBets == old(bettingSystem.totalBets)
      ensures Settled(winnerHorse, old(AllFallen()), old(TableNow()), old(betHistory), TableNow(), betHistory, PricedOdds(old(bettingSystem.bets)))
      ensures StatsSettled(winnerHorse, old(TableNow()), TableNow(), old(statistics.horseStats), statistics.horseStats)
    {
      if winnerHorse != null {
        SettleWinner(winnerHorse);
      } else {
        var allFallen := IsAllHorsesFallen();
        if allFallen {
          SettleRefund();
        }
      }
    }

    /** The amount on the table is recorded as a bet, won exactly when the
        player had staked on the winner, and the betting system pays out on
        the winner: the stake and its winnings go to the player, the rest of
        the table to the house, and the table is cleared. */
    method SettleWinner(winner: HorseGUI)
      requires Consistent()
      modifies this`totalBets, this`totalBetAmount, this`winningBets, this`recentBets, this`betHistory
      modifies bettingSystem`odds, bettingSystem`bets, bettingSystem`totalBets, bettingSystem`playerBalance, bettingSystem`houseBalance
      modifies statistics`horseStats
      ensures Consistent()
      ensures AllFallen() == old(AllFallen())
      ensures unchanged(this`raceRunning, this`racePaused, this`timerRunning, this`endNotifications, this`hasEndListener, this`bestTimes, this`winnerHorse)
      ensures bettingSystem.odds == (if old(bettingSystem.odds) == map[] then Normalized(PricedOdds(old(bettingSystem.bets))) else old(bettingSystem.odds))
      ensures var stake := old(bettingSystem.BetOn(winner));
        var payout := Payout(stake, bettingSystem.SettlementOdds(winner));
        betHistory == old(betHistory) + [BetRecord(old(bettingSystem.totalBets), stake > 0.0)]
        && bettingSystem.playerBalance == old(bettingSystem.playerBalance) + stake + payout
        && bettingSystem.houseBalance == old(bettingSystem.houseBalance) + old(bettingSystem.totalBets) - (stake + payout)
        && bettingSystem.bets == map[] && bettingSystem.totalBets == 0.0
        && bettingSystem.Money() == old(bettingSystem.Money())
        && statistics.horseStats == AfterBettingStats(old(statistics.horseStats), winner, payout)
    {
      var total := bettingSystem.TotalBetAmount();
      var stake := bettingSystem.BetOn(winner);
      RecordBet(total, stake > 0.0);
      assert unchanged(bettingSystem) && unchanged(Horses()) && unchanged(track);
      assert bettingSystem.BetOn(winner) == old(bettingSystem.BetOn(winner)) && bettingSystem.Money() == old(bettingSystem.Money());
      PayOut(winner);
    }

    /** The amount on the table is recorded as a lost bet and refunded to
        the player; the stakes stay on the table. */
    method SettleRefund()
      requires Consistent()
      modifies this`totalBets, this`totalBetAmount, this`winningBets, this`recentBets, this`betHistory
      modifies bettingSystem`odds, bettingSystem`bets, bettingSystem`totalBets, bettingSystem`playerBalance, bettingSystem`houseBalance
      modifies statistics`horseStats
      ensures Consistent()
      ensures AllFallen() == old(AllFallen())
      ensures unchanged(this`raceRunning, this`racePaused, this`timerRunning, this`endNotifications, this`hasEndListener, this`bestTimes, this`winnerHorse)
      ensures betHistory == old(betHistory) + [BetRecord(old(bettingSystem.totalBets), false)]
      ensures bettingSystem.playerBalance == old(bettingSystem.playerBalance) + old(bettingSystem.totalBets)
      ensures bettingSystem.bets == old(bettingSystem.bets) && bettingSystem.totalBets == old(bettingSystem.totalBets)
      ensures bettingSystem.odds == old(bettingSystem.odds)
      ensures bettingSystem.houseBalance == old(bettingSystem.houseBalance) && statistics.horseStats == old(statistics.horseStats)
    {
      var total := bettingSystem.TotalBetAmount();
      RecordBet(total, false);
      PayOut(null);
    }

    /** The betting system settles the race on the given winner, or refunds
        the table without one; the race's own state stays as it was. */
    method PayOut(winner: HorseGUI?)
      requires Consistent()
      modifies bettingSystem`odds, bettingSystem`bets, bettingSystem`totalBets, bettingSystem`playerBalance, bettingSystem`houseBalance
      modifies statistics`horseStats
      ensures Consistent()
      ensures AllFallen() == old(AllFallen())
      ensures unchanged(this`raceRunning, this`racePaused, this`timerRunning, this`endNotifications, this`hasEndListener, this`bestTimes, this`winnerHorse, this`betHistory)
      ensures winner == null ==>
        bettingSystem.playerBalance == old(bettingSystem.playerBalance) + old(bettingSystem.totalBets)
        && bettingSystem.bets == old(bettingSystem.bets) && bettingSystem.totalBets == old(bettingSystem.totalBets)
        && bettingSystem.odds == old(bettingSystem.odds)
        && bettingSystem.houseBalance == old(bettingSystem.houseBalance) && statistics.horseStats == old(statistics.horseStats)
      ensures winner != null ==>
        bettingSystem.odds == (if old(bettingSystem.odds) == map[] then Normalized(PricedOdds(old(bettingSystem.bets))) else old(bettingSystem.odds))
      ensures winner != null ==>
        var stake := old(bettingSystem.BetOn(winner));
        var payout := Payout(stake, bettingSystem.SettlementOdds(winner));
        bettingSystem.playerBalance == old(bettingSystem.playerBalance) + stake + payout
        && bettingSystem.houseBalance == old(bettingSystem.houseBalance) + old(bettingSystem.totalBets) - (stake + payout)
        && bettingSystem.bets == map[] && bettingSystem.totalBets == 0.0
        && bettingSystem.Money() == old(bettingSystem.Money())
        && statistics.horseStats == AfterBettingStats(old(statistics.horseStats), winner, payout)
    {
      SettleTable(winner);
    }

    /** The call into the betting system behind PayOut, with the odds it
        settles at read off the race's horses and track afterwards. */
    method SettleTable(winner: HorseGUI?)
      requires bettingSystem.Valid() && bettingSystem.statistics == statistics
      modifies bettingSystem`odds, bettingSystem`bets, bettingSystem`totalBets, bettingSystem`playerBalance, bettingSystem`houseBalance
      modifies statistics`horseStats
      ensures bettingSystem.Valid()
      ensures winner == null ==>
        bettingSystem.playerBalance == old(bettingSystem.playerBalance) + old(bettingSystem.totalBets)
        && bettingSystem.bets == old(bettingSystem.bets) && bettingSystem.totalBets == old(bettingSystem.totalBets)
        && bettingSystem.odds == old(bettingSystem.odds)
        && bettingSystem.houseBalance == old(bettingSystem.houseBalance) && statistics.horseStats == old(statistics.horseStats)
      ensures winner != null ==>
        bettingSystem.odds == (if old(bettingSystem.odds) == map[] then Normalized(PricedOdds(old(bettingSystem.bets))) else old(bettingSystem.odds))
      ensures winner != null ==>
        var stake := old(bettingSystem.BetOn(winner));
        var payout := Payout(stake, bettingSystem.SettlementOdds(winner));
        bettingSystem.playerBalance == old(bettingSystem.playerBalance) + stake + payout
        && bettingSystem.houseBalance == old(bettingSystem.houseBalance) + old(bettingSystem.totalBets) - (stake + payout)
        && bettingSystem.bets == map[] && bettingSystem.totalBets == 0.0
        && bettingSystem.Money() == old(bettingSystem.Money())
        && statistics.horseStats == AfterBettingStats(old(statistics.horseStats), winner, payout)
    {
      bettingSystem.ProcessRaceResult(winner, horses, track);
      PricingKept(old(bettingSystem.bets));
    }

    /** The bookkeeping at the end of a race, given the current time: the
        race time in seconds since the start, the horse records, the best
        time for the track and weather, the settlement of the bets, and one
        run of the end listener when there is one. */
    method ProcessRaceResults(now: int, timeText: real -> string)
      requires Consistent() && now > raceStartTime
      modifies Horses()`wins, Horses()`raceHistory, Horses()`totalDistance, Horses()`totalTime
      modifies statistics`horseStats, statistics`trackRecords, statistics`seenTimes
      modifies this`bestTimes, this`bestSeen
      modifies this`totalBets, this`totalBetAmount, this`winningBets, this`recentBets, this`betHistory
      modifies bettingSystem`odds, bettingSystem`bets, bettingSystem`totalBets, bettingSystem`playerBalance, bettingSystem`houseBalance
      modifies this`endNotifications
      ensures Consistent()
      ensures AllFallen() == old(AllFallen())
      ensures unchanged(this`raceRunning, this`racePaused, this`timerRunning, this`hasEndListener)
      ensures bestTimes == old(ImprovedBestTimes(Seconds(now - raceStartTime)))
      ensures Settled(winnerHorse, old(AllFallen()), old(TableNow()), old(betHistory), TableNow(), betHistory, PricedOdds(old(bettingSystem.bets)))
      ensures LaneStatsSettled(horseMap, winnerHorse, WinnerPayout(winnerHorse, old(TableNow()), TableNow()), old(RecordsAfter(Records(), Seconds(now - raceStartTime), timeText)), LaneView(horseMap, statistics.horseStats))
      ensures endNotifications == old(endNotifications) + (if hasEndListener then 1 else 0)
    {
      var raceTime := Seconds(now - raceStartTime);
      RecordResults(raceTime, timeText);
      Conclude(raceTime);
    }

    /** ProcessRaceResults once the horse records are written. */
    method Conclude(raceTime: real)
      requires Consistent()
      modifies statistics`horseStats
      modifies this`bestTimes, this`bestSeen
      modifies this`totalBets, this`totalBetAmount, this`winningBets, this`recentBets, this`betHistory
      modifies bettingSystem`odds, bettingSystem`bets, bettingSystem`totalBets, bettingSystem`playerBalance, bettingSystem`houseBalance
      modifies this`endNotifications
      ensures Consistent()
      ensures AllFallen() == old(AllFallen())
      ensures unchanged(this`raceRunning, this`racePaused, this`timerRunning, this`hasEndListener)
      ensures bestTimes == old(ImprovedBestTimes(raceTime))
      ensures Settled(winnerHorse, old(AllFallen()), old(TableNow()), old(betHistory), TableNow(), betHistory, PricedOdds(old(bettingSystem.bets)))
      ensures StatsSettled(winnerHorse, old(TableNow()), TableNow(), old(statistics.horseStats), statistics.horseStats)
      ensures LaneStatsSettled(horseMap, winnerHorse, WinnerPayout(winnerHorse, old(TableNow()), TableNow()), old(Records()), LaneView(horseMap, statistics.horseStats))
      ensures endNotifications == old(endNotifications) + (if hasEndListener then 1 else 0)
    {
      ghost var written, stats := Records(), statistics.horseStats;
      assert forall l :: l in written ==> written[l].stats == LaneView(horseMap, stats)[l];
      UpdateBestTime(raceTime);
      SettleAndNotify();
      LanesSettled(horseMap, winnerHorse, WinnerPayout(winnerHorse, old(TableNow()), TableNow()), written, stats, statistics.horseStats);
    }

    /** The settlement of the bets, then one run of the end listener. */
    method SettleAndNotify()
      requires Consistent()
      modifies statistics`horseStats
      modifies this`totalBets, this`totalBetAmount, this`winningBets, this`recentBets, this`betHistory
      modifies bettingSystem`odds, bettingSystem`bets, bettingSystem`totalBets, bettingSystem`playerBalance, bettingSystem`houseBalance
      modifies this`endNotifications
      ensures Consistent()
      ensures AllFallen() == old(AllFallen())
      ensures unchanged(this`raceRunning, this`racePaused, this`timerRunning, this`hasEndListener, this`bestTimes)
      ensures Settled(winnerHorse, old(AllFallen()), old(TableNow()), old(betHistory), TableNow(), betHistory, PricedOdds(old(bettingSystem.bets)))
      ensures StatsSettled(winnerHorse, old(TableNow()), TableNow(), old(statistics.horseStats), statistics.horseStats)
      ensures endNotifications == old(endNotifications) + (if hasEndListener then 1 else 0)
    {
      SettleBets();
      NotifyEnd(old(bettingSystem.bets));
    }

    /** Runs the end listener once, when there is one. */
    method NotifyEnd(ghost stakes: map<HorseGUI, real>)
      requires Consistent()
      modifies this`endNotifications
      ensures PricedOdds(stakes) == old(PricedOdds(stakes))
      ensures Consistent()
      ensures unchanged(this`raceRunning, this`racePaused, this`timerRunning, this`bestTimes, this`betHistory, this`winnerHorse) && AllFallen() == old(AllFallen())
      ensures TableNow() == old(TableNow())
      ensures endNotifications == old(endNotifications) + (if hasEndListener then 1 else 0)
    {
      if hasEndListener {
        endNotifications := endNotifications + 1;
      }
      PricingKept(stakes);
    }

    // -------------------------------------------------------------------
    // Timer ticks

    /** One update of a running race: every horse takes its turn; when a
        horse has finished (a zero-length race has no finisher) or every
        horse has fallen, the race stops running, its results are
        processed, and the end listener, which the processing already ran
        once, runs a second time. A race that goes on has its horses
        advanced, no finisher, a standing horse and its records untouched. */
    method UpdateRace(draw: int -> Draw, now: int, timeText: real -> string)
      requires Valid() && raceRunning && !racePaused && now > raceStartTime
      modifies Horses()`distance, Horses()`fallen, Horses()`winner
      modifies Horses()`wins, Horses()`raceHistory, Horses()`totalDistance, Horses()`totalTime
      modifies statistics`horseStats, statistics`trackRecords, statistics`seenTimes
      modifies this`winnerHorse, this`raceRunning, this`racePaused, this`timerRunning, this`bestTimes, this`bestSeen
      modifies this`totalBets, this`totalBetAmount, this`winningBets, this`recentBets, this`betHistory
      modifies bettingSystem`odds, bettingSystem`bets, bettingSystem`totalBets, bettingSystem`playerBalance, bettingSystem`houseBalance
      modifies this`endNotifications
      ensures Valid()
      ensures raceRunning ==> (timerRunning
        && (forall l :: l in horseMap && horseMap[l] != null ==> Pos(horseMap[l]) == old(Advanced(horseMap[l], draw(l))))
        && !(raceLength != 0 && FinishedLanes() != {}) && !AllFallen()
        && bestTimes == old(bestTimes) && betHistory == old(betHistory) && endNotifications == old(endNotifications))
      ensures raceRunning ==> (unchanged(bettingSystem) && unchanged(statistics)
        && unchanged(this`winnerHorse, this`totalBets, this`totalBetAmount, this`winningBets, this`recentBets, this`bestSeen)
        && unchanged(Horses()`wins, Horses()`raceHistory, Horses()`totalDistance, Horses()`totalTime))
      ensures !raceRunning ==> !timerRunning && endNotifications == old(endNotifications) + (if hasEndListener then 2 else 0)
      ensures !raceRunning ==> (bestTimes == old(ImprovedBestTimes(Seconds(now - raceStartTime)))
        && Settled(winnerHorse, AllFallen(), old(TableNow()), old(betHistory), TableNow(), betHistory, PricedOdds(old(bettingSystem.bets))))
    {
      ghost var table := TableNow();
      var over := MoveAndJudge(draw);
      assert TableNow() == table;
      if over {
        FinishRace(now, timeText);
      }
    }

    /** Every horse takes its turn; then the race is over when a horse has
        finished, and the one in the lowest finished lane is marked as the
        winner, or when every horse has fallen. */
    method MoveAndJudge(draw: int -> Draw) returns (over: bool)
      requires Valid()
      modifies Horses()`distance, Horses()`fallen, Horses()`winner, this`winnerHorse
      ensures Valid()
      ensures unchanged(this`raceRunning, this`racePaused, this`timerRunning, this`hasEndListener, this`endNotifications)
      ensures unchanged(this`bestTimes, this`betHistory, this`raceStartTime)
      ensures forall l :: l in horseMap && horseMap[l] != null ==> Pos(horseMap[l]) == old(Advanced(horseMap[l], draw(l)))
      ensures over <==> (raceLength != 0 && FinishedLanes() != {}) || AllFallen()
      ensures !over ==> winnerHorse == old(winnerHorse)
    {
      MoveAll(draw);
      over := RaceWonBy();
      if !over {
        over := IsAllHorsesFallen();
      }
    }

    /** The end of a race: it stops running, the results are processed and
        the end listener runs once more. */
    method FinishRace(now: int, timeText: real -> string)
      requires Valid() && now > raceStartTime
      modifies Horses()`wins, Horses()`raceHistory, Horses()`totalDistance, Horses()`totalTime
      modifies statistics`horseStats, statistics`trackRecords, statistics`seenTimes
      modifies this`raceRunning, this`racePaused, this`timerRunning, this`bestTimes, this`bestSeen
      modifies this`totalBets, this`totalBetAmount, this`winningBets, this`recentBets, this`betHistory
      modifies bettingSystem`odds, bettingSystem`bets, bettingSystem`totalBets, bettingSystem`playerBalance, bettingSystem`houseBalance
      modifies this`endNotifications
      ensures Valid() && !raceRunning && !racePaused && !timerRunning
      ensures unchanged(this`hasEndListener)
      ensures AllFallen() == old(AllFallen())
      ensures bestTimes == old(ImprovedBestTimes(Seconds(now - raceStartTime)))
      ensures Settled(winnerHorse, old(AllFallen()), old(TableNow()), old(betHistory), TableNow(), betHistory, PricedOdds(old(bettingSystem.bets)))
      ensures endNotifications == old(endNotifications) + (if hasEndListener then 2 else 0)
    {
      SetRunState(false, false);
      ProcessRaceResults(now, timeText);
      NotifyEnd(old(bettingSystem.bets));
    }

    /** One firing of the race timer: the race is updated when it is running
        and not paused, and nothing happens otherwise. */
    method TimerTick(draw: int -> Draw, now: int, timeText: real -> string)
      requires Valid() && now > raceStartTime
      modifies Horses()`distance, Horses()`fallen, Horses()`winner
      modifies Horses()`wins, Horses()`raceHistory, Horses()`totalDistance, Horses()`totalTime
      modifies statistics`horseStats, statistics`trackRecords, statistics`seenTimes
      modifies this`winnerHorse, this`raceRunning, this`racePaused, this`timerRunning, this`bestTimes, this`bestSeen
      modifies this`totalBets, this`totalBetAmount, this`winningBets, this`recentBets, this`betHistory
      modifies bettingSystem`odds, bettingSystem`bets, bettingSystem`totalBets, bettingSystem`playerBalance, bettingSystem`houseBalance
      modifies this`endNotifications
      ensures Valid()
      ensures !old(timerRunning) ==> unchanged(this) && unchanged(Horses()) && unchanged(bettingSystem) && unchanged(statistics)
      ensures old(timerRunning) && raceRunning ==>
        (forall l :: l in horseMap && horseMap[l] != null ==> Pos(horseMap[l]) == old(Advanced(horseMap[l], draw(l))))
        && !(raceLength != 0 && FinishedLanes() != {}) && !AllFallen()
        && bestTimes == old(bestTimes) && betHistory == old(betHistory) && endNotifications == old(endNotifications)
      ensures old(timerRunning) && raceRunning ==> (unchanged(bettingSystem) && unchanged(statistics)
        && unchanged(this`winnerHorse, this`totalBets, this`totalBetAmount, this`winningBets, this`recentBets, this`bestSeen)
        && unchanged(Horses()`wins, Horses()`raceHistory, Horses()`totalDistance, Horses()`totalTime))
      ensures old(timerRunning) && !raceRunning ==> endNotifications == old(endNotifications) + (if hasEndListener then 2 else 0)
      ensures old(timerRunning) && !raceRunning ==> (bestTimes == old(ImprovedBestTimes(Seconds(now - raceStartTime)))
        && Settled(winnerHorse, AllFallen(), old(TableNow()), old(betHistory), TableNow(), betHistory, PricedOdds(old(bettingSystem.bets))))
    {
      if raceRunning && !racePaused {
        UpdateRace(draw, now, timeText);
      }
    }
  }
}
