/**
 * The blocking console race (Race.java): horses in numbered lanes, each tick
 * every standing horse may move one unit and may fall, and the race ends on
 * the first tick in which a horse has reached the finish or every lane is
 * empty or fallen.
 *
 * Math.random() is replaced by draws the caller supplies: for every tick a
 * function from lane to the two values that horse draws in that tick.
 */
module ConsoleRace {
  import opened UnclampedHorse
  import opened Common

  /** Below this draw a standing horse advances. */
  function MoveChance(confidence: real): real
  {
    confidence * 0.9
  }

  /** Below this draw a standing horse falls. */
  function FallChance(confidence: real): real
  {
    0.02 * (1.5 - confidence)
  }

  /** What one tick does to a horse's place: a fallen horse stays where it
      is; a standing one moves on the first draw and, independently, falls on
      the second. */
  function Step(p: Position, confidence: real, d: Draw): (r: Position)
    ensures p.fallen ==> r == p
    ensures p.distance <= r.distance <= p.distance + 1
    ensures !p.fallen ==> (r.distance == p.distance + 1 <==> d.move < MoveChance(confidence))
    ensures !p.fallen ==> (r.fallen <==> d.fall < FallChance(confidence))
  {
    if p.fallen then p
    else
      Position(if d.move < MoveChance(confidence) then p.distance + 1 else p.distance,
               d.fall < FallChance(confidence))
  }

  /** A horse that has fallen stays put, tick after tick, until it is reset. */
  lemma {:induction false} FallenStaysPut(p: Position, confidence: real, ds: seq<Draw>)
    requires p.fallen
    ensures Run(p, confidence, ds) == p
    decreases |ds|
  {
    if ds != [] {
      FallenStaysPut(Step(p, confidence, ds[0]), confidence, ds[1..]);
    }
  }

  /** A horse's place after a sequence of ticks. */
  function Run(p: Position, confidence: real, ds: seq<Draw>): Position
    decreases |ds|
  {
    if ds == [] then p else Run(Step(p, confidence, ds[0]), confidence, ds[1..])
  }

  /** Over n ticks a horse covers at most n units. */
  lemma {:induction false} RunAdvancesAtMostOnePerTick(p: Position, confidence: real, ds: seq<Draw>)
    ensures p.distance <= Run(p, confidence, ds).distance <= p.distance + |ds|
    decreases |ds|
  {
    if ds != [] {
      RunAdvancesAtMostOnePerTick(Step(p, confidence, ds[0]), confidence, ds[1..]);
    }
  }

  /** Run over a sequence with one more draw at its end is one more Step. */
  lemma {:induction false} RunSnoc(p: Position, confidence: real, ds: seq<Draw>, d: Draw)
    ensures Run(p, confidence, ds + [d]) == Step(Run(p, confidence, ds), confidence, d)
    decreases |ds|
  {
    if ds == [] {
      assert ds + [d] == [d];
    } else {
      assert (ds + [d])[1..] == ds[1..] + [d];
      RunSnoc(Step(p, confidence, ds[0]), confidence, ds[1..], d);
    }
  }

  /** The draws of one lane, tick by tick. */
  function LaneDraws(draws: seq<int -> Draw>, lane: int): (r: seq<Draw>)
    ensures |r| == |draws|
    ensures forall t :: 0 <= t < |draws| ==> r[t] == draws[t](lane)
  {
    seq(|draws|, t requires 0 <= t < |draws| => draws[t](lane))
  }

  /** Where a horse of the given confidence stands after the first n ticks of
      a race, having started at the gate. */
  function PlaceAfter(confidence: real, draws: seq<int -> Draw>, lane: int, n: nat): Position
    requires n <= |draws|
  {
    Run(Position(0, false), confidence, LaneDraws(draws[..n], lane))
  }

  /** Each tick moves a horse's place on by exactly one Step. */
  lemma PlaceAfterNext(confidence: real, draws: seq<int -> Draw>, lane: int, n: nat)
    requires n < |draws|
    ensures PlaceAfter(confidence, draws, lane, n + 1)
         == Step(PlaceAfter(confidence, draws, lane, n), confidence, draws[n](lane))
  {
    assert LaneDraws(draws[..n + 1], lane) == LaneDraws(draws[..n], lane) + [draws[n](lane)];
    RunSnoc(Position(0, false), confidence, LaneDraws(draws[..n], lane), draws[n](lane));
  }

  /** After n ticks some horse (lanes and confidences in field) has run
      exactly the race length; a zero-length race is never won. */
  predicate SomeoneFinished(field: map<int, real>, raceLength: int, draws: seq<int -> Draw>, n: nat)
    requires n <= |draws|
  {
    raceLength != 0 && exists l :: l in field && PlaceAfter(field[l], draws, l, n).distance == raceLength
  }

  /** After n ticks every horse of the field has fallen. */
  predicate EveryoneFallen(field: map<int, real>, draws: seq<int -> Draw>, n: nat)
    requires n <= |draws|
  {
    forall l :: l in field ==> PlaceAfter(field[l], draws, l, n).fallen
  }

  /** The race loop's record after n ticks: no earlier tick ended the race,
      and won and allFallen report the checks made after tick n. */
  predicate Stopped(field: map<int, real>, raceLength: int, draws: seq<int -> Draw>, n: nat, won: bool, allFallen: bool)
    requires n <= |draws|
  {
    (forall t :: 0 < t < n ==> !SomeoneFinished(field, raceLength, draws, t) && !EveryoneFallen(field, draws, t))
    && (n > 0 ==> (won <==> SomeoneFinished(field, raceLength, draws, n)) && (allFallen <==> EveryoneFallen(field, draws, n)))
    && (n == 0 ==> !won && !allFallen)
  }

  /** A tick taken because neither check had fired extends the record. */
  lemma StoppedNext(field: map<int, real>, raceLength: int, draws: seq<int -> Draw>, n: nat, won: bool, allFallen: bool)
    requires n < |draws| && Stopped(field, raceLength, draws, n, false, false)
    requires won == SomeoneFinished(field, raceLength, draws, n + 1)
    requires allFallen == EveryoneFallen(field, draws, n + 1)
    ensures Stopped(field, raceLength, draws, n + 1, won, allFallen)
  {
  }

  /** A horse that has fallen within the first n ticks is still fallen, and
      no further on, after any later tick. */
  lemma {:induction false} FallenStaysFallen(confidence: real, draws: seq<int -> Draw>, lane: int, n: nat, m: nat)
    requires n <= m <= |draws|
    requires PlaceAfter(confidence, draws, lane, n).fallen
    ensures PlaceAfter(confidence, draws, lane, m) == PlaceAfter(confidence, draws, lane, n)
    decreases m - n
  {
    if m > n {
      FallenStaysFallen(confidence, draws, lane, n, m - 1);
      PlaceAfterNext(confidence, draws, lane, m - 1);
    }
  }

  class Race {
    var raceLength: int
    var horseMap: map<int, Horse?>
    var winnerHorse: Horse?

    /** The horses standing in some lane. */
    ghost function Horses(): set<Horse>
      reads this
    {
      set l | l in horseMap && horseMap[l] != null :: horseMap[l]
    }

    /** No horse stands in two lanes. */
    ghost predicate Valid()
      reads this
    {
      forall a, b :: a in horseMap && b in horseMap && horseMap[a] != null && horseMap[a] == horseMap[b] ==> a == b
    }

    ghost function Pos(h: Horse): Position
      reads h
    {
      Position(h.distance, h.fallen)
    }

    /** Lanes whose horse has run exactly the race length. */
    ghost function FinishedLanes(): set<int>
      reads this, Horses()
    {
      set l | l in horseMap && horseMap[l] != null && horseMap[l].distance == raceLength
    }

    /** The recorded winner is the horse in the lowest lane whose horse has
        run exactly the race length. */
    ghost predicate LowestFinisherWon()
      reads this, Horses()
    {
      exists l :: l in FinishedLanes() && (forall k :: k in FinishedLanes() ==> l <= k) && winnerHorse == horseMap[l]
    }

    /** Exactly the recorded winner carries the winner flag. */
    ghost predicate WinnerFlags()
      reads this, Horses()
    {
      forall l :: l in horseMap && horseMap[l] != null ==> (horseMap[l].winner <==> horseMap[l] == winnerHorse)
    }

    /** No horse has run further than bound. */
    ghost predicate NoneBeyond(bound: int)
      reads this, Horses()
    {
      forall l :: l in horseMap && horseMap[l] != null ==> horseMap[l].distance <= bound
    }

    /** Every lane is empty or holds a fallen horse. */
    ghost predicate AllFallen()
      reads this, Horses()
    {
      forall l :: l in horseMap && horseMap[l] != null ==> horseMap[l].fallen
    }

    /** The occupied lanes and the confidence of the horse in each. */
    ghost function Confidences(): (field: map<int, real>)
      reads this, Horses()
      ensures forall l :: l in field <==> l in horseMap && horseMap[l] != null
    {
      map l | l in horseMap && horseMap[l] != null :: horseMap[l].confidence
    }

    /** The four horses of the console race and an empty fifth lane. */
    constructor (distance: int)
      ensures Valid()
      ensures raceLength == distance && winnerHorse == null
      ensures horseMap.Keys == {0, 1, 2, 3, 4} && horseMap[4] == null
      ensures forall l :: 0 <= l < 4 ==> horseMap[l] != null && fresh(horseMap[l])
      ensures forall l :: 0 <= l < 4 ==> Pos(horseMap[l]) == Position(0, false) && !horseMap[l].winner
      ensures horseMap[0].confidence == 0.45 && horseMap[1].confidence == 0.65
      ensures horseMap[2].confidence == 0.35 && horseMap[3].confidence == 0.75
      ensures horseMap[0].symbol == '>' && horseMap[0].name == " Le Horse"
      ensures horseMap[1].symbol == '^' && horseMap[1].name == " Solider"
      ensures horseMap[2].symbol == '#' && horseMap[2].name == " The Castle"
      ensures horseMap[3].symbol == '*' && horseMap[3].name == " King"
    {
      raceLength := distance;
      var h0 := new Horse('>', " Le Horse", 0.45);
      var h1 := new Horse('^', " Solider", 0.65);
      var h2 := new Horse('#', " The Castle", 0.35);
      var h3 := new Horse('*', " King", 0.75);
      horseMap := map[0 := h0, 1 := h1, 2 := h2, 3 := h3, 4 := null];
      winnerHorse := null;
    }

    /** A lane that is missing from the map or mapped to null is free. */
    ghost predicate FreeLane(laneNumber: int)
      reads this
    {
      laneNumber !in horseMap || horseMap[laneNumber] == null
    }

    /** Puts a horse in a lane only when the lane is free: a lane that is
        missing or holds null takes the horse, a lane holding a horse keeps
        it (the behaviour of putIfAbsent). */
    method AddHorse(theHorse: Horse?, laneNumber: int)
      requires Valid()
      requires FreeLane(laneNumber) && theHorse != null ==> theHorse !in Horses()
      modifies this`horseMap
      ensures Valid()
      ensures !old(FreeLane(laneNumber)) ==> horseMap == old(horseMap)
      ensures old(FreeLane(laneNumber)) ==> horseMap == old(horseMap)[laneNumber := theHorse]
    {
      if laneNumber !in horseMap || horseMap[laneNumber] == null {
        horseMap := horseMap[laneNumber := theHorse];
      }
    }

    /** One horse's turn in a tick. */
    method MoveHorse(theHorse: Horse, d: Draw)
      modifies theHorse
      ensures Pos(theHorse) == Step(old(Pos(theHorse)), theHorse.confidence, d)
      ensures theHorse.confidence == old(theHorse.confidence) && theHorse.winner == old(theHorse.winner)
      ensures theHorse.symbol == old(theHorse.symbol) && theHorse.name == old(theHorse.name)
    {
      if !theHorse.fallen {
        var moveChance := theHorse.confidence * 0.9;
        var fallChance := 0.02 * (1.5 - theHorse.confidence);
        if d.move < moveChance {
          theHorse.MoveForward();
        }
        if d.fall < fallChance {
          theHorse.Fall();
        }
      }
    }

    /** Every horse takes its turn, in ascending lane order. */
    method Tick(draw: int -> Draw)
      requires Valid()
      modifies Horses()
      ensures forall l :: l in horseMap && horseMap[l] != null ==>
        Pos(horseMap[l]) == Step(old(Pos(horseMap[l])), horseMap[l].confidence, draw(l))
      ensures forall l :: l in horseMap && horseMap[l] != null ==>
        horseMap[l].winner == old(horseMap[l].winner) && horseMap[l].confidence == old(horseMap[l].confidence)
      ensures forall l :: l in horseMap && horseMap[l] != null ==>
        horseMap[l].symbol == old(horseMap[l].symbol) && horseMap[l].name == old(horseMap[l].name)
    {
      var remaining := horseMap.Keys;
      while remaining != {}
        invariant remaining <= horseMap.Keys
        invariant forall l :: l in horseMap && l !in remaining && horseMap[l] != null ==>
          Pos(horseMap[l]) == Step(old(Pos(horseMap[l])), horseMap[l].confidence, draw(l))
        invariant forall l :: l in remaining && horseMap[l] != null ==> Pos(horseMap[l]) == old(Pos(horseMap[l]))
        invariant forall l :: l in horseMap && horseMap[l] != null ==>
          horseMap[l].winner == old(horseMap[l].winner) && horseMap[l].confidence == old(horseMap[l].confidence)
        invariant forall l :: l in horseMap && horseMap[l] != null ==>
          horseMap[l].symbol == old(horseMap[l].symbol) && horseMap[l].name == old(horseMap[l].name)
        decreases remaining
      {
        var lane := LowestLane(remaining);
        var h := horseMap[lane];
        if h != null {
          MoveHorse(h, draw(lane));
        }
        remaining := remaining - {lane};
      }
    }

    /** Marks and records the horse in the lowest lane that has run exactly
        the race length; a zero-length race has no winner. */
    method RaceWonBy() returns (won: bool)
      requires Valid()
      modifies this`winnerHorse, Horses()
      ensures won <==> raceLength != 0 && FinishedLanes() != {}
      ensures forall l :: l in horseMap && horseMap[l] != null ==>
        Pos(horseMap[l]) == old(Pos(horseMap[l])) && horseMap[l].confidence == old(horseMap[l].confidence)
      ensures !won ==> winnerHorse == old(winnerHorse)
      ensures won ==> LowestFinisherWon()
      ensures won ==> winnerHorse != null && winnerHorse.winner
      ensures forall l :: l in horseMap && horseMap[l] != null && horseMap[l] != winnerHorse ==>
        horseMap[l].winner == old(horseMap[l].winner)
    {
      if raceLength == 0 {
        return false;
      }
      var remaining := horseMap.Keys;
      while remaining != {}
        invariant remaining <= horseMap.Keys
        invariant forall a, b :: a in horseMap && a !in remaining && b in remaining ==> a < b
        invariant forall l :: l in horseMap && l !in remaining ==> l !in FinishedLanes()
        invariant winnerHorse == old(winnerHorse)
        invariant forall l :: l in horseMap && horseMap[l] != null ==>
          Pos(horseMap[l]) == old(Pos(horseMap[l])) && horseMap[l].confidence == old(horseMap[l].confidence)
          && horseMap[l].winner == old(horseMap[l].winner)
        decreases remaining
      {
        var lane := LowestLane(remaining);
        var h := horseMap[lane];
        if h != null && h.distance == raceLength {
          h.SetIsWinner(true);
          winnerHorse := h;
          assert lane in FinishedLanes();
          return true;
        }
        remaining := remaining - {lane};
      }
      assert forall l :: l in horseMap ==> l !in remaining;
      assert forall l :: l !in FinishedLanes();
      assert FinishedLanes() == {};
      return false;
    }

    /** Whether every lane is empty or holds a fallen horse, by counting. */
    method IsAllHorsesFallen() returns (r: bool)
      ensures r <==> AllFallen()
    {
      var fallenCount, nullCount, seen := 0, 0, 0;
      var remaining := horseMap.Keys;
      while remaining != {}
        invariant remaining <= horseMap.Keys
        invariant seen + |remaining| == |horseMap|
        invariant fallenCount + nullCount <= seen
        invariant fallenCount + nullCount == seen <==>
          forall l :: l in horseMap && l !in remaining && horseMap[l] != null ==> horseMap[l].fallen
        decreases remaining
      {
        var lane := LowestLane(remaining);
        var h := horseMap[lane];
        if h == null {
          nullCount := nullCount + 1;
        } else if h.fallen {
          fallenCount := fallenCount + 1;
        }
        seen := seen + 1;
        remaining := remaining - {lane};
      }
      r := fallenCount + nullCount == |horseMap|;
    }

    /** Brings every horse back to the start, clears every winner flag and
        forgets the previous winner. */
    method ResetHorses()
      requires Valid()
      modifies this`winnerHorse, Horses()
      ensures winnerHorse == null
      ensures forall l :: l in horseMap && horseMap[l] != null ==>
        Pos(horseMap[l]) == Position(0, false) && !horseMap[l].winner && horseMap[l].confidence == old(horseMap[l].confidence)
    {
      var remaining := horseMap.Keys;
      while remaining != {}
        invariant remaining <= horseMap.Keys
        invariant forall l :: l in horseMap && l !in remaining && horseMap[l] != null ==>
          Pos(horseMap[l]) == Position(0, false) && !horseMap[l].winner
        invariant forall l :: l in horseMap && horseMap[l] != null ==> horseMap[l].confidence == old(horseMap[l].confidence)
        decreases remaining
      {
        var lane := LowestLane(remaining);
        var h := horseMap[lane];
        if h != null {
          h.SetIsWinner(false);
          h.GoBackToStart();
        }
        remaining := remaining - {lane};
      }
      winnerHorse := null;
    }

    /** Every horse stands where its own draws for the first n ticks take
        it from the gate, field giving each occupied lane's confidence. */
    ghost predicate Placed(field: map<int, real>, draws: seq<int -> Draw>, n: nat)
      requires n <= |draws|
      reads this, Horses()
    {
      (forall l :: l in field <==> l in horseMap && horseMap[l] != null)
      && forall l :: l in horseMap && horseMap[l] != null ==>
           l in field && horseMap[l].confidence == field[l] && Pos(horseMap[l]) == PlaceAfter(field[l], draws, l, n)
    }

    /** With the horses placed after n ticks, the winner check succeeds
        exactly when some horse has run the race length by then. */
    lemma FinishedAfter(field: map<int, real>, draws: seq<int -> Draw>, n: nat)
      requires n <= |draws| && Placed(field, draws, n)
      ensures (raceLength != 0 && FinishedLanes() != {}) <==> SomeoneFinished(field, raceLength, draws, n)
    {
      forall l | l in FinishedLanes()
        ensures raceLength != 0 ==> SomeoneFinished(field, raceLength, draws, n)
      {
        assert PlaceAfter(field[l], draws, l, n).distance == raceLength;
      }
      if SomeoneFinished(field, raceLength, draws, n) {
        var l :| l in field && PlaceAfter(field[l], draws, l, n).distance == raceLength;
        assert l in FinishedLanes();
      }
    }

    /** With the horses placed after n ticks, the track is all fallen exactly
        when every horse of the field is down by then. */
    lemma FallenAfter(field: map<int, real>, draws: seq<int -> Draw>, n: nat)
      requires n <= |draws| && Placed(field, draws, n)
      ensures AllFallen() <==> EveryoneFallen(field, draws, n)
    {
    }

    /** Runs the race: reset, then one tick per element of draws until a tick
        reports a winner or an all-fallen track (both checks run every tick),
        or the supplied draws run out. Every horse ends where its own draws
        for the ticks used take it from the gate; the race stops at the first
        tick after which some horse has run the race length or every horse is
        down, and the winner is the horse in the lowest finished lane. */
    method StartRace(draws: seq<int -> Draw>) returns (won: bool, allFallen: bool, ticks: nat)
      requires Valid()
      modifies this`winnerHorse, Horses()
      ensures ticks <= |draws| && (|draws| > 0 ==> ticks > 0)
      ensures forall l :: l in horseMap && horseMap[l] != null ==> horseMap[l].confidence == old(horseMap[l].confidence)
      ensures forall l :: l in horseMap && horseMap[l] != null ==>
        Pos(horseMap[l]) == PlaceAfter(horseMap[l].confidence, draws, l, ticks)
      ensures forall t :: 0 < t < ticks ==>
        !SomeoneFinished(Confidences(), raceLength, draws, t) && !EveryoneFallen(Confidences(), draws, t)
      ensures ticks > 0 ==> (won <==> SomeoneFinished(Confidences(), raceLength, draws, ticks))
      ensures ticks > 0 ==> (allFallen <==> EveryoneFallen(Confidences(), draws, ticks))
      ensures ticks < |draws| ==> won || allFallen
      ensures won ==> LowestFinisherWon()
      ensures !won ==> winnerHorse == null
      ensures WinnerFlags()
      ensures raceLength > 0 ==> NoneBeyond(raceLength)
    {
      ResetHorses();
      ghost var field := Confidences();
      won, allFallen, ticks := false, false, 0;
      while !won && !allFallen && ticks < |draws|
        invariant Valid()
        invariant ticks <= |draws|
        invariant forall l :: l in field ==> l in old(horseMap) && old(horseMap[l]) != null && field[l] == old(horseMap[l].confidence)
        invariant Placed(field, draws, ticks)
        invariant Stopped(field, raceLength, draws, ticks, won, allFallen)
        invariant won ==> LowestFinisherWon()
        invariant !won ==> winnerHorse == null
        invariant WinnerFlags()
        invariant raceLength > 0 && !won ==> NoneBeyond(raceLength - 1)
        invariant raceLength > 0 ==> NoneBeyond(raceLength)
        decreases |draws| - ticks
      {
        won, allFallen := Round(draws, ticks, field);
        StoppedNext(field, raceLength, draws, ticks, won, allFallen);
        ticks := ticks + 1;
      }
      assert Confidences() == field;
    }

    /** Every horse takes its turn with the draws of tick n, which carries
        the placing after n ticks to the placing after n + 1. */
    method TickPlaced(draws: seq<int -> Draw>, n: nat, ghost field: map<int, real>)
      requires Valid() && n < |draws| && Placed(field, draws, n)
      requires WinnerFlags()
      requires raceLength > 0 ==> NoneBeyond(raceLength - 1)
      modifies Horses()
      ensures Placed(field, draws, n + 1)
      ensures WinnerFlags()
      ensures raceLength > 0 ==> NoneBeyond(raceLength)
    {
      label before:
      Tick(draws[n]);
      forall l | l in horseMap && horseMap[l] != null
        ensures Pos(horseMap[l]) == PlaceAfter(field[l], draws, l, n + 1)
      {
        assert old@before(Pos(horseMap[l])) == PlaceAfter(field[l], draws, l, n);
        PlaceAfterNext(field[l], draws, l, n);
      }
    }

    /** The winner check after tick n, with the horses placed by then:
        it fires exactly when some horse has run the race length. */
    method CheckWinner(draws: seq<int -> Draw>, n: nat, ghost field: map<int, real>) returns (won: bool)
      requires Valid() && n <= |draws| && Placed(field, draws, n)
      requires winnerHorse == null && WinnerFlags()
      requires raceLength > 0 ==> NoneBeyond(raceLength)
      modifies this`winnerHorse, Horses()
      ensures Placed(field, draws, n)
      ensures won <==> SomeoneFinished(field, raceLength, draws, n)
      ensures won ==> LowestFinisherWon()
      ensures !won ==> winnerHorse == null
      ensures WinnerFlags()
      ensures raceLength > 0 && !won ==> NoneBeyond(raceLength - 1)
      ensures raceLength > 0 ==> NoneBeyond(raceLength)
    {
      won := RaceWonBy();
      FinishedAfter(field, draws, n);
      if !won && raceLength > 0 {
        forall l | l in horseMap && horseMap[l] != null
          ensures horseMap[l].distance <= raceLength - 1
        {
          assert l !in FinishedLanes();
        }
      }
    }

    /** One pass of the race loop: every horse takes its turn with the draws
        of tick n, then the winner check and the all-fallen check run. */
    method Round(draws: seq<int -> Draw>, n: nat, ghost field: map<int, real>) returns (won: bool, allFallen: bool)
      requires Valid() && n < |draws| && Placed(field, draws, n)
      requires winnerHorse == null && WinnerFlags()
      requires raceLength > 0 ==> NoneBeyond(raceLength - 1)
      modifies this`winnerHorse, Horses()
      ensures Placed(field, draws, n + 1)
      ensures won <==> SomeoneFinished(field, raceLength, draws, n + 1)
      ensures allFallen <==> EveryoneFallen(field, draws, n + 1)
      ensures won ==> LowestFinisherWon()
      ensures !won ==> winnerHorse == null
      ensures WinnerFlags()
      ensures raceLength > 0 && !won ==> NoneBeyond(raceLength - 1)
      ensures raceLength > 0 ==> NoneBeyond(raceLength)
    {
      TickPlaced(draws, n, field);
      won := CheckWinner(draws, n + 1, field);
      label judged:
      allFallen := IsAllHorsesFallen();
      assert unchanged@judged(this) && unchanged@judged(Horses());
      FallenAfter(field, draws, n + 1);
    }
  }

  /** The start-up sequence of the console program (Main.java): a race of
      length 20 and three further horses offered for lanes 1 to 3, which are
      already taken, so the roster stays the constructor's. */
  method MainSetUp() returns (race: Race)
    ensures race.Valid() && race.raceLength == 20
    ensures race.horseMap.Keys == {0, 1, 2, 3, 4} && race.horseMap[4] == null
    ensures race.horseMap[1] != null && race.horseMap[1].confidence == 0.65
    ensures race.horseMap[2] != null && race.horseMap[2].confidence == 0.35
    ensures race.horseMap[3] != null && race.horseMap[3].confidence == 0.75
  {
    race := new Race(20);
    var h1 := new Horse('H', "Horse 1", 0.5);
    var h2 := new Horse('S', "Horse 2", 0.7);
    var h3 := new Horse('C', "Horse 3", 0.4);
    race.AddHorse(h1, 1);
    race.AddHorse(h2, 2);
    race.AddHorse(h3, 3);
  }
}
