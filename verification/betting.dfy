/**
 * The betting ledger of the graphical race (Phase-2/BettingSystem.java):
 * bets per horse, the player's and the house's balances, and the odds table
 * computed from five factors per horse and then spread out.
 */
module Betting {
  import opened Common
  import opened HorseCustomisation
  import opened RaceTrack
  import opened RaceStatistics

  /** Java's Math.max(floor, x). */
  function AtLeast(floor: real, x: real): (r: real)
    ensures r >= floor && r >= x && (r == floor || r == x)
  {
    if floor >= x then floor else x
  }

  // ---------------------------------------------------------------------
  // Recent form

  /** The score of one recorded result: 1.2 if it mentions a win, else 0.8
      if it mentions a fall, else 1.0. */
  function Score(result: string): (r: real)
    ensures 0.8 <= r <= 1.2
  {
    if Contains(result, "won") then 1.2 else if Contains(result, "fell") then 0.8 else 1.0
  }

  /** The triangle number k(k+1)/2, in integer arithmetic as the source
      computes it. */
  function Triangle(k: nat): int
  {
    k * (k + 1) / 2
  }

  /** The weights given to the newest m of the last k results: k, k-1, ... */
  function WeightSum(k: nat, m: nat): int
    requires m <= k
  {
    if m == 0 then 0 else WeightSum(k, m - 1) + (k - m + 1)
  }

  /** The weighted scores of the newest m of the last k results: the newest
      result weighs k, the one before it k-1, and so on. */
  function FormSum(h: seq<string>, k: nat, m: nat): real
    requires m <= k <= |h|
  {
    if m == 0 then 0.0 else FormSum(h, k, m - 1) + Score(h[|h| - m]) * (k - m + 1) as real
  }

  /** The recent-form factor of a history: 1.0 with no results, otherwise
      0.8 plus 0.4 times the weighted mean score of the last five results
      (or of all of them, when fewer). */
  function RecentForm(h: seq<string>): real
  {
    if h == [] then 1.0
    else
      var k := if 5 < |h| then 5 else |h|;
      0.8 + FormSum(h, k, k) / Triangle(k) as real * 0.4
  }

  lemma {:induction false} WeightSumClosed(k: nat, m: nat)
    requires m <= k
    ensures 2 * WeightSum(k, m) == m * (2 * k - m + 1)
  {
    if m > 0 {
      WeightSumClosed(k, m - 1);
      assert (m - 1) * (2 * k - m + 2) + 2 * (k - m + 1) == m * (2 * k - m + 1);
    }
  }

  lemma ScoreTimesWeight(s: real, w: real)
    requires 0.8 <= s <= 1.2 && w >= 0.0
    ensures 0.8 * w <= s * w <= 1.2 * w
  {
    assert (s - 0.8) * w >= 0.0;
    assert (1.2 - s) * w >= 0.0;
  }

  lemma {:induction false} FormSumWithin(h: seq<string>, k: nat, m: nat)
    requires m <= k <= |h|
    ensures 0.8 * WeightSum(k, m) as real <= FormSum(h, k, m) <= 1.2 * WeightSum(k, m) as real
  {
    if m > 0 {
      FormSumWithin(h, k, m - 1);
      ScoreTimesWeight(Score(h[|h| - m]), (k - m + 1) as real);
    }
  }

  /** The weighted mean score lies in [0.8, 1.2], so any non-empty history
      gets a recent-form factor in [1.12, 1.28]. */
  lemma RecentFormWithin(h: seq<string>)
    ensures h == [] ==> RecentForm(h) == 1.0
    ensures h != [] ==> 1.12 <= RecentForm(h) <= 1.28
  {
    if h != [] {
      var k := if 5 < |h| then 5 else |h|;
      WeightSumClosed(k, k);
      assert Triangle(k) == WeightSum(k, k);
      FormSumWithin(h, k, k);
      var t := Triangle(k) as real;
      assert t >= 1.0;
      QuotientBounds(FormSum(h, k, k), t, 0.8, 1.2);
    }
  }

  lemma {:induction false} FormSumOfTail(h: seq<string>, k: nat, m: nat)
    requires m <= k <= |h|
    ensures FormSum(h, k, m) == FormSum(h[|h| - k..], k, m)
  {
    if m > 0 {
      FormSumOfTail(h, k, m - 1);
      assert h[|h| - k..][k - m] == h[|h| - m];
    }
  }

  /** Only the last five results count: older ones never change the factor. */
  lemma RecentFormLastFive(h: seq<string>)
    requires |h| >= 5
    ensures RecentForm(h) == RecentForm(h[|h| - 5..])
  {
    FormSumOfTail(h, 5, 5);
  }

  // ---------------------------------------------------------------------
  // Track, weather and betting-pattern factors

  /** 1.2 when the breed suits the shape (oval for thoroughbreds and
      arabians, straight for quarter horses, figure-eight for appaloosas),
      otherwise 1.0; both names are compared lower-cased and by substring. */
  function TrackFactor(shape: string, breed: string): (r: real)
    ensures r == 1.0 || r == 1.2
  {
    SuitedBreed(Lower(shape), Lower(breed))
  }

  /** The track factor on names already lower-cased. */
  function SuitedBreed(trackShape: string, horseBreed: string): (r: real)
    ensures r == 1.0 || r == 1.2
  {
    if Contains(trackShape, "oval") && (Contains(horseBreed, "thoroughbred") || Contains(horseBreed, "arabian")) then 1.2
    else if Contains(trackShape, "straight") && Contains(horseBreed, "quarter") then 1.2
    else if Contains(trackShape, "figure-eight") && Contains(horseBreed, "appaloosa") then 1.2
    else 1.0
  }

  /** In rain or snow, heavy or racing gear gets 1.1 and otherwise
      lightweight gear gets 0.9; in clear weather lightweight or racing gear
      gets 1.1; everything else gets 1.0. The gear is the horseshoes and
      saddle names, lower-cased and joined by a space. */
  function WeatherFactor(weather: string, horseshoes: string, saddle: string): (r: real)
    ensures r == 0.9 || r == 1.0 || r == 1.1
  {
    SuitedGear(Lower(weather), Lower(horseshoes) + " " + Lower(saddle))
  }

  /** The weather factor on a lower-cased weather and gear description. */
  function SuitedGear(w: string, gear: string): (r: real)
    ensures r == 0.9 || r == 1.0 || r == 1.1
  {
    if Contains(w, "rain") || Contains(w, "snow") then
      if Contains(gear, "heavy") || Contains(gear, "racing") then 1.1
      else if Contains(gear, "lightweight") then 0.9
      else 1.0
    else if Contains(w, "clear") then
      if Contains(gear, "lightweight") || Contains(gear, "racing") then 1.1 else 1.0
    else 1.0
  }

  /** Letter case never matters to the track factor. */
  lemma TrackFactorIgnoresCase(shape: string, breed: string)
    ensures TrackFactor(Lower(shape), Lower(breed)) == TrackFactor(shape, breed)
  {
    LowerIdempotent(shape);
    LowerIdempotent(breed);
  }

  /** Letter case never matters to the weather factor. */
  lemma WeatherFactorIgnoresCase(weather: string, horseshoes: string, saddle: string)
    ensures WeatherFactor(Lower(weather), Lower(horseshoes), Lower(saddle)) == WeatherFactor(weather, horseshoes, saddle)
  {
    LowerIdempotent(weather);
    LowerIdempotent(horseshoes);
    LowerIdempotent(saddle);
  }

  /** Whether the lower-cased shape and breed name one of the favoured
      pairings: oval with thoroughbred or arabian, straight with quarter,
      figure-eight with appaloosa, each name occurring anywhere in the text. */
  ghost predicate FavouredPairing(shape: string, breed: string)
  {
    var s, b := Lower(shape), Lower(breed);
    (Occurs(s, "oval") && (Occurs(b, "thoroughbred") || Occurs(b, "arabian")))
    || (Occurs(s, "straight") && Occurs(b, "quarter"))
    || (Occurs(s, "figure-eight") && Occurs(b, "appaloosa"))
  }

  /** A horse gets the 1.2 track factor exactly on a favoured pairing, and
      1.0 on every other shape and breed. */
  lemma TrackFactorFavours(shape: string, breed: string)
    ensures TrackFactor(shape, breed) == 1.2 <==> FavouredPairing(shape, breed)
    ensures TrackFactor(shape, breed) == 1.0 <==> !FavouredPairing(shape, breed)
  {
    var s, b := Lower(shape), Lower(breed);
    ContainsOccurs(s, "oval");
    ContainsOccurs(b, "thoroughbred");
    ContainsOccurs(b, "arabian");
    ContainsOccurs(s, "straight");
    ContainsOccurs(b, "quarter");
    ContainsOccurs(s, "figure-eight");
    ContainsOccurs(b, "appaloosa");
  }

  /** Whether the lower-cased weather names rain or snow somewhere. */
  ghost predicate Wet(weather: string)
  {
    Occurs(Lower(weather), "rain") || Occurs(Lower(weather), "snow")
  }

  /** Whether the gear earns 1.1 in this weather: heavy or racing gear in
      rain or snow, lightweight or racing gear in clear weather, each name
      occurring anywhere in the lower-cased text. */
  ghost predicate GearFavoured(weather: string, horseshoes: string, saddle: string)
  {
    var g := Lower(horseshoes) + " " + Lower(saddle);
    if Wet(weather) then Occurs(g, "heavy") || Occurs(g, "racing")
    else Occurs(Lower(weather), "clear") && (Occurs(g, "lightweight") || Occurs(g, "racing"))
  }

  /** Whether the gear is penalised to 0.9: lightweight gear, with nothing
      heavy or racing, in rain or snow. */
  ghost predicate GearHampered(weather: string, horseshoes: string, saddle: string)
  {
    var g := Lower(horseshoes) + " " + Lower(saddle);
    Wet(weather) && !Occurs(g, "heavy") && !Occurs(g, "racing") && Occurs(g, "lightweight")
  }

  /** A horse gets the 1.1 weather factor exactly when its gear is
      favoured, 0.9 exactly when it is hampered, and 1.0 in every other
      weather and gear. */
  lemma WeatherFactorCases(weather: string, horseshoes: string, saddle: string)
    ensures WeatherFactor(weather, horseshoes, saddle) == 1.1 <==> GearFavoured(weather, horseshoes, saddle)
    ensures WeatherFactor(weather, horseshoes, saddle) == 0.9 <==> GearHampered(weather, horseshoes, saddle)
    ensures WeatherFactor(weather, horseshoes, saddle) == 1.0 <==>
      !GearFavoured(weather, horseshoes, saddle) && !GearHampered(weather, horseshoes, saddle)
  {
    var w, g := Lower(weather), Lower(horseshoes) + " " + Lower(saddle);
    ContainsOccurs(w, "rain");
    ContainsOccurs(w, "snow");
    ContainsOccurs(w, "clear");
    ContainsOccurs(g, "heavy");
    ContainsOccurs(g, "racing");
    ContainsOccurs(g, "lightweight");
  }

  /** 1.0 unless more than 40% of all money bet is on this horse; above that
      the factor grows by half the excess share, up to 1.3. */
  function BettingPattern(horseBets: real, totalBets: real): (r: real)
    ensures r >= 1.0
    ensures 0.0 <= horseBets <= totalBets ==> r <= 1.3
    ensures totalBets > 0.0 ==> (r > 1.0 <==> horseBets > 0.4 * totalBets)
    ensures totalBets == 0.0 ==> r == 1.0
  {
    if totalBets == 0.0 then 1.0
    else
      var betRatio := horseBets / totalBets;
      assert betRatio * totalBets == horseBets;
      assert totalBets > 0.0 ==>
        (betRatio > 0.4 <==> horseBets > 0.4 * totalBets) && (horseBets <= totalBets ==> betRatio <= 1.0) by {
        if totalBets > 0.0 {
          SignOfProduct(betRatio - 0.4, totalBets);
          SignOfProduct(betRatio - 1.0, totalBets);
        }
      }
      if betRatio > 0.4 then 1.0 + (betRatio - 0.4) * 0.5 else 1.0
  }

  lemma SignOfProduct(x: real, t: real)
    requires t > 0.0
    ensures x > 0.0 <==> x * t > 0.0
    ensures x < 0.0 <==> x * t < 0.0
  {
    if x > 0.0 {
      assert x * t > 0.0;
    } else if x < 0.0 {
      assert (-x) * t > 0.0;
    }
  }

  /** What a winning stake pays on top of itself: stake times odds. */
  function Payout(stake: real, odds: real): (r: real)
    ensures stake >= 0.0 && odds >= 0.0 ==> r >= 0.0
  {
    assert stake >= 0.0 && odds >= 0.0 ==> stake * odds >= 0.0 by {
      if stake >= 0.0 && odds >= 0.0 {
        MulNonNegative(stake, odds);
      }
    }
    stake * odds
  }

  lemma MulNonNegative(x: real, y: real)
    requires x >= 0.0 && y >= 0.0
    ensures x * y >= 0.0
  {
  }

  // ---------------------------------------------------------------------
  // Odds

  /** The performance factor of an effective confidence c. */
  function PerformanceFactor(c: real): (r: real)
    ensures 0.0 <= c ==> r >= 0.5
  {
    0.5 + c * 0.5
  }

  /** 10 divided by the product of the five factors, plus the 15% house
      edge, but never below 1.1. */
  function OddsFromFactors(performance: real, form: real, trackFactor: real, weatherFactor: real, pattern: real): (r: real)
    requires performance > 0.0 && form > 0.0 && trackFactor > 0.0 && weatherFactor > 0.0 && pattern > 0.0
    ensures r >= 1.1
    ensures r > 1.1 ==> r * (performance * form * trackFactor * weatherFactor * pattern) == 11.5
    ensures r * (performance * form * trackFactor * weatherFactor * pattern) >= 11.5
  {
    var product := performance * form * trackFactor * weatherFactor * pattern;
    assert product > 0.0 by {
      assert performance * form > 0.0;
      assert performance * form * trackFactor > 0.0;
      assert performance * form * trackFactor * weatherFactor > 0.0;
    }
    var baseOdds := 10.0 / product;
    var finalOdds := baseOdds * 1.15;
    assert finalOdds * product == 11.5 by {
      assert baseOdds * product == 10.0;
      assert finalOdds * product == 1.15 * (baseOdds * product);
    }
    AtLeast(1.1, finalOdds)
  }

  // ---------------------------------------------------------------------
  // Spreading the odds

  ghost predicate IsLowest<K>(m: map<K, real>, v: real)
  {
    (exists k :: k in m && m[k] == v) && forall k :: k in m ==> v <= m[k]
  }

  ghost predicate IsHighest<K>(m: map<K, real>, v: real)
  {
    (exists k :: k in m && m[k] == v) && forall k :: k in m ==> m[k] <= v
  }

  lemma {:induction false} ExtremesExist<K>(m: map<K, real>)
    requires m != map[]
    ensures exists v :: IsLowest(m, v)
    ensures exists v :: IsHighest(m, v)
    decreases |m|
  {
    if forall k :: k !in m.Keys {
      assert false;
    }
    var k :| k in m.Keys;
    var rest := m - {k};
    if rest == map[] {
      forall j | j in m
        ensures j == k
      {
        assert j !in rest;
      }
      assert IsLowest(m, m[k]);
      assert IsHighest(m, m[k]);
    } else {
      ExtremesExist(rest);
      var lo :| IsLowest(rest, lo);
      var hi :| IsHighest(rest, hi);
      var lo', hi' := if m[k] < lo then m[k] else lo, if m[k] > hi then m[k] else hi;
      forall j | j in m
        ensures lo' <= m[j] <= hi'
      {
        if j != k {
          assert j in rest;
        }
      }
      var jl :| jl in rest && rest[jl] == lo;
      var jh :| jh in rest && rest[jh] == hi;
      assert m[if m[k] < lo then k else jl] == lo';
      assert m[if m[k] > hi then k else jh] == hi';
      assert IsLowest(m, lo');
      assert IsHighest(m, hi');
    }
  }

  ghost function Lowest<K>(m: map<K, real>): (v: real)
    requires m != map[]
    ensures IsLowest(m, v)
  {
    ExtremesExist(m);
    var v :| IsLowest(m, v); v
  }

  ghost function Highest<K>(m: map<K, real>): (v: real)
    requires m != map[]
    ensures IsHighest(m, v)
  {
    ExtremesExist(m);
    var v :| IsHighest(m, v); v
  }

  lemma ExtremesUnique<K>(m: map<K, real>, lo: real, hi: real)
    requires m != map[] && IsLowest(m, lo) && IsHighest(m, hi)
    ensures lo == Lowest(m) && hi == Highest(m)
  {
    var a :| a in m && m[a] == lo;
    var b :| b in m && m[b] == Lowest(m);
    assert lo <= m[b] && Lowest(m) <= m[a];
    var c :| c in m && m[c] == hi;
    var d :| d in m && m[d] == Highest(m);
    assert m[d] <= hi && m[c] <= Highest(m);
  }

  /** One entry after spreading: the highest entries rise by the
      adjustment, the lowest ones (when not also highest) drop by it but
      not below 1.1, and the rest stay. The adjustment is half of what the
      spread lacks of 2. */
  function Nudge(v: real, lo: real, hi: real): real
  {
    var adjustment := (2.0 - (hi - lo)) / 2.0;
    if v == hi then v + adjustment
    else if v == lo then AtLeast(1.1, v - adjustment)
    else v
  }

  /** The odds table after spreading, given its lowest and highest entry:
      unchanged when they are 2 or more apart, otherwise every entry
      nudged. */
  function Spread<K>(m: map<K, real>, lo: real, hi: real): (r: map<K, real>)
    ensures r.Keys == m.Keys
  {
    if hi - lo >= 2.0 then m else map k | k in m :: Nudge(m[k], lo, hi)
  }

  ghost function Normalized<K>(m: map<K, real>): (r: map<K, real>)
    ensures r.Keys == m.Keys
  {
    if m == map[] then m else Spread(m, Lowest(m), Highest(m))
  }

  /** Spreading never takes an entry below 1.1 when none was. */
  lemma NormalizedKeepsFloor<K>(m: map<K, real>)
    requires forall k :: k in m ==> m[k] >= 1.1
    ensures forall k :: k in Normalized(m) ==> Normalized(m)[k] >= 1.1
  {
  }

  /** When every entry is equal, spreading raises each of them by exactly 1. */
  lemma NormalizedEqualOddsRiseByOne<K>(m: map<K, real>, v: real)
    requires m != map[] && forall k :: k in m ==> m[k] == v
    ensures forall k :: k in m ==> Normalized(m)[k] == v + 1.0
  {
    var k0 :| k0 in m;
    assert IsLowest(m, v) && IsHighest(m, v);
    ExtremesUnique(m, v, v);
  }

  /** Where the floor of 1.1 does not interfere, spreading two different
      extremes leaves them exactly 2 apart, and every entry in between
      stays between them. */
  lemma NormalizedReachesSpreadOfTwo<K>(m: map<K, real>)
    requires m != map[]
    requires Lowest(m) < Highest(m) && Highest(m) - Lowest(m) < 2.0
    requires Lowest(m) - (2.0 - (Highest(m) - Lowest(m))) / 2.0 >= 1.1
    ensures IsLowest(Normalized(m), Lowest(m) - (2.0 - (Highest(m) - Lowest(m))) / 2.0)
    ensures IsHighest(Normalized(m), Highest(m) + (2.0 - (Highest(m) - Lowest(m))) / 2.0)
    ensures Highest(Normalized(m)) - Lowest(Normalized(m)) == 2.0
  {
    var lo, hi := Lowest(m), Highest(m);
    var adjustment := (2.0 - (hi - lo)) / 2.0;
    var r := Normalized(m);
    var a :| a in m && m[a] == lo;
    var b :| b in m && m[b] == hi;
    assert r[a] == lo - adjustment && r[b] == hi + adjustment;
    assert IsLowest(r, lo - adjustment);
    assert IsHighest(r, hi + adjustment);
    ExtremesUnique(r, lo - adjustment, hi + adjustment);
  }

  /** With the floor in the way the spread can stay below 2: odds of 1.5 and
      2.0 become 1.1 and 2.75. */
  lemma NormalizedCanStayBelowTwo()
    ensures Normalized(map[0 := 1.5, 1 := 2.0]) == map[0 := 1.1, 1 := 2.75]
  {
    var m := map[0 := 1.5, 1 := 2.0];
    assert m[0] == 1.5 && m[1] == 2.0;
    assert forall k :: k in m ==> k == 0 || k == 1;
    assert IsLowest(m, 1.5) && IsHighest(m, 2.0);
    ExtremesUnique(m, 1.5, 2.0);
    assert Normalized(m) == map[0 := 1.1, 1 := 2.75];
  }

  // ---------------------------------------------------------------------
  // The ledger

  /** The non-null horses of a horse list. */
  function NonNull(horses: seq<HorseGUI?>): set<HorseGUI>
  {
    set h: HorseGUI | h in horses
  }

  lemma NonNullSnoc(horses: seq<HorseGUI?>, i: int)
    requires 0 <= i < |horses|
    ensures NonNull(horses[..i + 1]) == NonNull(horses[..i]) + (if horses[i] == null then {} else {horses[i] as HorseGUI})
    ensures NonNull(horses[..i]) <= NonNull(horses)
  {
    assert horses[..i + 1] == horses[..i] + [horses[i]];
  }

  /** The odds of one horse from its five factors, the betting pattern
      taken from the given stakes. */
  ghost function PriceOf(h: HorseGUI, track: Track, stakes: map<HorseGUI, real>): (r: real)
    reads h, track
    ensures r >= 1.1
  {
    RecentFormWithin(h.raceHistory);
    OddsFromFactors(
      PerformanceFactor(h.Confidence()),
      RecentForm(h.raceHistory),
      TrackFactor(track.shape, h.breed),
      WeatherFactor(track.weatherCondition, h.horseshoes, h.saddle),
      BettingPattern(if h in stakes then stakes[h] else 0.0, Total(stakes)))
  }

  /** The odds of every horse in the list with the given stakes on the
      table, before spreading, entered one horse at a time in list order. */
  ghost function Priced(horses: seq<HorseGUI?>, track: Track, stakes: map<HorseGUI, real>): (r: map<HorseGUI, real>)
    reads NonNull(horses), track
    ensures r.Keys == NonNull(horses)
    ensures forall h :: h in r ==> r[h] == PriceOf(h, track, stakes)
    decreases |horses|
  {
    if horses == [] then map[]
    else
      var i := |horses| - 1;
      NonNullSnoc(horses, i);
      assert horses[..i + 1] == horses;
      var rest := Priced(horses[..i], track, stakes);
      if horses[i] == null then rest else rest[horses[i] as HorseGUI := PriceOf(horses[i], track, stakes)]
  }

  /** Horses and a track whose fields are all unchanged are priced as
      before. */
  twostate lemma PricedUnchanged(new horses: seq<HorseGUI?>, track: Track, new stakes: map<HorseGUI, real>)
    requires forall h | h in NonNull(horses) :: old(allocated(h))
    requires old(allocated(stakes))
    requires unchanged(NonNull(horses)) && unchanged(track)
    ensures Priced(horses, track, stakes) == old(Priced(horses, track, stakes))
  {
    var now, before := Priced(horses, track, stakes), old(Priced(horses, track, stakes));
    forall h | h in now
      ensures now[h] == before[h]
    {
      assert now[h] == PriceOf(h, track, stakes);
      assert before[h] == old(PriceOf(h, track, stakes));
    }
    assert now.Keys == before.Keys;
  }

  /** Pricing one more horse of the list adds it to the table, unless it
      is null. */
  lemma PricedSnoc(horses: seq<HorseGUI?>, track: Track, stakes: map<HorseGUI, real>, i: int)
    requires 0 <= i < |horses|
    ensures Priced(horses[..i + 1], track, stakes)
      == if horses[i] == null then Priced(horses[..i], track, stakes)
         else Priced(horses[..i], track, stakes)[horses[i] as HorseGUI := PriceOf(horses[i], track, stakes)]
  {
    assert horses[..i + 1][..i] == horses[..i];
  }

  class BettingSystem {
    var odds: map<HorseGUI, real>
    var bets: map<HorseGUI, real>
    var totalBets: real
    var houseBalance: real
    var playerBalance: real
    const statistics: Statistics

    /** totalBets is the sum of the per-horse bets, each of which is at
        least the minimum bet; the player is never in debt; no odds are
        below 1.1. */
    ghost predicate Valid()
      reads this`odds, this`bets, this`totalBets, this`playerBalance
    {
      totalBets == Total(bets)
      && (forall h :: h in bets ==> bets[h] >= 2.0)
      && playerBalance >= 0.0
      && (forall h :: h in odds ==> odds[h] >= 1.1)
    }

    /** The money in play: both balances and the stakes on the table. */
    function Money(): real
      reads this`playerBalance, this`houseBalance, this`totalBets
    {
      playerBalance + houseBalance + totalBets
    }

    /** The amount staked on a horse, 0 when none. */
    function BetOn(horse: HorseGUI): real
      reads this`bets
    {
      if horse in bets then bets[horse] else 0.0
    }

    /** The odds shown for a horse: 0 for a horse without odds, otherwise
        at least 1.1. */
    function GetOdds(horse: HorseGUI): (r: real)
      reads this`odds, this`bets, this`totalBets, this`playerBalance
      ensures horse !in odds ==> r == 0.0
      ensures Valid() && horse in odds ==> r >= 1.1
    {
      if horse in odds then odds[horse] else 0.0
    }

    /** The odds a settlement pays at: 1.0 for a horse without odds. */
    function SettlementOdds(horse: HorseGUI): real
      reads this`odds
    {
      if horse in odds then odds[horse] else 1.0
    }

    /** A ledger without bets or odds: the house holds 10000 and the player
        1000. */
    constructor (statistics: Statistics)
      ensures Valid()
      ensures odds == map[] && bets == map[] && totalBets == 0.0
      ensures houseBalance == 10000.0 && playerBalance == 1000.0
      ensures this.statistics == statistics
    {
      odds := map[];
      bets := map[];
      totalBets := 0.0;
      houseBalance := 10000.0;
      playerBalance := 1000.0;
      this.statistics := statistics;
    }

    /** Accepts a bet of at least 2 on a horse, within the player's
        balance, moving the stake from the balance onto the table; rejects
        anything else without a change. */
    method PlaceBet(horse: HorseGUI?, amount: real) returns (accepted: bool)
      requires Valid()
      modifies this`bets, this`totalBets, this`playerBalance
      ensures Valid()
      ensures accepted <==> horse != null && amount > 0.0 && amount <= old(playerBalance) && amount >= 2.0
      ensures !accepted ==> bets == old(bets) && totalBets == old(totalBets) && playerBalance == old(playerBalance)
      ensures accepted ==> (horse != null
        && bets == old(bets)[horse := old(BetOn(horse)) + amount]
        && totalBets == old(totalBets) + amount
        && playerBalance == old(playerBalance) - amount)
      ensures Money() == old(Money())
    {
      if horse == null || amount <= 0.0 || amount > playerBalance {
        return false;
      }
      if amount < 2.0 {
        return false;
      }
      var h: HorseGUI := horse;
      var currentBet := if h in bets then bets[h] else 0.0;
      TotalUpdate(bets, h, currentBet + amount);
      bets := bets[h := currentBet + amount];
      totalBets := totalBets + amount;
      playerBalance := playerBalance - amount;
      return true;
    }

    /** Settles a race. Without a winner every stake is refunded, but the
        stakes stay on the table, so settling again refunds them again.
        With a winner the odds are computed if there are none yet (odds
        once computed are kept), the stake on the winner comes back with
        stake times odds on top, the house takes the rest of the table, the
        winner's newest statistics record is adjusted, and the table is
        cleared. */
    method ProcessRaceResult(winningHorse: HorseGUI?, raceHorses: seq<HorseGUI?>, track: Track)
      requires Valid()
      modifies this`odds, this`bets, this`totalBets, this`playerBalance, this`houseBalance, statistics`horseStats
      ensures Valid()
      ensures winningHorse == null ==>
        playerBalance == old(playerBalance) + old(totalBets)
        && houseBalance == old(houseBalance) && bets == old(bets) && totalBets == old(totalBets)
        && odds == old(odds) && statistics.horseStats == old(statistics.horseStats)
      ensures winningHorse != null ==>
        (old(odds) == map[] ==> odds == Normalized(old(Priced(raceHorses, track, bets))))
        && (old(odds) != map[] ==> odds == old(odds))
        && var stake := old(BetOn(winningHorse));
           var payout := Payout(stake, SettlementOdds(winningHorse));
           playerBalance == old(playerBalance) + stake + payout
           && houseBalance == old(houseBalance) + old(totalBets) - (stake + payout)
           && bets == map[] && totalBets == 0.0
           && statistics.horseStats == AfterBettingStats(old(statistics.horseStats), winningHorse, payout)
      ensures winningHorse != null ==> Money() == old(Money())
    {
      if winningHorse == null {
        playerBalance := playerBalance + totalBets;
        TotalNonNegative(bets);
        return;
      }
      if odds == map[] {
        CalculateOdds(raceHorses, track);
      }
      Settle(winningHorse);
    }

    /** The winner's part of ProcessRaceResult once the odds are known. */
    method Settle(winningHorse: HorseGUI)
      requires Valid()
      modifies this`bets, this`totalBets, this`playerBalance, this`houseBalance, statistics`horseStats
      ensures Valid()
      ensures var stake := old(BetOn(winningHorse));
        var payout := Payout(stake, SettlementOdds(winningHorse));
        playerBalance == old(playerBalance) + stake + payout
        && houseBalance == old(houseBalance) + old(totalBets) - (stake + payout)
        && bets == map[] && totalBets == 0.0
        && statistics.horseStats == AfterBettingStats(old(statistics.horseStats), winningHorse, payout)
    {
      var winningBet := if winningHorse in bets then bets[winningHorse] else 0.0;
      var horseOdds := if winningHorse in odds then odds[winningHorse] else 1.0;
      var payout := Payout(winningBet, horseOdds);
      playerBalance := playerBalance + winningBet + payout;
      houseBalance := houseBalance + totalBets - (winningBet + payout);
      statistics.RecordBettingStats(winningHorse, totalBets, payout);
      bets := map[];
      totalBets := 0.0;
    }

    /** Recomputes the odds of every non-null horse in the list from its
        five factors and then spreads them. */
    method CalculateOdds(horses: seq<HorseGUI?>, track: Track)
      requires Valid()
      modifies this`odds
      ensures Valid()
      ensures odds == Normalized(old(Priced(horses, track, bets)))
    {
      // the cleared table is replaced by the one the loop fills
      ghost var raw := Priced(horses, track, bets);
      var table := OddsTable(horses, track);
      assert table == raw;
      NormalizedKeepsFloor(table);
      SpreadTable(table);
    }

    /** Installs a table of odds and spreads it. */
    method SpreadTable(table: map<HorseGUI, real>)
      modifies this`odds
      ensures odds == Normalized(table)
    {
      odds := table;
      NormalizeOdds();
    }

    /** The loop of CalculateOdds that fills the cleared table, one horse
        at a time in list order. */
    method OddsTable(horses: seq<HorseGUI?>, track: Track) returns (table: map<HorseGUI, real>)
      ensures table == Priced(horses, track, bets)
    {
      ghost var stakes := bets;
      table := map[];
      var i := 0;
      while i < |horses|
        invariant 0 <= i <= |horses|
        invariant table == Priced(horses[..i], track, stakes)
      {
        PricedSnoc(horses, track, stakes, i);
        var horse := horses[i];
        if horse != null {
          label priced:
          var horseOdds := ComputeHorseOdds(horse, track);
          PricedUnchanged@priced(horses[..i + 1], track, stakes);
          table := table[horse := horseOdds];
        }
        i := i + 1;
      }
      assert horses[..i] == horses;
    }

    /** The body of the odds loop for one horse: its five factors, then
        its odds. */
    method ComputeHorseOdds(horse: HorseGUI, track: Track) returns (horseOdds: real)
      ensures horseOdds == PriceOf(horse, track, bets)
    {
      var performanceFactor := PerformanceFactor(horse.Confidence());
      var recentForm := CalculateRecentForm(horse);
      RecentFormWithin(horse.raceHistory);
      var trackFactor := TrackFactor(track.shape, horse.breed);
      var weatherFactor := WeatherFactor(track.weatherCondition, horse.horseshoes, horse.saddle);
      var bettingPattern := CalculateBettingPattern(horse);
      horseOdds := OddsFromFactors(performanceFactor, recentForm, trackFactor, weatherFactor, bettingPattern);
    }

    method CalculateRecentForm(horse: HorseGUI) returns (r: real)
      ensures r == RecentForm(horse.raceHistory)
    {
      var history := horse.raceHistory;
      if history == [] {
        return 1.0;
      }
      var racesToConsider := if 5 < |history| then 5 else |history|;
      var formScore := 0.0;
      var weight := racesToConsider;
      var i := |history| - 1;
      var lowest := if 0 < |history| - racesToConsider then |history| - racesToConsider else 0;
      while i >= lowest
        invariant lowest - 1 <= i <= |history| - 1
        invariant weight == racesToConsider - (|history| - 1 - i)
        invariant formScore == FormSum(history, racesToConsider, |history| - 1 - i)
        decreases i
      {
        formScore := formScore + Score(history[i]) * weight as real;
        weight := weight - 1;
        i := i - 1;
      }
      return 0.8 + formScore / Triangle(racesToConsider) as real * 0.4;
    }

    method CalculateBettingPattern(horse: HorseGUI) returns (r: real)
      ensures r == BettingPattern(BetOn(horse), Total(bets))
    {
      var total := TotalBetAmount();
      if total == 0.0 {
        return 1.0;
      }
      var horseBets := if horse in bets then bets[horse] else 0.0;
      var betRatio := horseBets / total;
      if betRatio > 0.4 {
        return 1.0 + (betRatio - 0.4) * 0.5;
      }
      return 1.0;
    }

    /** Spreads the odds table: see Normalized. The lowest and highest
        entries are found first, then every entry is nudged; the order in
        which entries are visited does not matter. */
    method NormalizeOdds()
      modifies this`odds
      ensures odds == Normalized(old(odds))
    {
      // The source starts from sentinel extremes; for an empty table both
      // of its loops do nothing.
      if odds == map[] {
        return;
      }
      var minOdds, maxOdds := OddsExtremes();
      if maxOdds - minOdds < 2.0 {
        NudgeAll(minOdds, maxOdds);
      }
    }

    /** The adjusting loop of NormalizeOdds: every entry nudged, given the
        lowest and the highest odds. */
    method NudgeAll(minOdds: real, maxOdds: real)
      requires maxOdds - minOdds < 2.0
      modifies this`odds
      ensures odds == Spread(old(odds), minOdds, maxOdds)
    {
      var keys := odds.Keys;
      var adjustment := (2.0 - (maxOdds - minOdds)) / 2.0;
      ghost var original := odds;
      var todo := keys;
      while todo != {}
        invariant todo <= keys && odds.Keys == keys
        invariant forall k :: k in todo ==> odds[k] == original[k]
        invariant forall k :: k in keys && k !in todo ==> odds[k] == Nudge(original[k], minOdds, maxOdds)
        decreases |todo|
      {
        var horse :| horse in todo;
        var currentOdd := odds[horse];
        if currentOdd == maxOdds {
          odds := odds[horse := currentOdd + adjustment];
        } else if currentOdd == minOdds {
          odds := odds[horse := AtLeast(1.1, currentOdd - adjustment)];
        }
        todo := todo - {horse};
      }
      assert odds == Spread(original, minOdds, maxOdds);
    }

    /** The lowest and the highest odds, by a walk over the table. */
    method OddsExtremes() returns (minOdds: real, maxOdds: real)
      requires odds != map[]
      ensures minOdds == Lowest(odds) && maxOdds == Highest(odds)
    {
      var keys := odds.Keys;
      if forall k :: k !in keys {
        assert false;
      }
      var first :| first in keys;
      minOdds, maxOdds := odds[first], odds[first];
      var todo := keys - {first};
      while todo != {}
        invariant todo <= keys && first !in todo
        invariant exists k :: k in keys - todo && odds[k] == minOdds
        invariant exists k :: k in keys - todo && odds[k] == maxOdds
        invariant forall k :: k in keys - todo ==> minOdds <= odds[k] <= maxOdds
        decreases |todo|
      {
        var horse :| horse in todo;
        var odd := odds[horse];
        if odd < minOdds {
          minOdds := odd;
        }
        if odd > maxOdds {
          maxOdds := odd;
        }
        todo := todo - {horse};
      }
      assert IsLowest(odds, minOdds) && IsHighest(odds, maxOdds);
      ExtremesUnique(odds, minOdds, maxOdds);
    }

    /** The sum of the stakes, by a walk over the table. */
    method TotalBetAmount() returns (total: real)
      ensures total == Total(bets)
    {
      total := 0.0;
      var rest := bets;
      while rest.Keys != {}
        invariant total + Total(rest) == Total(bets)
        decreases |rest.Keys|
      {
        if forall k :: k !in rest.Keys {
          assert false;
        }
        var horse :| horse in rest.Keys;
        TotalRemove(rest, horse);
        total := total + rest[horse];
        rest := rest - {horse};
      }
      assert rest == map[];
    }
  }
}
