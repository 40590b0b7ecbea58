/**
 * The customisable horse of the graphical race (Phase-2/HorseGUI.java): the
 * competitor of the first generation (symbol, name, confidence kept in
 * [0, 1], distance, fallen and winner flags) extended with breed, coat colour
 * and equipment, the modifiers and attributes derived from them, and a
 * personal race history.
 *
 * The class it extends is not part of this model; its fields are held here
 * and behave as in Part-1/Horse.java, including the clamping of confidence.
 */
module HorseCustomisation {
  import opened ClampedHorse

  /** A stored confidence: the setters clamp it into [0, 1]. */
  type Rating = r: real | 0.0 <= r <= 1.0

  /** A speed modifier some breed and equipment give, see ModifiersInRange. */
  type SpeedModifier = r: real | 0.9 <= r <= 1.32 witness 1.0

  /** A confidence modifier some breed and equipment give, see
      ModifiersInRange. */
  type ConfidenceModifier = r: real | 0.81 <= r <= 1.21 witness 1.0

  /** A speed / confidence pair of multipliers. */
  datatype Modifiers = Modifiers(speed: real, confidence: real)

  /** A speed / confidence / stamina triple of multipliers. */
  datatype Factors = Factors(speed: real, confidence: real, stamina: real)

  // ---------------------------------------------------------------------
  // Movement and confidence modifiers (breed and equipment)

  /** The modifiers a breed starts from; only three breeds are listed. */
  function BreedModifiers(breed: string): (r: Modifiers)
    ensures 1.0 <= r.speed <= 1.2 && 0.9 <= r.confidence <= 1.1
  {
    if breed == "Thoroughbred" then Modifiers(1.2, 0.9)
    else if breed == "Arabian" then Modifiers(1.1, 1.1)
    else if breed == "Quarter Horse" then Modifiers(1.0, 1.0)
    else Modifiers(1.0, 1.0)
  }

  /** The factor equipment applies on top of the breed's modifiers. */
  function EquipmentFactors(equipment: string): (r: Modifiers)
    ensures 0.9 <= r.speed <= 1.1 && 0.9 <= r.confidence <= 1.1
  {
    if equipment == "Lightweight" then Modifiers(1.1, 0.9)
    else if equipment == "Heavy" then Modifiers(0.9, 1.1)
    else Modifiers(1.0, 1.0)
  }

  /** The modifiers for a breed and a piece of equipment: the breed's pair,
      scaled factor by factor by the equipment. */
  function ModifiersFor(breed: string, equipment: string): (r: Modifiers)
    ensures r.speed == BreedModifiers(breed).speed * EquipmentFactors(equipment).speed
    ensures r.confidence == BreedModifiers(breed).confidence * EquipmentFactors(equipment).confidence
  {
    var b, e := BreedModifiers(breed), EquipmentFactors(equipment);
    Modifiers(b.speed * e.speed, b.confidence * e.confidence)
  }

  /** Every combination keeps the speed modifier in [0.9, 1.32] and the
      confidence modifier in [0.81, 1.21]; an unlisted breed with unlisted
      equipment leaves both at 1.0. */
  lemma ModifiersInRange(breed: string, equipment: string)
    ensures 0.9 <= ModifiersFor(breed, equipment).speed <= 1.32
    ensures 0.81 <= ModifiersFor(breed, equipment).confidence <= 1.21
  {
    var b, e := BreedModifiers(breed), EquipmentFactors(equipment);
    assert 0.9 <= b.speed * e.speed <= 1.32 by {
      assert b.speed * e.speed <= 1.2 * e.speed;
      assert 1.0 * e.speed <= b.speed * e.speed;
    }
    assert 0.81 <= b.confidence * e.confidence <= 1.21 by {
      assert b.confidence * e.confidence <= 1.1 * e.confidence;
      assert 0.9 * e.confidence <= b.confidence * e.confidence;
    }
  }

  // ---------------------------------------------------------------------
  // Attributes (breed, saddle and horseshoes)

  function BreedFactors(breed: string): (r: Factors)
    ensures 0.9 <= r.speed <= 1.3 && 0.8 <= r.confidence <= 1.1 && 0.8 <= r.stamina <= 1.2
  {
    if breed == "Thoroughbred" then Factors(1.2, 0.9, 0.8)
    else if breed == "Arabian" then Factors(1.1, 1.1, 1.2)
    else if breed == "Quarter Horse" then Factors(1.3, 0.8, 0.9)
    else if breed == "Appaloosa" then Factors(0.9, 1.0, 1.1)
    else if breed == "Paint" then Factors(1.0, 1.0, 1.0)
    else Factors(1.0, 1.0, 1.0)
  }

  /** A saddle changes speed and stamina, never confidence. */
  function SaddleFactors(saddle: string): (r: Factors)
    ensures r.confidence == 1.0
    ensures 0.9 <= r.speed <= 1.1 && 0.9 <= r.stamina <= 1.1
  {
    if saddle == "Racing" then Factors(1.1, 1.0, 0.9)
    else if saddle == "Lightweight" then Factors(1.05, 1.0, 1.05)
    else if saddle == "Heavy" then Factors(0.9, 1.0, 1.1)
    else Factors(1.0, 1.0, 1.0)
  }

  /** Horseshoes change speed and confidence, never stamina. */
  function HorseshoeFactors(horseshoes: string): (r: Factors)
    ensures r.stamina == 1.0
    ensures 0.9 <= r.speed <= 1.1 && 0.9 <= r.confidence <= 1.1
  {
    if horseshoes == "Racing" then Factors(1.1, 0.9, 1.0)
    else if horseshoes == "Lightweight" then Factors(1.05, 1.05, 1.0)
    else if horseshoes == "Heavy" then Factors(0.9, 1.1, 1.0)
    else Factors(1.0, 1.0, 1.0)
  }

  /** The combined effect of breed, saddle and horseshoes, factor by factor. */
  function AttributeFactors(breed: string, saddle: string, horseshoes: string): (r: Factors)
    ensures r.speed > 0.0 && r.confidence > 0.0 && r.stamina > 0.0
  {
    var b, s, h := BreedFactors(breed), SaddleFactors(saddle), HorseshoeFactors(horseshoes);
    Factors(b.speed * s.speed * h.speed, b.confidence * h.confidence, b.stamina * s.stamina)
  }

  /** Breeds, saddles and horseshoes outside the tables change nothing, and
      neither do the choices whose table entry is neutral (Paint, and the
      Quarter Horse or unlisted breeds for the modifiers). */
  lemma UnlistedChoicesAreNeutral(breed: string, equipment: string, saddle: string, horseshoes: string)
    ensures breed != "Thoroughbred" && breed != "Arabian" && equipment != "Lightweight" && equipment != "Heavy" ==>
      ModifiersFor(breed, equipment) == Modifiers(1.0, 1.0)
    ensures (breed != "Thoroughbred" && breed != "Arabian" && breed != "Quarter Horse" && breed != "Appaloosa"
      && saddle != "Racing" && saddle != "Lightweight" && saddle != "Heavy"
      && horseshoes != "Racing" && horseshoes != "Lightweight" && horseshoes != "Heavy") ==>
      AttributeFactors(breed, saddle, horseshoes) == Factors(1.0, 1.0, 1.0)
  {
  }

  /** The ranges of the combined factors: saddles leave confidence alone and
      horseshoes leave stamina alone, so confidence lies in [0.72, 1.21] and
      stamina in [0.72, 1.32], while speed lies in [0.729, 1.573]. */
  lemma AttributeFactorsInRange(breed: string, saddle: string, horseshoes: string)
    ensures 0.72 <= AttributeFactors(breed, saddle, horseshoes).confidence <= 1.21
    ensures 0.72 <= AttributeFactors(breed, saddle, horseshoes).stamina <= 1.32
    ensures 0.729 <= AttributeFactors(breed, saddle, horseshoes).speed <= 1.573
  {
    var b, s, h := BreedFactors(breed), SaddleFactors(saddle), HorseshoeFactors(horseshoes);
    assert b.confidence * h.confidence <= 1.1 * h.confidence;
    assert 0.8 * h.confidence <= b.confidence * h.confidence;
    assert b.stamina * s.stamina <= 1.2 * s.stamina;
    assert 0.8 * s.stamina <= b.stamina * s.stamina;
    var bs := b.speed * s.speed;
    assert 0.81 <= bs <= 1.43 by {
      assert b.speed * s.speed <= 1.3 * s.speed;
      assert 0.9 * s.speed <= b.speed * s.speed;
    }
    assert bs * h.speed <= 1.43 * h.speed;
    assert 0.81 * h.speed <= bs * h.speed;
  }

  /** The base speed, confidence and stamina a rebuild computes: speed and
      stamina start from 1.0, confidence from the effective confidence c,
      and each is multiplied in turn by its breed, saddle and horseshoe
      factors. Speed and stamina are the combined factors themselves, and
      confidence is c scaled by the combined confidence factor. */
  function Rebuild(c: real, breed: string, saddle: string, horseshoes: string): (r: Factors)
    ensures r.speed == AttributeFactors(breed, saddle, horseshoes).speed
    ensures r.stamina == AttributeFactors(breed, saddle, horseshoes).stamina
    ensures r.confidence == c * AttributeFactors(breed, saddle, horseshoes).confidence
  {
    var b, s, h := BreedFactors(breed), SaddleFactors(saddle), HorseshoeFactors(horseshoes);
    Regroup(c, b.confidence, h.confidence);
    Factors(1.0 * b.speed * s.speed * h.speed, c * b.confidence * h.confidence, 1.0 * b.stamina * s.stamina)
  }

  lemma Regroup(x: real, y: real, z: real)
    ensures x * y * z == x * (y * z)
  {
  }

  lemma MulWithin(c: real, m: real, hi: real)
    requires 0.0 <= c <= 1.0 && 0.0 <= m <= hi
    ensures 0.0 <= c * m <= hi
  {
    assert c * m <= 1.0 * m;
  }

  /** Rebuilding compounds: a new Thoroughbred with the default saddle and
      horseshoes, stored confidence 0.5 and confidence modifier 1.0 is
      rebuilt to 0.45 by one setter call and to 0.405 by a second one, so
      repeated setter calls are not idempotent for confidence. */
  lemma ConfidenceCompounds()
    ensures AttributeFactors("Thoroughbred", "Standard", "Standard").confidence == 0.9
    ensures Clamp(0.5 * 1.0 * 0.9) == 0.45
    ensures Clamp(Clamp(0.5 * 1.0 * 0.9) * 1.0 * 0.9) == 0.405
  {
  }

  // ---------------------------------------------------------------------
  // Steps per move

  predicate Below(i: nat, m: real)
  {
    (i as real) < m
  }

  /** How many times a loop `for (i = 0; i < m; i++)` runs: the number of
      naturals below m, which is m rounded up when m is positive. */
  function StepCount(m: real): (r: nat)
    ensures forall i: nat :: i < r <==> Below(i, m)
  {
    if m <= 0.0 then 0
    else if m.Floor as real == m then m.Floor
    else m.Floor + 1
  }

  /** Within the reachable speed modifiers a move covers one or two units,
      and exactly one at the default modifier of 1.0 or below. */
  lemma StepsPerMove(m: real)
    requires 0.9 <= m <= 1.32
    ensures 1 <= StepCount(m) <= 2
    ensures m <= 1.0 <==> StepCount(m) == 1
  {
    assert Below(0, m);
    assert !Below(2, m);
    assert m <= 1.0 <==> !Below(1, m);
  }

  class HorseGUI {
    // the fields of the class this one extends
    var symbol: char
    var name: string
    var confidence: Rating
    var distance: nat
    var fallen: bool
    var winner: bool
    // the customisation
    var breed: string
    var coatColor: string
    var equipment: string
    var saddle: string
    var horseshoes: string
    var speedModifier: SpeedModifier
    var confidenceModifier: ConfidenceModifier
    var baseSpeed: real
    var baseConfidence: real
    var baseStamina: real
    var speed: real
    var stamina: real
    // the personal record
    var raceHistory: seq<string>
    var wins: nat
    var totalDistance: real
    var totalTime: real

    /** A new horse: Thoroughbred, Brown, standard equipment, saddle and
        horseshoes, but with both modifiers and every attribute at 1.0 — the
        default breed's effects are not applied — and an empty record. */
    constructor (horseSymbol: char, horseName: string, horseConfidence: real)
      ensures symbol == horseSymbol && name == horseName && confidence == Clamp(horseConfidence)
      ensures distance == 0 && !fallen && !winner
      ensures breed == "Thoroughbred" && coatColor == "Brown"
      ensures equipment == "Standard" && saddle == "Standard" && horseshoes == "Standard"
      ensures speedModifier == 1.0 && confidenceModifier == 1.0
      ensures baseSpeed == 1.0 && baseConfidence == horseConfidence && baseStamina == 1.0
      ensures speed == 1.0 && stamina == 1.0
      ensures raceHistory == [] && wins == 0 && totalDistance == 0.0 && totalTime == 0.0
    {
      symbol := horseSymbol;
      name := horseName;
      confidence := Clamp(horseConfidence);
      distance := 0;
      fallen := false;
      winner := false;
      breed := "Thoroughbred";
      coatColor := "Brown";
      equipment := "Standard";
      speedModifier := 1.0;
      confidenceModifier := 1.0;
      saddle := "Standard";
      horseshoes := "Standard";
      baseSpeed := 1.0;
      baseConfidence := horseConfidence;
      baseStamina := 1.0;
      speed := 1.0;
      stamina := 1.0;
      raceHistory := [];
      wins := 0;
      totalDistance := 0.0;
      totalTime := 0.0;
    }

    /** The effective confidence: the stored one times the confidence
        modifier, so at most 1.21. */
    function Confidence(): (r: real)
      reads this`confidence, this`confidenceModifier
      ensures 0.0 <= r <= 1.21
    {
      MulWithin(confidence, confidenceModifier, 1.21);
      confidence * confidenceModifier
    }

    // -------------------------------------------------------------------
    // Setters

    method SetBreed(newBreed: string)
      modifies this`breed, this`baseSpeed, this`baseConfidence, this`baseStamina, this`speed, this`stamina, this`confidence
      ensures breed == newBreed
      ensures Rebuilt(old(Confidence()))
    {
      breed := newBreed;
      UpdateAttributes();
    }

    method SetCoatColor(color: string)
      modifies this`coatColor
      ensures coatColor == color
    {
      coatColor := color;
    }

    method SetEquipment(newEquipment: string)
      modifies this`equipment, this`speedModifier, this`confidenceModifier
      ensures equipment == newEquipment
      ensures Modifiers(speedModifier, confidenceModifier) == ModifiersFor(breed, newEquipment)
    {
      equipment := newEquipment;
      UpdateModifiers();
    }

    method SetSaddle(newSaddle: string)
      modifies this`saddle, this`baseSpeed, this`baseConfidence, this`baseStamina, this`speed, this`stamina, this`confidence
      ensures saddle == newSaddle
      ensures Rebuilt(old(Confidence()))
    {
      saddle := newSaddle;
      UpdateAttributes();
    }

    method SetHorseshoes(newHorseshoes: string)
      modifies this`horseshoes, this`baseSpeed, this`baseConfidence, this`baseStamina, this`speed, this`stamina, this`confidence
      ensures horseshoes == newHorseshoes
      ensures Rebuilt(old(Confidence()))
    {
      horseshoes := newHorseshoes;
      UpdateAttributes();
    }

    method SetSpeed(newSpeed: real)
      modifies this`speed
      ensures speed == newSpeed
    {
      speed := newSpeed;
    }

    method SetStamina(newStamina: real)
      modifies this`stamina
      ensures stamina == newStamina
    {
      stamina := newStamina;
    }

    /** The base class's confidence setter: values outside [0, 1] are
        clamped. */
    method SetConfidence(newConfidence: real)
      modifies this`confidence
      ensures confidence == Clamp(newConfidence)
    {
      if newConfidence < 0.0 {
        confidence := 0.0;
      } else if newConfidence > 1.0 {
        confidence := 1.0;
      } else {
        confidence := newConfidence;
      }
    }

    /** The symbol is kept both as a character and as a one-character
        string in the source; both always agree, so one field holds it. */
    method SetSymbol(newSymbol: char)
      modifies this`symbol
      ensures symbol == newSymbol
    {
      symbol := newSymbol;
    }

    method SetName(newName: string)
      modifies this`name
      ensures name == newName
    {
      name := newName;
    }

    method SetIsWinner(value: bool)
      modifies this`winner
      ensures winner == value
    {
      winner := value;
    }

    // -------------------------------------------------------------------
    // Derived modifiers and attributes

    /** Recomputes both modifiers from the breed table and the equipment. */
    method UpdateModifiers()
      modifies this`speedModifier, this`confidenceModifier
      ensures Modifiers(speedModifier, confidenceModifier) == ModifiersFor(breed, equipment)
    {
      if breed == "Thoroughbred" {
        speedModifier, confidenceModifier := 1.2, 0.9;
      } else if breed == "Arabian" {
        speedModifier, confidenceModifier := 1.1, 1.1;
      } else if breed == "Quarter Horse" {
        speedModifier, confidenceModifier := 1.0, 1.0;
      } else {
        speedModifier, confidenceModifier := 1.0, 1.0;
      }
      if equipment == "Lightweight" {
        speedModifier := speedModifier * 1.1;
        confidenceModifier := confidenceModifier * 0.9;
      } else if equipment == "Heavy" {
        speedModifier := speedModifier * 0.9;
        confidenceModifier := confidenceModifier * 1.1;
      }
      ModifiersInRange(breed, equipment);
    }

    /** The state after an attribute rebuild that started from effective
        confidence c: the base attributes are the rebuilt ones, speed and
        stamina copy them and the stored confidence is the rebuilt one,
        clamped. */
    ghost predicate Rebuilt(c: real)
      reads this`breed, this`saddle, this`horseshoes, this`baseSpeed, this`speed, this`baseStamina, this`stamina, this`baseConfidence, this`confidence
    {
      var r := Rebuild(c, breed, saddle, horseshoes);
      baseSpeed == r.speed && speed == r.speed
      && baseStamina == r.stamina && stamina == r.stamina
      && baseConfidence == r.confidence && confidence == Clamp(r.confidence)
    }

    /** Rebuilds speed, stamina and confidence from the breed, saddle and
        horseshoes, starting from the current effective confidence. */
    method UpdateAttributes()
      modifies this`baseSpeed, this`baseConfidence, this`baseStamina, this`speed, this`stamina, this`confidence
      ensures Rebuilt(old(Confidence()))
    {
      var r := Rebuild(Confidence(), breed, saddle, horseshoes);
      baseSpeed, baseConfidence, baseStamina := r.speed, r.confidence, r.stamina;
      SetSpeed(baseSpeed);
      SetConfidence(baseConfidence);
      SetStamina(baseStamina);
    }

    // -------------------------------------------------------------------
    // Racing

    /** The base step once for every natural below the speed modifier. */
    method MoveForward()
      modifies this`distance
      ensures distance == old(distance) + StepCount(speedModifier)
    {
      var i := 0;
      while Below(i, speedModifier)
        invariant 0 <= i <= StepCount(speedModifier)
        invariant distance == old(distance) + i
        decreases StepCount(speedModifier) - i
      {
        distance := distance + 1;
        i := i + 1;
      }
    }

    method Fall()
      modifies this`fallen
      ensures fallen
    {
      fallen := true;
    }

    method GoBackToStart()
      modifies this`distance, this`fallen
      ensures distance == 0 && !fallen
    {
      distance := 0;
      fallen := false;
    }

    // -------------------------------------------------------------------
    // Personal record

    method AddWin()
      modifies this`wins
      ensures wins == old(wins) + 1
    {
      wins := wins + 1;
    }

    method AddRaceResult(result: string)
      modifies this`raceHistory
      ensures raceHistory == old(raceHistory) + [result]
    {
      raceHistory := raceHistory + [result];
    }

    method UpdateRaceStats(d: real, time: real)
      modifies this`totalDistance, this`totalTime
      ensures totalDistance == old(totalDistance) + d && totalTime == old(totalTime) + time
    {
      totalDistance := totalDistance + d;
      totalTime := totalTime + time;
    }

    /** The last three results, or all of them when there are fewer, oldest
        first. */
    function RecentRaceResults(): (r: seq<string>)
      reads this`raceHistory
      ensures |r| == if |raceHistory| < 3 then |raceHistory| else 3
      ensures raceHistory == raceHistory[..|raceHistory| - |r|] + r
    {
      var from := if |raceHistory| - 3 < 0 then 0 else |raceHistory| - 3;
      assert raceHistory == raceHistory[..from] + raceHistory[from..];
      raceHistory[from..]
    }

    /** Wins per recorded race: zero with no history, otherwise the value that
        multiplied by the number of races gives the wins. */
    function WinRatio(): (r: real)
      reads this`raceHistory, this`wins
      ensures raceHistory == [] ==> r == 0.0
      ensures raceHistory != [] ==> r * |raceHistory| as real == wins as real
      ensures wins <= |raceHistory| ==> 0.0 <= r <= 1.0
    {
      if raceHistory == [] then 0.0 else wins as real / |raceHistory| as real
    }

    /** Distance per unit of time over every recorded race; zero until some
        time has been recorded. */
    function AverageSpeed(): (r: real)
      reads this`totalDistance, this`totalTime
      ensures totalTime <= 0.0 ==> r == 0.0
      ensures totalTime > 0.0 ==> r * totalTime == totalDistance
    {
      if totalTime > 0.0 then totalDistance / totalTime else 0.0
    }
  }
}
