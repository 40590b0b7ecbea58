/**
 * The race track of the graphical race (Phase-2/Track.java): a fixed length
 * and lane count, a shape and a weather condition with the three weather
 * modifiers derived from it, and a running average finishing time per shape.
 */
module RaceTrack {
  import opened Common

  /** The speed, confidence and fall-chance multipliers of a weather. */
  datatype WeatherEffect = WeatherEffect(speed: real, confidence: real, fall: real)

  /** Clear, Rainy and Snowy weather; any other condition behaves as Clear.
      Worse weather never speeds a horse up, never makes it more confident
      and never makes a fall less likely. */
  function WeatherModifiers(condition: string): (r: WeatherEffect)
    ensures 0.6 <= r.speed <= 1.0 && 0.8 <= r.confidence <= 1.0 && 1.0 <= r.fall <= 1.5
  {
    if condition == "Clear" then WeatherEffect(1.0, 1.0, 1.0)
    else if condition == "Rainy" then WeatherEffect(0.8, 0.9, 1.2)
    else if condition == "Snowy" then WeatherEffect(0.6, 0.8, 1.5)
    else WeatherEffect(1.0, 1.0, 1.0)
  }

  /** An unlisted weather condition is as harmless as clear weather, and
      snow is worse than rain in all three respects. */
  lemma WeatherOrdering(condition: string)
    ensures condition != "Rainy" && condition != "Snowy" ==> WeatherModifiers(condition) == WeatherModifiers("Clear")
    ensures WeatherModifiers("Snowy").speed < WeatherModifiers("Rainy").speed < WeatherModifiers("Clear").speed
    ensures WeatherModifiers("Snowy").confidence < WeatherModifiers("Rainy").confidence < WeatherModifiers("Clear").confidence
    ensures WeatherModifiers("Snowy").fall > WeatherModifiers("Rainy").fall > WeatherModifiers("Clear").fall
  {
  }

  /** The speed factor of a shape, looked up on its lower-cased name: oval
      1.0, figure-eight 0.9, custom 0.8 and anything else 1.0. */
  function ShapeModifier(shape: string): (r: real)
    ensures 0.8 <= r <= 1.0
  {
    var s := Lower(shape);
    if s == "oval" then 1.0
    else if s == "figure-eight" then 0.9
    else if s == "custom" then 0.8
    else 1.0
  }

  /** The lookup ignores letter case: a name and its lower-cased form get
      the same factor. */
  lemma ShapeModifierIgnoresCase(shape: string)
    ensures ShapeModifier(Lower(shape)) == ShapeModifier(shape)
  {
    LowerIdempotent(shape);
  }

  /** The new running average after a race of the given time: 70% of the
      previous average and 30% of the new time. */
  function Blend(previous: real, time: real): (r: real)
    ensures previous <= time ==> previous <= r <= time
    ensures time <= previous ==> time <= r <= previous
    ensures previous == time ==> r == time
  {
    previous * 0.7 + time * 0.3
  }

  /** The average times a new track starts with. */
  function DefaultAverageTimes(): map<string, real>
  {
    map["Oval" := 15.0, "Figure-eight" := 18.0, "Straight" := 12.0, "Zigzag" := 20.0, "Custom" := 25.0]
  }

  class Track {
    const length: int
    const numberOfLanes: int
    var shape: string
    var weatherCondition: string
    var weatherSpeedModifier: real
    var weatherConfidenceModifier: real
    var weatherFallChanceModifier: real
    var averageTimes: map<string, real>

    /** The three weather modifiers are those of the current weather. */
    ghost predicate Valid()
      reads this`weatherCondition, this`weatherSpeedModifier, this`weatherConfidenceModifier, this`weatherFallChanceModifier
    {
      WeatherEffect(weatherSpeedModifier, weatherConfidenceModifier, weatherFallChanceModifier)
        == WeatherModifiers(weatherCondition)
    }

    /** An oval track in clear weather with the default average times. */
    constructor (length: int, numberOfLanes: int)
      ensures Valid()
      ensures this.length == length && this.numberOfLanes == numberOfLanes
      ensures shape == "Oval" && weatherCondition == "Clear"
      ensures weatherSpeedModifier == 1.0 && weatherConfidenceModifier == 1.0 && weatherFallChanceModifier == 1.0
      ensures averageTimes == DefaultAverageTimes()
    {
      this.length := length;
      this.numberOfLanes := numberOfLanes;
      shape := "Oval";
      weatherCondition := "Clear";
      averageTimes := DefaultAverageTimes();
      new;
      UpdateWeatherModifiers();
    }

    /** Changes the shape only; the weather and its modifiers stay. */
    method SetShape(newShape: string)
      modifies this`shape
      ensures shape == newShape
    {
      shape := newShape;
    }

    /** Changes the weather and recomputes its modifiers at once. */
    method SetWeatherCondition(condition: string)
      modifies this`weatherCondition, this`weatherSpeedModifier, this`weatherConfidenceModifier, this`weatherFallChanceModifier
      ensures Valid()
      ensures weatherCondition == condition
    {
      weatherCondition := condition;
      UpdateWeatherModifiers();
    }

    method UpdateWeatherModifiers()
      modifies this`weatherSpeedModifier, this`weatherConfidenceModifier, this`weatherFallChanceModifier
      ensures Valid()
    {
      if weatherCondition == "Clear" {
        weatherSpeedModifier, weatherConfidenceModifier, weatherFallChanceModifier := 1.0, 1.0, 1.0;
      } else if weatherCondition == "Rainy" {
        weatherSpeedModifier, weatherConfidenceModifier, weatherFallChanceModifier := 0.8, 0.9, 1.2;
      } else if weatherCondition == "Snowy" {
        weatherSpeedModifier, weatherConfidenceModifier, weatherFallChanceModifier := 0.6, 0.8, 1.5;
      } else {
        weatherSpeedModifier, weatherConfidenceModifier, weatherFallChanceModifier := 1.0, 1.0, 1.0;
      }
    }

    /** The speed factor of the current shape. */
    function TrackShapeModifier(): (r: real)
      reads this`shape
      ensures 0.8 <= r <= 1.0
      ensures r == ShapeModifier(Lower(shape))
    {
      ShapeModifierIgnoresCase(shape);
      ShapeModifier(shape)
    }

    /** The running average for a shape, or 20.0 for a shape never seen. */
    function AverageTimeForShape(s: string): (r: real)
      reads this`averageTimes
      ensures s !in averageTimes ==> r == 20.0
      ensures s in averageTimes ==> r == averageTimes[s]
    {
      if s in averageTimes then averageTimes[s] else 20.0
    }

    /** Folds a finishing time into the shape's running average. A shape
        seen for the first time gets the time itself; a known one moves 30%
        of the way towards the time; no other shape changes. */
    method UpdateAverageTime(s: string, time: real)
      modifies this`averageTimes
      ensures s in averageTimes && averageTimes.Keys == old(averageTimes.Keys) + {s}
      ensures s !in old(averageTimes) ==> averageTimes[s] == time
      ensures s in old(averageTimes) ==> averageTimes[s] == Blend(old(averageTimes[s]), time)
      ensures forall k :: k in old(averageTimes) && k != s ==> averageTimes[k] == old(averageTimes[k])
    {
      var currentAverage := if s in averageTimes then averageTimes[s] else time;
      var newAverage := currentAverage * 0.7 + time * 0.3;
      averageTimes := averageTimes[s := newAverage];
    }
  }
}
