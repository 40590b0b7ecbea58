/**
 * The competitor of the console race in its first generation
 * (Part-1/Horse.java): a symbol, a name, a confidence rating kept inside
 * [0, 1], the distance run so far and the fallen / winner flags.
 */
module ClampedHorse {

  /** The confidence actually stored for a requested value: the rating is
      bounded to [0, 1] on every write. */
  function Clamp(c: real): (r: real)
    ensures 0.0 <= r <= 1.0
    ensures 0.0 <= c <= 1.0 ==> r == c
    ensures c < 0.0 ==> r == 0.0
    ensures c > 1.0 ==> r == 1.0
  {
    if c < 0.0 then 0.0 else if c > 1.0 then 1.0 else c
  }

  /** Clamping is a projection: clamping a stored rating again changes nothing,
      and two requests on the same side of the interval store the same value. */
  lemma ClampIsProjection(c: real, d: real)
    ensures Clamp(Clamp(c)) == Clamp(c)
    ensures c <= d ==> Clamp(c) <= Clamp(d)
  {
  }

  class Horse {
    var symbol: char
    var name: string
    var confidence: real
    var distance: nat
    var fallen: bool
    var winner: bool

    /** The object invariant: the stored rating always lies in [0, 1]. */
    ghost predicate Valid()
      reads this
    {
      0.0 <= confidence <= 1.0
    }

    constructor (symbol: char, name: string, confidence: real)
      ensures Valid()
      ensures this.symbol == symbol && this.name == name
      ensures this.confidence == Clamp(confidence)
      ensures distance == 0 && !fallen && !winner
    {
      this.symbol := symbol;
      this.name := name;
      this.confidence := Clamp(confidence);
      this.distance := 0;
      this.fallen := false;
      this.winner := false;
    }

    /** Marks the horse as fallen; calling it again changes nothing more. */
    method Fall()
      modifies this
      ensures fallen
      ensures distance == old(distance) && winner == old(winner)
      ensures confidence == old(confidence) && symbol == old(symbol) && name == old(name)
    {
      fallen := true;
    }

    /** Advances exactly one unit; there is no guard for a fallen horse or
        for the length of the track. */
    method MoveForward()
      modifies this
      ensures distance == old(distance) + 1
      ensures fallen == old(fallen) && winner == old(winner)
      ensures confidence == old(confidence) && symbol == old(symbol) && name == old(name)
    {
      distance := distance + 1;
    }

    /** Brings the horse back to the start line and stands it up again; the
        winner flag, rating, symbol and name are left as they were. */
    method GoBackToStart()
      modifies this
      ensures distance == 0 && !fallen
      ensures winner == old(winner)
      ensures confidence == old(confidence) && symbol == old(symbol) && name == old(name)
    {
      distance := 0;
      fallen := false;
    }

    method SetConfidence(newConfidence: real)
      modifies this
      ensures Valid()
      ensures confidence == Clamp(newConfidence)
      ensures 0.0 <= newConfidence <= 1.0 ==> confidence == newConfidence
      ensures distance == old(distance) && fallen == old(fallen) && winner == old(winner)
      ensures symbol == old(symbol) && name == old(name)
    {
      if newConfidence < 0.0 {
        confidence := 0.0;
      } else if newConfidence > 1.0 {
        confidence := 1.0;
      } else {
        confidence := newConfidence;
      }
    }

    method SetIsWinner(value: bool)
      modifies this
      ensures winner == value
      ensures distance == old(distance) && fallen == old(fallen)
      ensures confidence == old(confidence) && symbol == old(symbol) && name == old(name)
    {
      winner := value;
    }

    method SetSymbol(newSymbol: char)
      modifies this
      ensures symbol == newSymbol
      ensures distance == old(distance) && fallen == old(fallen) && winner == old(winner)
      ensures confidence == old(confidence) && name == old(name)
    {
      symbol := newSymbol;
    }
  }
}
