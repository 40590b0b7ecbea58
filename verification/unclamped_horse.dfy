/**
 * The competitor used by the console race (Horse.java): the same record as
 * the first-generation horse, except that the confidence rating is stored
 * exactly as given, so values outside [0, 1] are kept.
 */
module UnclampedHorse {

  class Horse {
    var symbol: char
    var name: string
    var confidence: real
    var distance: nat
    var fallen: bool
    var winner: bool

    constructor (symbol: char, name: string, confidence: real)
      ensures this.symbol == symbol && this.name == name && this.confidence == confidence
      ensures distance == 0 && !fallen && !winner
    {
      this.symbol := symbol;
      this.name := name;
      this.confidence := confidence;
      this.distance := 0;
      this.fallen := false;
      this.winner := false;
    }

    /** Marks the horse as fallen; calling it again changes nothing more. */
    method Fall()
      modifies this
      ensures fallen
      ensures distance == old(distance) && winner == old(winner)
      ensures confidence == old(confidence) && symbol == old(symbol) && name == old(name)
    {
      fallen := true;
    }

    /** Advances exactly one unit, fallen or not. */
    method MoveForward()
      modifies this
      ensures distance == old(distance) + 1
      ensures fallen == old(fallen) && winner == old(winner)
      ensures confidence == old(confidence) && symbol == old(symbol) && name == old(name)
    {
      distance := distance + 1;
    }

    /** Back to the start line and standing; the winner flag is untouched. */
    method GoBackToStart()
      modifies this
      ensures distance == 0 && !fallen
      ensures winner == old(winner)
      ensures confidence == old(confidence) && symbol == old(symbol) && name == old(name)
    {
      distance := 0;
      fallen := false;
    }

    /** Stores the rating unchanged, even outside [0, 1]. */
    method SetConfidence(newConfidence: real)
      modifies this
      ensures confidence == newConfidence
      ensures distance == old(distance) && fallen == old(fallen) && winner == old(winner)
      ensures symbol == old(symbol) && name == old(name)
    {
      confidence := newConfidence;
    }

    method SetIsWinner(value: bool)
      modifies this
      ensures winner == value
      ensures distance == old(distance) && fallen == old(fallen)
      ensures confidence == old(confidence) && symbol == old(symbol) && name == old(name)
    {
      winner := value;
    }

    method SetSymbol(newSymbol: char)
      modifies this
      ensures symbol == newSymbol
      ensures distance == old(distance) && fallen == old(fallen) && winner == old(winner)
      ensures confidence == old(confidence) && name == old(name)
    {
      symbol := newSymbol;
    }
  }
}
