/** The Facade pattern: a Facade owns one Subsystem1 and one Subsystem2 and
    offers a single Operation that drives both of them in a fixed order and
    reports what they said. */
module FacadePattern {
  import opened Text

  /** The report every facade produces, line by line without the newlines:
      the reference against which the delegation is checked. */
  const ExpectedLines: seq<string> := [
    "Facade initializes subsystems:",
    "Subsystem1: Ready!",
    "Subsystem2: Get ready!",
    "Facade orders subsystems to perform the action:",
    "Subsystem1: Go!",
    "Subsystem2: Fire!"
  ]

  /** The line `r` is spoken by the subsystem called `name`. */
  predicate SpokenBy(r: string, name: string) {
    |name| + 2 <= |r| && r[..|name| + 2] == name + ": "
  }

  /** A stateless subsystem: its operations read no state and change none. */
  class Subsystem1 {
    constructor () {}

    /** The "ready" reply: one line, from Subsystem1, the second line of the report. */
    function Operation1(): (r: string)
      ensures IsLine(r) && SpokenBy(r, "Subsystem1")
      ensures r == ExpectedLines[1] + "\n"
    {
      "Subsystem1: Ready!\n"
    }

    /** The "go" reply: one line, from Subsystem1, the fifth line of the report. */
    function OperationN(): (r: string)
      ensures IsLine(r) && SpokenBy(r, "Subsystem1")
      ensures r == ExpectedLines[4] + "\n"
    {
      "Subsystem1: Go!\n"
    }
  }

  /** A second stateless subsystem. */
  class Subsystem2 {
    constructor () {}

    /** The "get ready" reply: one line, from Subsystem2, the third line of the report. */
    function Operation1(): (r: string)
      ensures IsLine(r) && SpokenBy(r, "Subsystem2")
      ensures r == ExpectedLines[2] + "\n"
    {
      "Subsystem2: Get ready!\n"
    }

    /** The "fire" reply: one line, from Subsystem2, the sixth line of the report. */
    function OperationZ(): (r: string)
      ensures IsLine(r) && SpokenBy(r, "Subsystem2")
      ensures r == ExpectedLines[5] + "\n"
    {
      "Subsystem2: Fire!\n"
    }
  }

  class Facade {
    var subsystem1: Subsystem1?
    var subsystem2: Subsystem2?

    /** The facade always holds both subsystems. */
    ghost predicate Valid()
      reads this
    {
      subsystem1 != null && subsystem2 != null
    }

    /** Keeps each supplied subsystem (the same object) and creates a fresh one
        for each slot left null. */
    constructor (subsystem1: Subsystem1? := null, subsystem2: Subsystem2? := null)
      ensures Valid()
      ensures subsystem1 != null ==> this.subsystem1 == subsystem1
      ensures subsystem1 == null ==> fresh(this.subsystem1)
      ensures subsystem2 != null ==> this.subsystem2 == subsystem2
      ensures subsystem2 == null ==> fresh(this.subsystem2)
    {
      if subsystem1 != null {
        this.subsystem1 := subsystem1;
      } else {
        this.subsystem1 := new Subsystem1();
      }
      if subsystem2 != null {
        this.subsystem2 := subsystem2;
      } else {
        this.subsystem2 := new Subsystem2();
      }
    }

    /** Drives the subsystems in order and returns the report: exactly the
        expected lines, in that order, each after the previous ones. */
    method Operation() returns (result: string)
      requires Valid()
      ensures Valid()
      ensures result == Unlines(ExpectedLines)
      ensures Lines(result) == ExpectedLines
      ensures forall k :: 0 <= k <= |ExpectedLines| ==> Unlines(ExpectedLines[..k]) <= result
    {
      result := "Facade initializes subsystems:\n";
      assert result == Unlines(ExpectedLines[..1]);
      result := result + subsystem1.Operation1();
      UnlinesStep(ExpectedLines, 1);
      assert result == Unlines(ExpectedLines[..2]);
      result := result + subsystem2.Operation1();
      UnlinesStep(ExpectedLines, 2);
      assert result == Unlines(ExpectedLines[..3]);
      result := result + "Facade orders subsystems to perform the action:\n";
      UnlinesStep(ExpectedLines, 3);
      assert result == Unlines(ExpectedLines[..4]);
      result := result + subsystem1.OperationN();
      UnlinesStep(ExpectedLines, 4);
      assert result == Unlines(ExpectedLines[..5]);
      result := result + subsystem2.OperationZ();
      UnlinesStep(ExpectedLines, 5);
      assert ExpectedLines[..6] == ExpectedLines;
      forall k | 0 <= k <= |ExpectedLines|
        ensures Unlines(ExpectedLines[..k]) <= result
      {
        UnlinesPrefix(ExpectedLines, k);
      }
      NoLineHoldsANewline();
      LinesOfUnlines(ExpectedLines);
    }
  }

  /** None of the expected lines carries a newline of its own. */
  lemma NoLineHoldsANewline()
    ensures forall k :: 0 <= k < |ExpectedLines| ==> NoNewline(ExpectedLines[k])
  {
    forall k | 0 <= k < |ExpectedLines|
      ensures NoNewline(ExpectedLines[k])
    {
      assert '\n' !in ExpectedLines[k];
      NoNewlineOfNotIn(ExpectedLines[k]);
    }
  }

  /** Calling Operation twice on one facade gives the same report both times,
      and the facade still holds both subsystems. */
  method OperationTwice(facade: Facade) returns (first: string, second: string)
    requires facade.Valid()
    ensures facade.Valid()
    ensures first == second
  {
    first := facade.Operation();
    second := facade.Operation();
  }

  /** Whether the subsystems are supplied, defaulted or mixed, the report is the same. */
  method ConstructionPathsAgree(subsystem1: Subsystem1?, subsystem2: Subsystem2?)
    returns (supplied: string, defaulted: string)
    ensures supplied == defaulted
    ensures Lines(supplied) == ExpectedLines
  {
    var given := new Facade(subsystem1, subsystem2);
    supplied := given.Operation();
    var created := new Facade();
    defaulted := created.Operation();
  }
}
