/**
 * InputScanner: the console as a fixed sequence of lines and a read position.
 * Each read consumes one line (or finds none left, which is the NoLines
 * failure of `hasNextLine`); the collectValid* methods are the source's retry
 * loops, each proved to return what the retry specification in Lines says.
 */
module Scanner {
  import opened Outcomes
  import opened Lines

  /** InputScanner over a fixed sequence of console lines. */
  class InputScanner {
    const lines: seq<string>
    var pos: nat

    ghost predicate Valid()
      reads this
    {
      pos <= |lines|
    }

    constructor (lines: seq<string>)
      ensures Valid()
      ensures this.lines == lines && pos == 0
    {
      this.lines := lines;
      pos := 0;
    }

    method NextLine() returns (r: Scan<string>)
      requires Valid()
      modifies this`pos
      ensures Valid()
      ensures (r, pos) == Step(lines, old(pos), ReadLine)
    {
      if pos == |lines| {
        return Invalid(NoLines);
      }
      r := ReadLine(lines[pos]);
      pos := pos + 1;
    }

    method NextFloat() returns (r: Scan<real>)
      requires Valid()
      modifies this`pos
      ensures Valid()
      ensures (r, pos) == Step(lines, old(pos), ReadFloat)
    {
      var line := NextLine();
      match line
      case Scanned(t) =>
        var v := ParseFloat(t);
        r := if v.Some? then Scanned(v.value) else Invalid(NotANumber);
      case Invalid(f) => r := Invalid(f);
      case Aborted => r := Aborted;
    }

    method NextInteger() returns (r: Scan<int>)
      requires Valid()
      modifies this`pos
      ensures Valid()
      ensures (r, pos) == Step(lines, old(pos), ReadInteger)
    {
      var line := NextLine();
      match line
      case Scanned(t) =>
        var v := ParseInt(t);
        r := if v.Some? then Scanned(v.value) else Invalid(NotANumber);
      case Invalid(f) => r := Invalid(f);
      case Aborted => r := Aborted;
    }

    method FetchCommand() returns (r: Scan<CommandInput>)
      requires Valid()
      modifies this`pos
      ensures Valid()
      ensures (r, pos) == Step(lines, old(pos), ReadCommand)
    {
      var line := NextLine();
      match line
      case Scanned(t) => r := Scanned(CreateCommandInput(Tokenize(t)));
      case Invalid(f) => r := Invalid(f);
      case Aborted => r := Aborted;
    }

    method FetchUnit() returns (r: Scan<UnitInput>)
      requires Valid()
      modifies this`pos
      ensures Valid()
      ensures (r, pos) == Step(lines, old(pos), ReadUnit)
    {
      var line := NextLine();
      match line
      case Scanned(t) =>
        var tokens := Tokenize(t);
        if |tokens| < 2 {
          r := Invalid(MissingUnitInputs);
        } else {
          r := CreateUnitInput(tokens);
        }
      case Invalid(f) => r := Invalid(f);
      case Aborted => r := Aborted;
    }

    /**
     * One read with `read` from the current line: NoLines when none is left (the
     * hasNextLine check every read starts with), otherwise the line is consumed.
     */
    method ReadWith<T>(read: string -> Scan<T>) returns (r: Scan<T>)
      requires Valid()
      modifies this`pos
      ensures Valid()
      ensures (r, pos) == Step(lines, old(pos), read)
    {
      if pos == |lines| {
        return Invalid(NoLines);
      }
      r := read(lines[pos]);
      pos := pos + 1;
    }

    /**
     * The loop the collectValid* methods share: read on, passing over refused and
     * unacceptable lines, until a value is accepted, the abort word comes or the
     * lines run out. `read` is never refused for want of a line while one is left.
     */
    method CollectWith<T>(read: string -> Scan<T>, accept: T -> bool) returns (r: Collect<T>)
      requires Valid()
      requires forall raw :: read(raw) != Invalid(NoLines)
      modifies this`pos
      ensures Valid()
      ensures (r, pos) == Retry(lines, old(pos), read, accept)
    {
      var found: Option<T> := None;
      while found.None?
        invariant Valid() && old(pos) <= pos
        invariant found.None? ==> Retry(lines, old(pos), read, accept) == Retry(lines, pos, read, accept)
        invariant found.Some? ==> Retry(lines, old(pos), read, accept) == (Accepted(found.value), pos)
        decreases |lines| - pos, if found.None? then 1 else 0
      {
        ghost var at := pos;
        var got := ReadWith(read);
        match got
        case Scanned(v) =>
          if accept(v) {
            RetryAccepts(lines, at, read, accept, v);
            found := Some(v);
          } else {
            RetryPassesOver(lines, at, read, accept);
          }
        case Invalid(f) =>
          if f == NoLines {
            return Exhausted;
          }
          RetryPassesOver(lines, at, read, accept);
        case Aborted =>
          RetryCancels(lines, at, read, accept);
          return Cancelled;
      }
      return Accepted(found.value);
    }

    /** collectValidString: the first line nextLine lets through. */
    method CollectValidString() returns (r: Collect<string>)
      requires Valid()
      modifies this`pos
      ensures Valid()
      ensures (r, pos) == Retry(lines, old(pos), ReadLine, AnyString)
    {
      forall raw ensures ReadLine(raw) != Invalid(NoLines) {
        ReadsHaveLine(raw);
      }
      r := CollectWith(ReadLine, AnyString);
    }

    /** collectValidFloat: the first number read that is not negative. */
    method CollectValidFloat() returns (r: Collect<real>)
      requires Valid()
      modifies this`pos
      ensures Valid()
      ensures (r, pos) == Retry(lines, old(pos), ReadFloat, NonNegativeReal)
    {
      forall raw ensures ReadFloat(raw) != Invalid(NoLines) {
        ReadsHaveLine(raw);
      }
      r := CollectWith(ReadFloat, NonNegativeReal);
    }

    /** collectValidInteger: the first integer read that is not negative. */
    method CollectValidInteger() returns (r: Collect<int>)
      requires Valid()
      modifies this`pos
      ensures Valid()
      ensures (r, pos) == Retry(lines, old(pos), ReadInteger, NonNegativeInt)
    {
      forall raw ensures ReadInteger(raw) != Invalid(NoLines) {
        ReadsHaveLine(raw);
      }
      r := CollectWith(ReadInteger, NonNegativeInt);
    }

    /** collectValidUnitInput: the first line fetchUnit lets through. */
    method CollectValidUnitInput() returns (r: Collect<UnitInput>)
      requires Valid()
      modifies this`pos
      ensures Valid()
      ensures (r, pos) == Retry(lines, old(pos), ReadUnit, AnyUnitInput)
    {
      forall raw ensures ReadUnit(raw) != Invalid(NoLines) {
        ReadsHaveLine(raw);
      }
      r := CollectWith(ReadUnit, AnyUnitInput);
    }
  }
}
