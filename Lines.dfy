/**
 * What the input scanner does with one line, and what its retry loops do with
 * a sequence of lines: the line discipline of `nextLine` (strip, refuse a blank
 * line, cancel on the abort word), the three-way split of a command line, the
 * parsers for numbers, command words and unit words, and the retry
 * specification the collectValid* loops are proved against.
 */
module Lines {
  import opened Outcomes
  import opened Text
  import opened Units

  /** Why one read failed. Every one of these is an IllegalArgumentException in the source. */
  datatype Fault = NoLines | EmptyInput | NotANumber | MissingUnitInputs | UnknownUnit

  /** The outcome of one read: a value, a recoverable failure, or the abort word. */
  datatype Scan<+T> = Scanned(value: T) | Invalid(fault: Fault) | Aborted

  /**
   * The outcome of a retry loop: the first acceptable value, cancellation by the
   * abort word, or the input running out (where the source's loop would spin forever).
   */
  datatype Collect<+T> = Accepted(value: T) | Cancelled | Exhausted

  // ---------------------------------------------------------------- lines

  /**
   * nextLine on one raw line: the line is stripped; a blank line is refused
   * before the abort word is looked for; the abort word, in any case, cancels.
   */
  function ReadLine(raw: string): Scan<string>
  {
    var line := Strip(raw);
    if IsBlank(line) then Invalid(EmptyInput)
    else if EqualsIgnoreCase(Strip(line), "abort") then Aborted
    else Scanned(line)
  }

  /**
   * What nextLine lets through is the stripped line, which is never empty and
   * neither starts nor ends with whitespace; the line is refused as empty exactly
   * when it is blank, and cancels exactly when its stripped text is "abort" in any case.
   */
  lemma ReadLineMeaning(raw: string)
    ensures ReadLine(raw) == Invalid(EmptyInput) <==> IsBlank(raw)
    ensures ReadLine(raw) == Aborted <==> !IsBlank(raw) && EqualsIgnoreCase(Strip(raw), "abort")
    ensures ReadLine(raw).Invalid? ==> ReadLine(raw).fault == EmptyInput
    ensures ReadLine(raw).Scanned? ==> ReadLine(raw).value == Strip(raw) && ReadLine(raw).value != []
    ensures ReadLine(raw).Scanned? ==> var t := ReadLine(raw).value; !IsWhitespace(t[0]) && !IsWhitespace(t[|t| - 1])
  {
    StripMeaning(raw);
    StripMeaning(Strip(raw));
    StripIdempotent(raw);
  }

  // ---------------------------------------------------------------- tokens

  /** The index of the first `\s` character of `s`, or `|s|` when there is none. */
  function FirstSpace(s: string): (r: nat)
    ensures r <= |s|
    ensures r < |s| ==> IsSpace(s[r])
    ensures forall i :: 0 <= i < r ==> !IsSpace(s[i])
  {
    if s == [] || IsSpace(s[0]) then 0 else 1 + FirstSpace(s[1..])
  }

  /** The length of the run of `\s` characters `s` starts with. */
  function SpaceRun(s: string): (r: nat)
    ensures r <= |s|
    ensures r < |s| ==> !IsSpace(s[r])
    ensures forall i :: 0 <= i < r ==> IsSpace(s[i])
  {
    if s != [] && IsSpace(s[0]) then 1 + SpaceRun(s[1..]) else 0
  }

  predicate SpaceFree(s: string)
  {
    forall i :: 0 <= i < |s| ==> !IsSpace(s[i])
  }

  predicate AllSpace(s: string)
  {
    s != [] && forall i :: 0 <= i < |s| ==> IsSpace(s[i])
  }

  /**
   * One cut at the first run of `\s`: the text before it, the whole run, and the
   * text after it. There is no cut exactly when the text holds no `\s`.
   */
  function Cut(s: string): (r: Option<(string, string, string)>)
    ensures r.None? <==> SpaceFree(s)
    ensures r.Some? ==> var (a, b, c) := r.value;
                        && s == a + b + c && SpaceFree(a) && AllSpace(b) && (c == [] || !IsSpace(c[0]))
  {
    var i := FirstSpace(s);
    if i == |s| then None
    else
      var n := SpaceRun(s[i..]);
      CutParts(s, i, n);
      Some((s[..i], s[i..i + n], s[i + n..]))
  }

  /** The three parts around the run of `\s` that starts at the first `\s`, at `i`. */
  lemma CutParts(s: string, i: nat, n: nat)
    requires i < |s| && i == FirstSpace(s) && n == SpaceRun(s[i..])
    ensures i + n <= |s|
    ensures s == s[..i] + s[i..i + n] + s[i + n..]
    ensures SpaceFree(s[..i]) && AllSpace(s[i..i + n]) && (s[i + n..] == [] || !IsSpace(s[i + n..][0]))
  {
    CutJoins(s, i, n);
    CutShape(s, i, n);
  }

  /** The three parts make up the text. */
  lemma CutJoins(s: string, i: nat, n: nat)
    requires i + n <= |s|
    ensures s == s[..i] + s[i..i + n] + s[i + n..]
  {
    assert s[i..] == s[i..i + n] + s[i + n..];
    assert s == s[..i] + s[i..];
  }

  /** The first part has no `\s`, the middle one is a whole run of it. */
  lemma CutShape(s: string, i: nat, n: nat)
    requires i < |s| && i == FirstSpace(s) && n == SpaceRun(s[i..])
    ensures i + n <= |s|
    ensures SpaceFree(s[..i]) && AllSpace(s[i..i + n]) && (s[i + n..] == [] || !IsSpace(s[i + n..][0]))
  {
    var rest := s[i..];
    assert rest[0] == s[i];
    assert n > 0;
    var run, before := s[i..i + n], s[..i];
    forall k | 0 <= k < n
      ensures IsSpace(run[k])
    {
      assert run[k] == rest[k];
    }
    forall k | 0 <= k < i
      ensures !IsSpace(before[k])
    {
      assert before[k] == s[k];
    }
    assert i + n < |s| ==> s[i + n..][0] == rest[n];
  }

  /** Where the cut falls, given the first `\s` at `i` and the run ending at `j`. */
  lemma CutAt(s: string, i: nat, j: nat)
    requires i < j <= |s|
    requires SpaceFree(s[..i]) && AllSpace(s[i..j]) && (j < |s| ==> !IsSpace(s[j]))
    ensures Cut(s) == Some((s[..i], s[i..j], s[j..]))
  {
    assert s[i] == s[i..j][0];
    var f := FirstSpace(s);
    if f < i {
      assert false;
    }
    var n := SpaceRun(s[i..]);
    if n < j - i {
      assert false;
    }
    if n > j - i {
      assert false;
    }
  }

  /**
   * tokenizeInput, Java's `split("\\s+", 3)`: at most three tokens split on runs of
   * `\s`; the third token is the rest of the line as it stands.
   */
  function Tokenize(s: string): seq<string>
  {
    match Cut(s)
    case None => [s]
    case Some((a, _, c)) =>
      match Cut(c)
      case None => [a, c]
      case Some((b, _, d)) => [a, b, d]
  }

  /** The separator runs `Tokenize` drops, one between each pair of neighbouring tokens. */
  function Separators(s: string): seq<string>
  {
    match Cut(s)
    case None => []
    case Some((_, x, c)) =>
      match Cut(c)
      case None => [x]
      case Some((_, y, _)) => [x, y]
  }

  /** The tokens with the separators put back between them. */
  function Interleave(tokens: seq<string>, seps: seq<string>): string
    requires |tokens| == |seps| + 1
  {
    if seps == [] then tokens[0]
    else tokens[0] + seps[0] + Interleave(tokens[1..], seps[1..])
  }

  /**
   * Splitting loses no text: there are one to three tokens, putting the separators
   * back yields the line, every separator is a non-empty run of `\s`, every token
   * but the last holds no `\s`, and no token after a separator starts with `\s`
   * (the runs are maximal). The last token therefore keeps the rest of the line verbatim.
   */
  lemma TokenizeJoins(s: string)
    ensures var t := Tokenize(s); 1 <= |t| <= 3 && |Separators(s)| == |t| - 1
    ensures Interleave(Tokenize(s), Separators(s)) == s
    ensures forall j :: 0 <= j < |Separators(s)| ==> AllSpace(Separators(s)[j])
    ensures forall j :: 0 <= j < |Tokenize(s)| - 1 ==> SpaceFree(Tokenize(s)[j])
    ensures forall j :: 0 < j < |Tokenize(s)| ==> Tokenize(s)[j] == [] || !IsSpace(Tokenize(s)[j][0])
  {
    match Cut(s)
    case None =>
    case Some((a, x, c)) =>
      match Cut(c)
      case None =>
        assert Interleave([a, c], [x]) == a + x + c;
      case Some((b, y, d)) =>
        assert [a, b, d][1..] == [b, d] && [b, d][1..] == [d];
        assert [x, y][1..] == [y] && [y][1..] == [];
        assert Interleave([b, d], [y]) == b + y + Interleave([d], []);
        assert Interleave([a, b, d], [x, y]) == a + x + (b + y + d);
  }

  /**
   * A stripped, non-empty line (what nextLine hands on) splits into non-empty
   * tokens: fetchCommand never sees an empty command word, subcommand or argument.
   */
  lemma StrippedTokens(s: string)
    requires s != [] && !IsWhitespace(s[0]) && !IsWhitespace(s[|s| - 1])
    ensures forall j :: 0 <= j < |Tokenize(s)| ==> Tokenize(s)[j] != []
  {
    SpaceIsWhitespace(s[0]);
    SpaceIsWhitespace(s[|s| - 1]);
    match Cut(s)
    case None =>
      assert Tokenize(s) == [s];
    case Some((a, x, c)) =>
      JoinEnds(a, x, c);
      assert a != [] && c != [];
      match Cut(c)
      case None =>
        assert Tokenize(s) == [a, c];
      case Some((b, y, d)) =>
        JoinEnds(b, y, d);
        assert b != [] && d != [];
        assert Tokenize(s) == [a, b, d];
  }

  /** The ends of a text cut around a non-empty middle part. */
  lemma JoinEnds(a: string, x: string, c: string)
    requires x != []
    ensures (a + x + c)[0] == if a == [] then x[0] else a[0]
    ensures (a + x + c)[|a + x + c| - 1] == if c == [] then x[|x| - 1] else c[|c| - 1]
  {
  }

  /** A line without `\s` is one token. */
  lemma TokenizeOne(a: string)
    requires SpaceFree(a)
    ensures Tokenize(a) == [a] && Separators(a) == []
  {
  }

  /**
   * Conversely to TokenizeJoins, a line made of a token, a run of `\s` and a
   * second token without `\s` splits into exactly those two tokens.
   */
  lemma TokenizeTwo(a: string, x: string, b: string)
    requires SpaceFree(a) && AllSpace(x) && SpaceFree(b) && (b == [] || !IsSpace(b[0]))
    ensures Tokenize(a + x + b) == [a, b] && Separators(a + x + b) == [x]
  {
    CutAround(a, x, b);
  }

  /** A text made of a part without `\s`, a run of `\s` and a rest not starting with `\s` is cut at that run. */
  lemma CutAround(a: string, x: string, c: string)
    requires SpaceFree(a) && AllSpace(x) && (c == [] || !IsSpace(c[0]))
    ensures Cut(a + x + c) == Some((a, x, c))
  {
    var s := a + x + c;
    assert s[..|a|] == a && s[|a|..|a| + |x|] == x && s[|a| + |x|..] == c;
    CutAt(s, |a|, |a| + |x|);
  }

  /**
   * A line made of two tokens without `\s`, each followed by a run of `\s`,
   * and a rest that does not start with `\s` splits into the two tokens and
   * the rest as it stands, whatever spacing the rest holds.
   */
  lemma TokenizeThree(a: string, x: string, b: string, y: string, d: string)
    requires SpaceFree(a) && AllSpace(x) && SpaceFree(b) && b != [] && AllSpace(y) && (d == [] || !IsSpace(d[0]))
    ensures Tokenize(a + x + b + y + d) == [a, b, d] && Separators(a + x + b + y + d) == [x, y]
  {
    var c := b + y + d;
    assert a + x + b + y + d == a + x + c;
    assert c[0] == b[0];
    CutAround(a, x, c);
    CutAround(b, y, d);
  }

  // ---------------------------------------------------------------- numbers

  predicate IsDigit(c: char)
  {
    '0' <= c <= '9'
  }

  predicate AllDigits(s: string)
  {
    forall i :: 0 <= i < |s| ==> IsDigit(s[i])
  }

  /** The value of a string of decimal digits. */
  function DigitsValue(s: string): nat
    requires AllDigits(s)
  {
    if s == [] then 0 else DigitsValue(s[..|s| - 1]) * 10 + (s[|s| - 1] as int - '0' as int)
  }

  const MinInt: int := -0x8000_0000
  const MaxInt: int := 0x7FFF_FFFF

  /** An optional leading sign: whether it is a minus, and what follows it. */
  function SplitSign(s: string): (r: (bool, string))
    ensures r.1 == if |s| > 0 && (s[0] == '-' || s[0] == '+') then s[1..] else s
    ensures r.0 <==> |s| > 0 && s[0] == '-'
  {
    if |s| > 0 && (s[0] == '-' || s[0] == '+') then (s[0] == '-', s[1..]) else (false, s)
  }

  /**
   * Integer.parseInt: an optional sign and at least one decimal digit, with a value
   * that fits in 32 bits; anything else is a NumberFormatException.
   */
  function ParseInt(s: string): (r: Option<int>)
    ensures r.Some? ==> MinInt <= r.value <= MaxInt
    ensures r.Some? && r.value < 0 ==> |s| > 0 && s[0] == '-'
  {
    var (neg, body) := SplitSign(s);
    if body == [] || !AllDigits(body) then None
    else
      var v: int := if neg then -(DigitsValue(body) as int) else DigitsValue(body);
      if MinInt <= v <= MaxInt then Some(v) else None
  }

  /** The index of the first `c` in `s`, or `|s|` when there is none. */
  function IndexOfChar(s: string, c: char): (r: nat)
    ensures r <= |s|
    ensures r < |s| ==> s[r] == c
    ensures forall i :: 0 <= i < r ==> s[i] != c
  {
    if s == [] || s[0] == c then 0 else 1 + IndexOfChar(s[1..], c)
  }

  /**
   * Float.parseFloat on plain decimal text: an optional sign, digits, and an
   * optional point followed by digits, with a digit on at least one side of the point.
   */
  function ParseFloat(s: string): (r: Option<real>)
    ensures r.Some? && r.value < 0.0 ==> |s| > 0 && s[0] == '-'
  {
    var (neg, body) := SplitSign(s);
    var d := IndexOfChar(body, '.');
    var whole := body[..d];
    var frac := if d < |body| then body[d + 1..] else [];
    if !AllDigits(whole) || !AllDigits(frac) || (whole == [] && frac == []) then None
    else
      var m := DecimalValue(whole, frac);
      Some(if neg then -m else m)
  }

  /** The value of decimal text with the given whole part and fraction digits. */
  function DecimalValue(whole: string, frac: string): (r: real)
    requires AllDigits(whole) && AllDigits(frac)
    ensures r >= 0.0
  {
    DigitsValue(whole) as real + FractionValue(frac)
  }

  /** The value of fraction digits: each digit is worth a tenth of the one before it. */
  function FractionValue(frac: string): (r: real)
    requires AllDigits(frac)
    ensures 0.0 <= r <= 1.0
  {
    if frac == [] then 0.0 else ((frac[0] as int - '0' as int) as real + FractionValue(frac[1..])) / 10.0
  }

  /** The decimal text of a natural number, as Integer.toString writes it. */
  function NatText(n: nat): (r: string)
    ensures r != [] && AllDigits(r)
  {
    var d := [(n % 10 + '0' as int) as char];
    if n < 10 then d else NatText(n / 10) + d
  }

  /** Integer.toString. */
  function IntText(i: int): string
  {
    if i < 0 then "-" + NatText(-i) else NatText(i)
  }

  lemma {:induction false} DigitsOfNatText(n: nat)
    ensures DigitsValue(NatText(n)) == n
  {
    if n >= 10 {
      DigitsOfNatText(n / 10);
      assert NatText(n)[..|NatText(n)| - 1] == NatText(n / 10);
    }
  }

  /** Parsing what Integer.toString writes gives the number back, for every 32-bit value. */
  lemma ParseIntText(i: int)
    requires MinInt <= i <= MaxInt
    ensures ParseInt(IntText(i)) == Some(i)
  {
    if i < 0 {
      DigitsOfNatText(-i);
      assert SplitSign(IntText(i)).1 == NatText(-i);
    } else {
      DigitsOfNatText(i);
    }
  }

  /** Text containing a decimal point is never an integer: "123.45" is refused. */
  lemma ParseIntRejectsPoint(s: string, p: nat)
    requires p < |s| && s[p] == '.'
    ensures ParseInt(s) == None
  {
    var body := SplitSign(s).1;
    if |s| > 0 && (s[0] == '-' || s[0] == '+') {
      assert p > 0 && body[p - 1] == '.';
    } else {
      assert body[p] == '.';
    }
  }

  /** Every text Integer.parseInt accepts, Float.parseFloat accepts with the same value. */
  lemma ParseIntIsFloat(s: string)
    requires ParseInt(s).Some?
    ensures ParseFloat(s) == Some(ParseInt(s).value as real)
  {
    var body := SplitSign(s).1;
    if IndexOfChar(body, '.') < |body| {
      assert false;
    }
    assert body[..|body|] == body;
    assert DecimalValue(body, []) == DigitsValue(body) as real;
  }

  /**
   * Plain decimal text without a sign, digits on at least one side of the point,
   * is read as its whole part plus its fraction.
   */
  lemma ParseFloatDecimal(w: string, f: string)
    requires AllDigits(w) && AllDigits(f) && (w != [] || f != [])
    ensures ParseFloat(w + "." + f) == Some(DecimalValue(w, f))
  {
    var s := w + "." + f;
    assert forall k :: 0 <= k < |w| ==> s[k] == w[k];
    assert s[|w|] == '.';
    assert SplitSign(s).1 == s;
    var d := IndexOfChar(s, '.');
    if d < |w| {
      assert false;
    }
    assert d == |w|;
    assert s[..d] == w && s[d + 1..] == f;
  }

  /** Text that starts with anything but a sign, a digit or a point is not a number. */
  lemma ParseFloatNeedsNumber(s: string)
    requires s != [] && !IsDigit(s[0]) && s[0] != '.' && s[0] != '-' && s[0] != '+'
    ensures ParseFloat(s) == None
  {
    assert SplitSign(s).1 == s;
    var d := IndexOfChar(s, '.');
    assert d > 0;
    assert s[..d][0] == s[0];
  }

  // ---------------------------------------------------------------- registries

  /** The command words, with UNKNOWN for any word that is none of them. */
  datatype CommandWord = ADD | REMOVE | FIND | LIST | CLEAR | GO | STATS | HELP | EXIT | UNKNOWN

  /** The word a command is typed as (its enum name in lower case). */
  function CommandName(c: CommandWord): string
  {
    match c
    case ADD => "add"
    case REMOVE => "remove"
    case FIND => "find"
    case LIST => "list"
    case CLEAR => "clear"
    case GO => "go"
    case STATS => "stats"
    case HELP => "help"
    case EXIT => "exit"
    case UNKNOWN => "unknown"
  }

  /** CommandRegistry.findCommand: a missing or unrecognised word is UNKNOWN. */
  function FindCommand(word: Option<string>): CommandWord
  {
    match word
    case None => UNKNOWN
    case Some(w) =>
      if w == "add" then ADD
      else if w == "remove" then REMOVE
      else if w == "find" then FIND
      else if w == "list" then LIST
      else if w == "clear" then CLEAR
      else if w == "go" then GO
      else if w == "stats" then STATS
      else if w == "help" then HELP
      else if w == "exit" then EXIT
      else UNKNOWN
  }

  /** A word names a (known) command exactly when it is that command's name. */
  lemma FindCommandName(w: string, c: CommandWord)
    requires c != UNKNOWN
    ensures FindCommand(Some(w)) == c <==> w == CommandName(c)
  {
  }

  /** UnitRegistry.findUnit: the lower-case unit words; anything else is no unit. */
  function FindUnit(word: Option<string>): (r: Option<Unit>)
  {
    match word
    case None => None
    case Some(w) =>
      if w == "kg" then Some(KG)
      else if w == "g" then Some(G)
      else if w == "l" then Some(L)
      else if w == "dl" then Some(DL)
      else if w == "ml" then Some(ML)
      else None
  }

  function UnitName(u: Unit): string
  {
    match u
    case KG => "kg"
    case G => "g"
    case L => "l"
    case DL => "dl"
    case ML => "ml"
  }

  /** A word names a unit exactly when it is that unit's name. */
  lemma FindUnitName(w: string, u: Unit)
    ensures FindUnit(Some(w)) == Some(u) <==> w == UnitName(u)
  {
  }

  // ---------------------------------------------------------------- parsed inputs

  /** CommandInput: the command word, and the subcommand and argument when present. */
  datatype CommandInput = CommandInput(command: CommandWord, subcommand: Option<string>, argument: Option<string>)

  /** UnitInput: an amount and a unit. */
  datatype UnitInput = UnitInput(amount: real, unit: Unit)

  /**
   * createCommandInput: the first token, lowered, names the command; the second,
   * lowered, is the subcommand; the third is the argument as typed. A missing token is absent.
   */
  function CreateCommandInput(tokens: seq<string>): (r: CommandInput)
    ensures r.command == FindCommand(if |tokens| > 0 then Some(ToLower(tokens[0])) else None)
    ensures r.subcommand.Some? <==> |tokens| > 1
    ensures r.subcommand.Some? ==> EqualsIgnoreCase(r.subcommand.value, tokens[1])
                                   && forall i :: 0 <= i < |tokens[1]| ==> !('A' <= r.subcommand.value[i] <= 'Z')
    ensures r.argument.Some? <==> |tokens| > 2
    ensures r.argument.Some? ==> r.argument.value == tokens[2]
  {
    CommandInput(FindCommand(if |tokens| > 0 then Some(ToLower(tokens[0])) else None),
                 if |tokens| > 1 then Some(ToLower(tokens[1])) else None,
                 if |tokens| > 2 then Some(tokens[2]) else None)
  }

  /**
   * createUnitInput: the first token is the amount and the second, lowered, the
   * unit; text that is not a number or not a unit word is refused, the number first.
   */
  function CreateUnitInput(tokens: seq<string>): (r: Scan<UnitInput>)
    ensures r != Aborted
    ensures r.Invalid? ==> r.fault == NotANumber || r.fault == UnknownUnit
    ensures |tokens| > 0 && ParseFloat(tokens[0]).None? ==> r == Invalid(NotANumber)
    ensures r.Scanned? ==> |tokens| > 1 && FindUnit(Some(ToLower(tokens[1]))) == Some(r.value.unit)
    ensures r.Scanned? && |tokens| > 0 ==> ParseFloat(tokens[0]) == Some(r.value.amount)
  {
    var amount := if |tokens| > 0 then ParseFloat(tokens[0]) else Some(-1.0);
    var unit := FindUnit(if |tokens| > 1 then Some(ToLower(tokens[1])) else None);
    if amount.None? then Invalid(NotANumber)
    else if unit.None? then Invalid(UnknownUnit)
    else Scanned(UnitInput(amount.value, unit.value))
  }

  /** nextFloat on one raw line. */
  function ReadFloat(raw: string): (r: Scan<real>)
  {
    match ReadLine(raw)
    case Scanned(t) => (match ParseFloat(t) case Some(v) => Scanned(v) case None => Invalid(NotANumber))
    case Invalid(f) => Invalid(f)
    case Aborted => Aborted
  }

  /** nextInteger on one raw line. */
  function ReadInteger(raw: string): (r: Scan<int>)
  {
    match ReadLine(raw)
    case Scanned(t) => (match ParseInt(t) case Some(v) => Scanned(v) case None => Invalid(NotANumber))
    case Invalid(f) => Invalid(f)
    case Aborted => Aborted
  }

  /** fetchCommand on one raw line. */
  function ReadCommand(raw: string): (r: Scan<CommandInput>)
  {
    match ReadLine(raw)
    case Scanned(t) => Scanned(CreateCommandInput(Tokenize(t)))
    case Invalid(f) => Invalid(f)
    case Aborted => Aborted
  }

  /** fetchUnit on one raw line: fewer than two tokens is a missing unit input. */
  function ReadUnit(raw: string): (r: Scan<UnitInput>)
  {
    match ReadLine(raw)
    case Scanned(t) =>
      var tokens := Tokenize(t);
      if |tokens| < 2 then Invalid(MissingUnitInputs) else CreateUnitInput(tokens)
    case Invalid(f) => Invalid(f)
    case Aborted => Aborted
  }

  /**
   * Each typed read fails exactly as nextLine fails on the same line (a blank line,
   * the abort word); on a line nextLine lets through it is the parse of the stripped line.
   */
  lemma ReadsFollowReadLine(raw: string)
    ensures ReadFloat(raw) == Aborted <==> ReadLine(raw) == Aborted
    ensures ReadInteger(raw) == Aborted <==> ReadLine(raw) == Aborted
    ensures ReadCommand(raw) == Aborted <==> ReadLine(raw) == Aborted
    ensures ReadUnit(raw) == Aborted <==> ReadLine(raw) == Aborted
    ensures IsBlank(raw) ==> && ReadFloat(raw) == Invalid(EmptyInput) && ReadInteger(raw) == Invalid(EmptyInput)
                             && ReadUnit(raw) == Invalid(EmptyInput) && ReadCommand(raw) == Invalid(EmptyInput)
    ensures ReadFloat(raw).Scanned? <==> ReadLine(raw).Scanned? && ParseFloat(Strip(raw)).Some?
    ensures ReadFloat(raw).Scanned? ==> ReadFloat(raw).value == ParseFloat(Strip(raw)).value
    ensures ReadInteger(raw).Scanned? <==> ReadLine(raw).Scanned? && ParseInt(Strip(raw)).Some?
    ensures ReadInteger(raw).Scanned? ==> ReadInteger(raw).value == ParseInt(Strip(raw)).value
    ensures ReadCommand(raw).Scanned? <==> ReadLine(raw).Scanned?
    ensures ReadCommand(raw).Scanned? ==> ReadCommand(raw).value == CreateCommandInput(Tokenize(Strip(raw)))
    ensures ReadLine(raw).Scanned? && |Tokenize(Strip(raw))| < 2 ==> ReadUnit(raw) == Invalid(MissingUnitInputs)
    ensures ReadUnit(raw).Scanned? ==> ReadLine(raw).Scanned? && CreateUnitInput(Tokenize(Strip(raw))) == ReadUnit(raw)
  {
    ReadLineMeaning(raw);
  }

  /** A line that is there is never refused for want of a line: NoLines comes only from the end of input. */
  lemma ReadsHaveLine(raw: string)
    ensures ReadLine(raw) != Invalid(NoLines) && ReadFloat(raw) != Invalid(NoLines)
    ensures ReadInteger(raw) != Invalid(NoLines) && ReadCommand(raw) != Invalid(NoLines)
    ensures ReadUnit(raw) != Invalid(NoLines)
  {
    assert ReadLine(raw) != Invalid(NoLines);
  }

  /** fetchCommand on a line nextLine hands on: the command input of the kept text's tokens. */
  lemma ReadCommandOf(raw: string, s: string, tokens: seq<string>)
    requires ReadLine(raw) == Scanned(s) && Tokenize(s) == tokens
    ensures ReadCommand(raw) == Scanned(CreateCommandInput(tokens))
  {
  }

  /** fetchUnit on a line nextLine hands on: the kept text's tokens decide. */
  lemma ReadUnitOf(raw: string, s: string, tokens: seq<string>)
    requires ReadLine(raw) == Scanned(s) && Tokenize(s) == tokens
    ensures |tokens| < 2 ==> ReadUnit(raw) == Invalid(MissingUnitInputs)
    ensures |tokens| >= 2 ==> ReadUnit(raw) == CreateUnitInput(tokens)
  {
  }

  /** fetchUnit refuses a line nextLine hands on that holds a single token. */
  lemma ReadUnitLone(s: string)
    requires ReadLine(s) == Scanned(s) && SpaceFree(s)
    ensures ReadUnit(s) == Invalid(MissingUnitInputs)
  {
    TokenizeOne(s);
  }

  /**
   * nextLine hands on the text between surrounding blanks as it stands, unless it
   * is the abort word.
   */
  lemma ReadLineOf(u: string, s: string, w: string)
    requires IsBlank(u) && IsBlank(w)
    requires s != [] && !IsWhitespace(s[0]) && !IsWhitespace(s[|s| - 1])
    requires !EqualsIgnoreCase(s, "abort")
    ensures ReadLine(u + s + w) == Scanned(s)
  {
    StripAround(u, s, w);
    StripNoop(s);
    assert !IsBlank(s) by {
      assert !IsWhitespace(s[0]);
    }
  }

  /** A spelling of the abort word, with blanks around it, cancels. */
  lemma AbortWord(u: string, a: string, w: string)
    requires IsBlank(u) && IsBlank(w) && |a| == 5 && EqualsIgnoreCase(a, "abort")
    ensures ReadLine(u + a + w) == Aborted
  {
    assert a[0] != ' ' && !IsWhitespace(a[0]) && !IsWhitespace(a[4]) by {
      assert LowerChar(a[0]) == 'a' && LowerChar(a[4]) == 't';
    }
    StripAround(u, a, w);
    StripNoop(a);
    assert !IsBlank(a) by {
      assert !IsWhitespace(a[0]);
    }
  }

  /** nextLine hands on a line that has no surrounding blanks and is not the abort word. */
  lemma ReadLineKeeps(s: string)
    requires s != [] && !IsWhitespace(s[0]) && !IsWhitespace(s[|s| - 1])
    requires !EqualsIgnoreCase(s, "abort")
    ensures ReadLine(s) == Scanned(s)
  {
    StripNoop(s);
    assert !IsBlank(s) by {
      assert !IsWhitespace(s[0]);
    }
  }

  // ---------------------------------------------------------------- retrying

  /** One read from the line source at `pos`: NoLines at the end, otherwise the line is consumed. */
  function Step<T>(lines: seq<string>, pos: nat, read: string -> Scan<T>): (r: (Scan<T>, nat))
    ensures pos < |lines| ==> r == (read(lines[pos]), pos + 1)
    ensures pos >= |lines| ==> r == (Invalid(NoLines), pos)
  {
    if pos < |lines| then (read(lines[pos]), pos + 1) else (Invalid(NoLines), pos)
  }

  /** A line a retry loop passes over: refused by the read, or read but not accepted. */
  predicate Skipped<T>(s: Scan<T>, accept: T -> bool)
  {
    s.Invalid? || (s.Scanned? && !accept(s.value))
  }

  /**
   * The collectValid* loops: read from `pos` until a value is accepted (Valid, just
   * past its line), the abort word comes (Cancelled, just past it) or the lines run out.
   */
  function Retry<T>(lines: seq<string>, pos: nat, read: string -> Scan<T>, accept: T -> bool): (r: (Collect<T>, nat))
    requires pos <= |lines|
    ensures pos <= r.1 <= |lines|
    ensures r.0.Exhausted? ==> r.1 == |lines|
    decreases |lines| - pos
  {
    if pos == |lines| then (Exhausted, pos)
    else match read(lines[pos])
      case Aborted => (Cancelled, pos + 1)
      case Scanned(v) => if accept(v) then (Accepted(v), pos + 1) else Retry(lines, pos + 1, read, accept)
      case Invalid(_) => Retry(lines, pos + 1, read, accept)
  }

  /** A retry loop stops on an acceptable value, just past its line. */
  lemma RetryAccepts<T>(lines: seq<string>, pos: nat, read: string -> Scan<T>, accept: T -> bool, v: T)
    requires pos < |lines| && read(lines[pos]) == Scanned(v) && accept(v)
    ensures Retry(lines, pos, read, accept) == (Accepted(v), pos + 1)
  {
  }

  /** A retry loop stops on the abort word, just past its line. */
  lemma RetryCancels<T>(lines: seq<string>, pos: nat, read: string -> Scan<T>, accept: T -> bool)
    requires pos < |lines| && read(lines[pos]) == Aborted
    ensures Retry(lines, pos, read, accept) == (Cancelled, pos + 1)
  {
  }

  /** A line a retry loop passes over leaves the outcome to the lines after it. */
  lemma RetryPassesOver<T>(lines: seq<string>, pos: nat, read: string -> Scan<T>, accept: T -> bool)
    requires pos < |lines| && Skipped(read(lines[pos]), accept)
    ensures Retry(lines, pos, read, accept) == Retry(lines, pos + 1, read, accept)
  {
  }

  /**
   * A retry loop that accepts a value or is cancelled stops right after the line
   * that decided it: the accepted value is that line's reading, and it is acceptable.
   */
  lemma {:induction false} RetryEndsOnDecidingLine<T>(lines: seq<string>, pos: nat, read: string -> Scan<T>, accept: T -> bool)
    requires pos <= |lines|
    ensures var r := Retry(lines, pos, read, accept);
            && (r.0.Accepted? ==> pos < r.1 && read(lines[r.1 - 1]) == Scanned(r.0.value) && accept(r.0.value))
            && (r.0.Cancelled? ==> pos < r.1 && read(lines[r.1 - 1]) == Aborted)
    decreases |lines| - pos
  {
    if pos < |lines| && Skipped(read(lines[pos]), accept) {
      RetryEndsOnDecidingLine(lines, pos + 1, read, accept);
    }
  }

  /** Every line from `lo` up to `hi` is one a retry loop passes over. */
  predicate AllSkipped<T>(lines: seq<string>, lo: nat, hi: nat, read: string -> Scan<T>, accept: T -> bool)
    requires lo <= hi <= |lines|
  {
    forall j :: lo <= j < hi ==> Skipped(read(lines[j]), accept)
  }

  /**
   * What a retry loop returns is decided by the first line it does not pass over:
   * every line before the one it stops after was passed over.
   */
  lemma {:induction false} RetrySkips<T>(lines: seq<string>, pos: nat, read: string -> Scan<T>, accept: T -> bool)
    requires pos <= |lines|
    ensures var r := Retry(lines, pos, read, accept);
            if r.0.Exhausted? then AllSkipped(lines, pos, |lines|, read, accept)
            else AllSkipped(lines, pos, r.1 - 1, read, accept)
    decreases |lines| - pos
  {
    if pos < |lines| && Skipped(read(lines[pos]), accept) {
      RetrySkips(lines, pos + 1, read, accept);
    }
  }

  /**
   * Conversely, when the lines from `pos` up to `k` are passed over, the loop's
   * outcome is the one line `k` decides, or Exhausted when `k` is the end.
   */
  lemma {:induction false} RetryStopsAt<T>(lines: seq<string>, pos: nat, k: nat, read: string -> Scan<T>, accept: T -> bool)
    requires pos <= k <= |lines| && AllSkipped(lines, pos, k, read, accept)
    ensures k == |lines| ==> Retry(lines, pos, read, accept) == (Exhausted, k)
    ensures k < |lines| && read(lines[k]) == Aborted ==> Retry(lines, pos, read, accept) == (Cancelled, k + 1)
    ensures k < |lines| && read(lines[k]).Scanned? && accept(read(lines[k]).value)
            ==> Retry(lines, pos, read, accept) == (Accepted(read(lines[k]).value), k + 1)
    decreases k - pos
  {
    if pos < k {
      assert Skipped(read(lines[pos]), accept);
      RetryStopsAt(lines, pos + 1, k, read, accept);
    }
  }

  /** What collectValidString accepts: any line nextLine lets through. */
  predicate AnyString(s: string)
  {
    true
  }

  /** What collectValidUnitInput accepts: any unit input fetchUnit lets through. */
  predicate AnyUnitInput(u: UnitInput)
  {
    true
  }

  /** What collectValidFloat accepts. */
  predicate NonNegativeReal(x: real)
  {
    x >= 0.0
  }

  /** What collectValidInteger accepts. */
  predicate NonNegativeInt(x: int)
  {
    x >= 0
  }

  /**
   * The abort word ends every retry loop at once, whatever it was waiting for and
   * however many lines it passed over before: none of them absorbs it.
   */
  lemma AbortCancelsEveryLoop(lines: seq<string>, pos: nat)
    requires pos < |lines| && ReadLine(lines[pos]) == Aborted
    ensures Retry(lines, pos, ReadLine, AnyString) == (Cancelled, pos + 1)
    ensures Retry(lines, pos, ReadFloat, NonNegativeReal) == (Cancelled, pos + 1)
    ensures Retry(lines, pos, ReadInteger, NonNegativeInt) == (Cancelled, pos + 1)
    ensures Retry(lines, pos, ReadUnit, AnyUnitInput) == (Cancelled, pos + 1)
  {
    ReadsFollowReadLine(lines[pos]);
    RetryCancels(lines, pos, ReadLine, AnyString);
    RetryCancels(lines, pos, ReadFloat, NonNegativeReal);
    RetryCancels(lines, pos, ReadInteger, NonNegativeInt);
    RetryCancels(lines, pos, ReadUnit, AnyUnitInput);
  }
}
