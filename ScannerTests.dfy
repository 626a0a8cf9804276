/**
 * The scanner's test cases as lemmas: each states what the source's tests
 * expect of one concrete line.
 */
module ScannerTests {
  import opened Outcomes
  import opened Text
  import opened Units
  import opened Lines

  /**
   * The source's nextLine test on an empty stream: there is no line at all, so
   * the read fails as NoLines (assertEmptyLine's exception) and consumes nothing.
   */
  lemma NextLineNoLinesExample()
    ensures Step([], 0, ReadLine) == (Invalid(NoLines), 0)
  {
  }


  /** The source's command-line test: two tokens split off, the rest kept as it stands. */
  lemma TokenizeExample()
    ensures Tokenize("lISt" + "   " + "testSuBcOmmand" + "    " + "test   uSEr iNput stRing")
            == ["lISt", "testSuBcOmmand", "test   uSEr iNput stRing"]
  {
    TokenizeThree("lISt", "   ", "testSuBcOmmand", "    ", "test   uSEr iNput stRing");
  }


  /** The integer parser tests of the source: "123" is read, "123.45" is refused. */
  lemma ParseIntExamples()
    ensures ParseInt("123") == Some(123)
    ensures ParseInt("123.45") == None
  {
    DigitsOfNatText(123);
    assert NatText(123) == "123";
    ParseIntText(123);
    ParseIntRejectsPoint("123.45", 3);
  }


  /** The amount of the source's fetchUnit test, with digits on both sides of the point. */
  lemma ParseFloatUnitAmount()
    ensures ParseFloat("123.45") == Some(123.45)
  {
    DigitsOfNatText(123);
    DigitsOfNatText(45);
    assert NatText(123) == "123" && NatText(45) == "45";
    assert DecimalValue("123", "45") == 123.45;
    assert "123.45" == "123" + "." + "45";
    ParseFloatDecimal("123", "45");
  }

  /** The source's negative nextFloat test: a word is not a number. */
  lemma ParseFloatRefusesWord()
    ensures ParseFloat("string") == None
  {
    ParseFloatNeedsNumber("string");
  }


  /** The source's float test without a leading digit. */
  lemma ParseFloatLeadingPoint()
    ensures ParseFloat(".2349") == Some(0.2349)
  {
    DigitsOfNatText(2349);
    assert NatText(2349) == "2349";
    assert DecimalValue("", "2349") == 0.2349;
    assert ".2349" == "" + "." + "2349";
    ParseFloatDecimal("", "2349");
  }


  /** The source's abort test: "AbOrt " cancels. */
  lemma ReadLineAbortExample()
    ensures ReadLine("AbOrt ") == Aborted
  {
    assert EqualsIgnoreCase("AbOrt", "abort");
    assert "AbOrt " == "" + "AbOrt" + " ";
    AbortWord("", "AbOrt", " ");
  }


  /** The text of the source's first fetchCommand line, between its blanks. */
  const CommandText := "lISt" + "   " + "testSuBcOmmand" + "    " + "test   uSEr iNput stRing"

  /** nextLine keeps that text when the line ends in blanks. */
  lemma CommandTextRead()
    ensures ReadLine(CommandText + "   ") == Scanned(CommandText)
  {
    var s := CommandText;
    assert s[0] == 'l' && s[|s| - 1] == 'g';
    ReadLineOf([], s, "   ");
    assert [] + s + "   " == s + "   ";
  }

  /** createCommandInput on the three tokens of that text. */
  lemma CommandTextInput()
    ensures CreateCommandInput(["lISt", "testSuBcOmmand", "test   uSEr iNput stRing"])
            == CommandInput(LIST, Some("testsubcommand"), Some("test   uSEr iNput stRing"))
  {
    assert ToLower("lISt") == "list";
    assert ToLower("testSuBcOmmand") == "testsubcommand";
  }

  /** The source's first fetchCommand test: command LIST, the subcommand lowered, the rest as typed. */
  lemma ReadCommandExample()
    ensures ReadCommand(CommandText + "   ")
            == Scanned(CommandInput(LIST, Some("testsubcommand"), Some("test   uSEr iNput stRing")))
  {
    CommandTextRead();
    TokenizeExample();
    ReadCommandOf(CommandText + "   ", CommandText, ["lISt", "testSuBcOmmand", "test   uSEr iNput stRing"]);
    CommandTextInput();
  }

  /** nextLine keeps "lst something" as it stands. */
  lemma UnknownCommandLine()
    ensures ReadLine("lst something") == Scanned("lst something")
  {
    ReadLineKeeps("lst something");
  }

  /** "lst something" splits into two tokens. */
  lemma UnknownCommandTokens()
    ensures Tokenize("lst something") == ["lst", "something"]
  {
    assert "lst something" == "lst" + " " + "something";
    TokenizeTwo("lst", " ", "something");
  }

  /** createCommandInput on an unknown command word and one more token. */
  lemma UnknownCommandInput()
    ensures CreateCommandInput(["lst", "something"]) == CommandInput(UNKNOWN, Some("something"), None)
  {
    ToLowerNoop("lst");
    ToLowerNoop("something");
  }

  /** The source's second fetchCommand test: an unknown command word is UNKNOWN. */
  lemma ReadUnknownCommandExample()
    ensures ReadCommand("lst something") == Scanned(CommandInput(UNKNOWN, Some("something"), None))
  {
    UnknownCommandLine();
    UnknownCommandTokens();
    ReadCommandOf("lst something", "lst something", ["lst", "something"]);
    UnknownCommandInput();
  }

  /** "123.45 kg" splits into an amount and a unit word. */
  lemma UnitLineTokens()
    ensures ReadLine("123.45 kg") == Scanned("123.45 kg")
    ensures Tokenize("123.45 kg") == ["123.45", "kg"]
  {
    ReadLineKeeps("123.45 kg");
    assert "123.45 kg" == "123.45" + " " + "kg";
    TokenizeTwo("123.45", " ", "kg");
  }

  /** createUnitInput on an amount and the kilogram word. */
  lemma UnitLineInput()
    ensures CreateUnitInput(["123.45", "kg"]) == Scanned(UnitInput(123.45, KG))
  {
    ToLowerNoop("kg");
    ParseFloatUnitAmount();
  }

  /** The source's fetchUnit test that reads "123.45 kg". */
  lemma ReadUnitExample()
    ensures ReadUnit("123.45 kg") == Scanned(UnitInput(123.45, KG))
  {
    UnitLineTokens();
    ReadUnitOf("123.45 kg", "123.45 kg", ["123.45", "kg"]);
    UnitLineInput();
  }

  /** The source's fetchUnit test that refuses a lone word. */
  lemma ReadUnitLoneWord()
    ensures ReadUnit("k") == Invalid(MissingUnitInputs)
  {
    assert ReadLine("k") == Scanned("k") by {
      ReadLineKeeps("k");
    }
    ReadUnitLone("k");
  }

  /** The source's fetchUnit test that refuses a lone number. */
  lemma ReadUnitLoneNumber()
    ensures ReadUnit("123") == Invalid(MissingUnitInputs)
  {
    assert ReadLine("123") == Scanned("123") by {
      ReadLineKeeps("123");
    }
    ReadUnitLone("123");
  }


  /** A negative number is read but not accepted: collectValidFloat reads on past it. */
  lemma NegativeFloatRetried(lines: seq<string>, pos: nat)
    requires pos < |lines| && lines[pos] == "-2"
    ensures Retry(lines, pos, ReadFloat, NonNegativeReal) == Retry(lines, pos + 1, ReadFloat, NonNegativeReal)
  {
    ReadLineOf("", "-2", "");
    assert "" + "-2" + "" == "-2";
    assert IntText(-2) == "-2";
    ParseIntText(-2);
    ParseIntIsFloat("-2");
    ReadsFollowReadLine("-2");
    RetryPassesOver(lines, pos, ReadFloat, NonNegativeReal);
  }
}
