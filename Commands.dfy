/**
 * The command layer: the user's parsed input is copied into a command, which
 * either hands over to its subcommand or prints the command's instructions,
 * and prompts for its free-text argument only when the input line did not
 * already carry one. AddCommand routes its subcommand to exactly one handler.
 */
module Commands {
  import opened Outcomes
  import opened Text
  import opened Lines
  import opened Scanner

  // ---------------------------------------------------------------- prompting

  /**
   * Asking for the argument only when it is missing: an argument already there
   * is returned and no line is read; otherwise the answer is what
   * collectValidString collects. Returns what the caller gets and the new read position.
   */
  function Prompted(current: Option<string>, lines: seq<string>, pos: nat): (Collect<string>, nat)
    requires pos <= |lines|
  {
    if current.Some? then (Accepted(current.value), pos)
    else Retry(lines, pos, ReadLine, AnyString)
  }

  /**
   * A prompt reads nothing when the argument is already set; when it is not, it
   * stops just past the line that decided it. Once answered, asking again gives
   * the same answer and reads nothing more.
   */
  lemma PromptedMeaning(current: Option<string>, lines: seq<string>, pos: nat)
    requires pos <= |lines|
    ensures var r := Prompted(current, lines, pos);
            && pos <= r.1 <= |lines|
            && (current.Some? ==> r == (Accepted(current.value), pos))
            && (current.None? && r.0.Accepted? ==> pos < r.1 && ReadLine(lines[r.1 - 1]) == Scanned(r.0.value))
            && (current.None? && r.0.Cancelled? ==> pos < r.1 && ReadLine(lines[r.1 - 1]) == Aborted)
            && (r.0.Accepted? ==> Prompted(Some(r.0.value), lines, r.1) == r)
  {
    if current.None? {
      RetryEndsOnDecidingLine(lines, pos, ReadLine, AnyString);
    }
  }

  /**
   * An answer to a prompt is the stripped text of the line that decided it: never
   * empty, and never the abort word.
   */
  lemma PromptAnswer(lines: seq<string>, pos: nat)
    requires pos <= |lines|
    ensures var r := Prompted(None, lines, pos);
            r.0.Accepted? ==> && pos < r.1
                              && r.0.value == Strip(lines[r.1 - 1])
                              && r.0.value != []
                              && !EqualsIgnoreCase(r.0.value, "abort")
  {
    var r := Prompted(None, lines, pos);
    PromptedMeaning(None, lines, pos);
    if r.0.Accepted? {
      var raw := lines[r.1 - 1];
      ReadLineMeaning(raw);
      StripIdempotent(raw);
    }
  }

  // ---------------------------------------------------------------- Command (base)

  /** What processCommand does: hand the subcommand over, or print the help for a command word. */
  datatype Dispatch = ProcessSubcommand(subcommand: string) | PrintInstruction(topic: string)

  /**
   * The base command: the command word, subcommand and input string copied from
   * the user's input, and the scanner it prompts on.
   */
  class Command {
    var userInputCommand: CommandWord
    var userInputSubcommand: Option<string>
    var userInputString: Option<string>
    const inputScanner: InputScanner

    /** init / setUserInput: the three parts of the input are copied verbatim. */
    constructor (input: CommandInput, scanner: InputScanner)
      ensures userInputCommand == input.command
      ensures userInputSubcommand == input.subcommand
      ensures userInputString == input.argument
      ensures inputScanner == scanner
    {
      userInputCommand := input.command;
      userInputSubcommand := input.subcommand;
      userInputString := input.argument;
      inputScanner := scanner;
    }

    /** hasSubcommand: the subcommand is present. */
    function HasSubcommand(): (r: bool)
      reads this
      ensures r <==> userInputSubcommand.Some?
    {
      userInputSubcommand != None
    }

    /**
     * processCommand: exactly one of processSubcommand (with the subcommand there
     * is) or printInstruction (with the command's lower-case name, which names
     * that same command again).
     */
    function ProcessCommand(): (r: Dispatch)
      reads this
      ensures r.ProcessSubcommand? <==> HasSubcommand()
      ensures r.ProcessSubcommand? ==> userInputSubcommand == Some(r.subcommand)
      ensures r.PrintInstruction? ==> r.topic == CommandName(userInputCommand)
    {
      if HasSubcommand() then ProcessSubcommand(userInputSubcommand.value)
      else PrintInstruction(CommandName(userInputCommand))
    }

    /**
     * getInputString: prompts and reads only when the input string is not set;
     * an answer is kept, so later calls return it without reading.
     */
    method GetInputString() returns (r: Collect<string>)
      requires inputScanner.Valid()
      modifies this`userInputString, inputScanner`pos
      ensures inputScanner.Valid()
      ensures (r, inputScanner.pos) == Prompted(old(userInputString), inputScanner.lines, old(inputScanner.pos))
      ensures userInputString == if r.Accepted? then Some(r.value) else old(userInputString)
    {
      if userInputString.Some? {
        return Accepted(userInputString.value);
      }
      r := inputScanner.CollectValidString();
      if r.Accepted? {
        userInputString := Some(r.value);
      }
    }
  }

  /**
   * The help topic printInstruction asks for is already in lower case, and it is
   * the word that names the same command again.
   */
  lemma InstructionTopic(c: CommandWord)
    ensures ToLower(CommandName(c)) == CommandName(c)
    ensures c != UNKNOWN ==> FindCommand(Some(CommandName(c))) == c
  {
    var name := CommandName(c);
    assert forall i :: 0 <= i < |name| ==> 'a' <= name[i] <= 'z';
  }

  /** Two calls of getInputString: once the first is answered, the second returns the same and reads nothing. */
  method GetInputStringTwice(c: Command) returns (first: Collect<string>, second: Collect<string>)
    requires c.inputScanner.Valid()
    modifies c`userInputString, c.inputScanner`pos
    ensures first.Accepted? ==> second == first && c.userInputString == Some(first.value)
  {
    first := c.GetInputString();
    ghost var at := c.inputScanner.pos;
    second := c.GetInputString();
    if first.Accepted? {
      assert c.inputScanner.pos == at;
    }
  }

  // ---------------------------------------------------------------- AddCommand

  /** The handler processSubcommand picks for a subcommand; execute shows help when there is none. */
  datatype Route = ShowHelp | AddStorage | AddIngredient | AddRecipe | IllegalCommand(subcommand: string)

  /** The subcommands AddCommand knows. */
  predicate KnownSubcommand(s: string)
  {
    s == "storage" || s == "inventory" || s == "ingredient" || s == "recipe"
  }

  /**
   * execute and processSubcommand: no subcommand shows help; "storage" and
   * "inventory" add a storage, "ingredient" an ingredient, "recipe" a recipe;
   * every other subcommand is an illegal combination.
   */
  function RouteOf(subcommand: Option<string>): (r: Route)
    ensures r == ShowHelp <==> subcommand.None?
    ensures r == AddStorage <==> subcommand == Some("storage") || subcommand == Some("inventory")
    ensures r == AddIngredient <==> subcommand == Some("ingredient")
    ensures r == AddRecipe <==> subcommand == Some("recipe")
    ensures r.IllegalCommand? <==> subcommand.Some? && !KnownSubcommand(subcommand.value)
    ensures r.IllegalCommand? ==> subcommand == Some(r.subcommand)
  {
    match subcommand
    case None => ShowHelp
    case Some(s) =>
      if s == "storage" || s == "inventory" then AddStorage
      else if s == "ingredient" then AddIngredient
      else if s == "recipe" then AddRecipe
      else IllegalCommand(s)
  }

  /**
   * The subcommand is lowered when the line is parsed, so a known subcommand
   * typed in any mix of cases routes as its lower-case word.
   */
  lemma TypedSubcommandRoutes(tokens: seq<string>, word: string)
    requires |tokens| > 1 && KnownSubcommand(word) && EqualsIgnoreCase(tokens[1], word)
    ensures RouteOf(CreateCommandInput(tokens).subcommand) == RouteOf(Some(word))
  {
    var lowered := ToLower(tokens[1]);
    assert |lowered| == |word|;
    forall i | 0 <= i < |word|
      ensures lowered[i] == word[i]
    {
      assert 'a' <= word[i] <= 'z';
    }
    assert lowered == word;
  }

  /** What executing an add command amounts to outside the command itself. */
  datatype Effect =
    | Help(command: CommandWord)
    | StorageCreated(name: string)
    | IngredientAdded(name: string)
    | RecipeAdded
    | IllegalCombination(command: CommandWord, subcommand: string)
    | Interrupted

  /**
   * The effect of running `route`, the argument afterwards and the read position
   * after the command's own name prompt: of the command's own reads, only the
   * storage and ingredient handlers prompt, and only they depend on the argument;
   * a prompt that is cancelled or runs out of lines adds nothing. Whatever the
   * inventory and recipe managers go on to read is theirs and is not counted.
   */
  function Routed(command: CommandWord, route: Route, argument: Option<string>, lines: seq<string>, pos: nat)
    : (Effect, Option<string>, nat)
    requires pos <= |lines|
  {
    match route
    case ShowHelp => (Help(command), argument, pos)
    case AddRecipe => (RecipeAdded, argument, pos)
    case IllegalCommand(s) => (IllegalCombination(command, s), argument, pos)
    case AddStorage =>
      var p := Prompted(argument, lines, pos);
      if p.0.Accepted? then (StorageCreated(p.0.value), Some(p.0.value), p.1) else (Interrupted, argument, p.1)
    case AddIngredient =>
      var p := Prompted(argument, lines, pos);
      if p.0.Accepted? then (IngredientAdded(p.0.value), Some(p.0.value), p.1) else (Interrupted, argument, p.1)
  }

  /**
   * Without a subcommand nothing is added and no line is read; a storage is
   * created exactly for "storage" or "inventory", an ingredient exactly for
   * "ingredient", each under the argument when one was given and otherwise under
   * the answer to the prompt; an unknown subcommand is reported and reads nothing.
   */
  lemma RoutedMeaning(command: CommandWord, subcommand: Option<string>, argument: Option<string>, lines: seq<string>, pos: nat)
    requires pos <= |lines|
    ensures var x := Routed(command, RouteOf(subcommand), argument, lines, pos);
            && pos <= x.2 <= |lines|
            && (subcommand.None? ==> x == (Help(command), argument, pos))
            && (x.0.StorageCreated? <==> RouteOf(subcommand) == AddStorage && Prompted(argument, lines, pos).0.Accepted?)
            && (x.0.IngredientAdded? <==> RouteOf(subcommand) == AddIngredient && Prompted(argument, lines, pos).0.Accepted?)
            && (x.0.IllegalCombination? <==> subcommand.Some? && !KnownSubcommand(subcommand.value))
            && (argument.Some? && (x.0.StorageCreated? || x.0.IngredientAdded?) ==> x.0.name == argument.value && x.2 == pos)
            && (argument.None? && (x.0.StorageCreated? || x.0.IngredientAdded?) ==>
                  pos < x.2 && x.0.name == Strip(lines[x.2 - 1]) && x.0.name != [])
            && (x.0.Interrupted? ==> argument.None?)
  {
    PromptedMeaning(argument, lines, pos);
    PromptAnswer(lines, pos);
  }

  /** The add command: its word, its subcommand, its argument (set by prompting) and its scanner. */
  class AddCommand {
    const command: CommandWord
    const subcommand: Option<string>
    var argument: Option<string>
    const inputScanner: InputScanner

    constructor (input: CommandInput, scanner: InputScanner)
      ensures command == input.command && subcommand == input.subcommand && argument == input.argument
      ensures inputScanner == scanner
    {
      command := input.command;
      subcommand := input.subcommand;
      argument := input.argument;
      inputScanner := scanner;
    }

    /** isArgumentEmpty, then setArgument: prompt only when there is no argument. */
    method PromptIfEmpty() returns (r: Collect<string>)
      requires inputScanner.Valid()
      modifies this`argument, inputScanner`pos
      ensures inputScanner.Valid()
      ensures (r, inputScanner.pos) == Prompted(old(argument), inputScanner.lines, old(inputScanner.pos))
      ensures argument == if r.Accepted? then Some(r.value) else old(argument)
    {
      if argument.Some? {
        return Accepted(argument.value);
      }
      r := inputScanner.CollectValidString();
      if r.Accepted? {
        argument := Some(r.value);
      }
    }

    /** execute: route the subcommand, prompting for the name in addStorage and addIngredient. */
    method Execute() returns (e: Effect)
      requires inputScanner.Valid()
      modifies this`argument, inputScanner`pos
      ensures inputScanner.Valid()
      ensures (e, argument, inputScanner.pos)
              == Routed(command, RouteOf(subcommand), old(argument), inputScanner.lines, old(inputScanner.pos))
    {
      match RouteOf(subcommand)
      case ShowHelp => e := Help(command);
      case AddRecipe => e := RecipeAdded;
      case IllegalCommand(s) => e := IllegalCombination(command, s);
      case AddStorage =>
        var name := PromptIfEmpty();
        e := if name.Accepted? then StorageCreated(name.value) else Interrupted;
      case AddIngredient =>
        var name := PromptIfEmpty();
        e := if name.Accepted? then IngredientAdded(name.value) else Interrupted;
    }
  }
}
