/** The instruction executor: a unit that turns text commands, structured
    instructions and loosely typed maps into calls of a mutable table of
    command handlers, and replies to the sender with one command result. */
module Control {
  import opened Common
  import opened Text
  import Unit

  type CommandType = string

  const CmdExecute: CommandType := "execute"
  const CmdQuery: CommandType := "query"
  const CmdSet: CommandType := "set"
  const CmdGet: CommandType := "get"
  const CmdList: CommandType := "list"
  const CmdHelp: CommandType := "help"

  /** `Instruction` without its `Context` map, which no handler reads. */
  datatype Instruction = Instruction(typ: CommandType, action: string, args: seq<string>)

  /** The `Data` payload of a command result. */
  datatype Data = NoData | HelpData(text: string) | UnitNames(names: seq<string>) | FoundUnit(unit: Unit.UnitDesc)

  /** `CommandResult`; `error` holds the message of the error value, if any. */
  datatype CommandResult = CommandResult(success: bool, output: string, error: Option<string>, data: Data)

  /** What a `CommandHandler` returns: a result and an error. */
  datatype HandlerOutput = HandlerOutput(result: CommandResult, err: Option<string>)

  /** The handlers a command table can hold: the three defaults, each bound
      to the executor, or any other handler, given by what it computes from
      the arguments. */
  datatype Handler = HelpHandler | ListHandler | QueryHandler | Custom(run: seq<string> -> HandlerOutput)

  /** The dynamic values a map command can carry. */
  datatype AnyValue = Str(s: string) | Strs(items: seq<string>) | Anys(values: seq<AnyValue>) | Opaque(typeName: string)

  /** The messages `Handle` receives, by dynamic type; `typeName` is what
      `%T` prints for any other type. */
  datatype Message =
    | StringMessage(command: string)
    | InstructionMessage(instruction: Instruction)
    | MapMessage(fields: map<string, AnyValue>)
    | OtherMessage(typeName: string)

  datatype ParseError = EmptyCommand | InvalidFormat

  function ParseErrorText(e: ParseError): string
  {
    match e
    case EmptyCommand => "empty command"
    case InvalidFormat => "invalid command format"
  }

  /** A failed result: no output, no data, only the error. */
  function Failure(message: string): CommandResult
  {
    CommandResult(false, "", Some(message), NoData)
  }

  /** The result `handleInstruction` sends for what a handler returned: a
      handler error replaces the result by a failure that reports it. */
  function Settle(out: HandlerOutput): CommandResult
  {
    match out.err
    case None => out.result
    case Some(e) => CommandResult(false, "Error: " + e, Some(e), NoData)
  }

  const HelpText: string :=
    "Available commands:\n"
    + "  help [command] - Show help information\n"
    + "  list [type] - List available units or resources\n"
    + "  query <target> [args...] - Query information from a unit\n"
    + "  execute <script> - Execute a script or command\n"
    + "  set <key> <value> - Set a configuration value\n"
    + "  get <key> - Get a configuration value"

  /** `handleHelp`: the command summary, whatever the arguments. */
  function HandleHelp(args: seq<string>): (r: CommandResult)
    ensures r.success && r.error.None? && r.output == HelpText && r.data == HelpData(r.output)
  {
    CommandResult(true, HelpText, None, HelpData(HelpText))
  }

  // ---------------------------------------------------------------------
  // parseCommand

  /** `parseCommand`: trim; fail on nothing left; otherwise the lower-cased
      first word is the type, the second word the action and the rest the
      arguments. */
  function ParseCommand(input: string): (r: Result<Instruction, ParseError>)
    ensures r.Err? <==> AllSpace(input)
    ensures r.Err? ==> r.error == EmptyCommand
  {
    var trimmed := TrimSpace(input);
    if trimmed == "" then Err(EmptyCommand)
    else
      var parts := Fields(trimmed);
      if |parts| == 0 then Err(InvalidFormat)
      else Ok(Instruction(ToLower(parts[0]),
                          if |parts| > 1 then parts[1] else "",
                          if |parts| > 2 then parts[2..] else []))
  }

  /** The instruction for a non-empty list of words. */
  function InstructionOf(ws: seq<string>): Instruction
    requires ws != []
  {
    Instruction(ToLower(ws[0]), if |ws| > 1 then ws[1] else "", if |ws| > 2 then ws[2..] else [])
  }

  /** A non-empty trimmed string starts with a character that is not white space. */
  lemma TrimmedStartsWithWord(s: string)
    requires TrimSpace(s) != ""
    ensures !IsSpace(TrimSpace(s)[0]) && !AllSpace(TrimSpace(s))
  {
  }

  /** On success, parseCommand reads the fields of the input itself. */
  lemma ParseCommandFields(input: string)
    requires !AllSpace(input)
    ensures Fields(input) != []
    ensures ParseCommand(input) == Ok(InstructionOf(Fields(input)))
  {
    TrimSpaceEmpty(input);
    TrimmedStartsWithWord(input);
    FieldsTrimSpace(input);
  }

  /** Words joined by single spaces parse back into the instruction of
      those words. */
  lemma ParseCommandJoin(ws: seq<string>)
    requires ws != [] && forall i :: 0 <= i < |ws| ==> IsWord(ws[i])
    ensures ParseCommand(Join(ws)) == Ok(InstructionOf(ws))
  {
    FieldsJoin(ws);
    ParseCommandFields(Join(ws));
  }

  /** Words separated by any runs of white space, with any white space
      around them, parse into the instruction of those words. */
  lemma ParseCommandLayout(ws: seq<string>, seps: seq<string>)
    requires ws != [] && Words(ws)
    requires |seps| == |ws| + 1 && Separators(seps)
    ensures ParseCommand(Layout(ws, seps)) == Ok(InstructionOf(ws))
  {
    FieldsLayout(ws, seps);
    ParseCommandFields(Layout(ws, seps));
  }

  /** "query X" puts X in the action and leaves the arguments empty, where
      handleQuery looks for its target. */
  lemma TwoWordQueryHasNoArgs(x: string)
    requires IsWord(x)
    ensures ParseCommand("query " + x) == Ok(Instruction(CmdQuery, x, []))
  {
    assert IsWord("query") by {
      assert "query"[1..] == "uery" && "uery"[1..] == "ery" && "ery"[1..] == "ry" && "ry"[1..] == "y";
    }
    assert Join(["query", x]) == "query " + x;
    ParseCommandJoin(["query", x]);
    assert ToLower("query") == "query";
  }

  // ---------------------------------------------------------------------
  // handleMapCommand's field extraction

  function StringOrEmpty(v: AnyValue): string
  {
    if v.Str? then v.s else ""
  }

  /** The strings of a `[]any`, with "" in place of every non-string. */
  function StringsOrEmpty(values: seq<AnyValue>): (r: seq<string>)
    ensures |r| == |values|
    ensures forall i :: 0 <= i < |values| ==> r[i] == (if values[i].Str? then values[i].s else "")
  {
    if values == [] then [] else [StringOrEmpty(values[0])] + StringsOrEmpty(values[1..])
  }

  /** The copy loop of handleMapCommand over a `[]any`. */
  method StringsOf(values: seq<AnyValue>) returns (args: seq<string>)
    ensures args == StringsOrEmpty(values)
  {
    var out := new string[|values|](_ => "");
    for i := 0 to |values|
      invariant forall j :: 0 <= j < i ==> out[j] == StringOrEmpty(values[j])
      invariant forall j :: i <= j < |values| ==> out[j] == ""
    {
      if values[i].Str? {
        out[i] := values[i].s;
      }
    }
    args := out[..];
  }

  /** The string under `key` when it holds a string, else "". */
  function StringField(cmd: map<string, AnyValue>, key: string): string
  {
    if key in cmd && cmd[key].Str? then cmd[key].s else ""
  }

  /** The arguments of a map command: a `[]string` as it is, a `[]any` with
      non-strings blanked, and nothing otherwise. */
  function ArgsField(cmd: map<string, AnyValue>): seq<string>
  {
    if "args" !in cmd then []
    else match cmd["args"]
      case Strs(items) => items
      case Anys(values) => StringsOrEmpty(values)
      case _ => []
  }

  /** The instruction handleMapCommand builds. */
  function MapInstruction(cmd: map<string, AnyValue>): Instruction
  {
    Instruction(StringField(cmd, "type"), StringField(cmd, "action"), ArgsField(cmd))
  }

  // ---------------------------------------------------------------------
  // The executor

  class InstructionExecutor {
    var commands: map<CommandType, Handler>
    /** The context `Init` stored; null before `Init`. */
    var ctx: Unit.RegistryCtx?

    /** `NewInstructionExecutor`: the three default commands and no context. */
    constructor ()
      ensures commands.Keys == {CmdHelp, CmdList, CmdQuery}
      ensures commands[CmdHelp].HelpHandler? && commands[CmdList].ListHandler? && commands[CmdQuery].QueryHandler?
      ensures ctx == null
    {
      commands := map[];
      ctx := null;
      new;
      RegisterDefaultCommands();
    }

    /** `registerDefaultCommands`. */
    method RegisterDefaultCommands()
      modifies this`commands
      ensures commands == old(commands)[CmdHelp := HelpHandler][CmdList := ListHandler][CmdQuery := QueryHandler]
    {
      RegisterCommand(CmdHelp, HelpHandler);
      RegisterCommand(CmdList, ListHandler);
      RegisterCommand(CmdQuery, QueryHandler);
    }

    /** `Init`: remember the context. */
    method Init(ctx: Unit.RegistryCtx?)
      modifies this`ctx
      ensures this.ctx == ctx
    {
      this.ctx := ctx;
    }

    /** `RegisterCommand`: install or replace the handler of one type. */
    method RegisterCommand(t: CommandType, h: Handler)
      modifies this`commands
      ensures commands == old(commands)[t := h]
    {
      commands := commands[t := h];
    }

    /** What handleList promises: without a context, a failure; with one,
        success, every registered name once as data, and the output
        "Available units: [n1 n2 ...]". */
    ghost predicate IsListResult(r: CommandResult)
      reads this, if ctx == null then {} else {ctx.reg}
    {
      if ctx == null then r == Failure("context not initialized")
      else
        && r.success && r.error.None? && r.data.UnitNames?
        && multiset(r.data.names) == multiset(ctx.reg.units.Keys)
        && r.output == "Available units: [" + Join(r.data.names) + "]"
    }

    /** What handleQuery promises: the first argument names the target; it
        succeeds exactly when a unit is registered under that name, and then
        carries that unit. */
    ghost predicate IsQueryResult(args: seq<string>, r: CommandResult)
      reads this, if ctx == null then {} else {ctx.reg}
    {
      if args == [] then r == Failure("query requires a target")
      else if ctx == null then r == Failure("context not initialized")
      else if args[0] in ctx.reg.units then
        r == CommandResult(true, "Found unit: " + args[0], None, FoundUnit(Unit.UnitDesc(args[0], ctx.reg.units[args[0]])))
      else r == Failure("unit not found: " + args[0])
    }

    /** `handleList`. */
    method HandleList() returns (r: CommandResult)
      ensures IsListResult(r)
    {
      if ctx == null {
        return Failure("context not initialized");
      }
      var units := ctx.Units();
      var names: seq<string> := [];
      for i := 0 to |units|
        invariant names == Project(units[..i], Unit.NameOf)
      {
        ProjectAppend(units[..i], units[i], Unit.NameOf);
        assert units[..i + 1] == units[..i] + [units[i]];
        names := names + [units[i].name];
      }
      assert units[..|units|] == units;
      r := CommandResult(true, "Available units: [" + Join(names) + "]", None, UnitNames(names));
    }

    /** `handleQuery`. */
    method HandleQuery(args: seq<string>) returns (r: CommandResult)
      ensures IsQueryResult(args, r)
    {
      if |args| == 0 {
        return Failure("query requires a target");
      }
      var target := args[0];
      if ctx == null {
        return Failure("context not initialized");
      }
      var units := ctx.Units();
      for i := 0 to |units|
        invariant forall j :: 0 <= j < i ==> units[j].name != target
      {
        if units[i].name == target {
          assert units[i] in units;
          return CommandResult(true, "Found unit: " + target, None, FoundUnit(units[i]));
        }
      }
      var names := Project(units, Unit.NameOf);
      assert target !in names;
      assert target !in multiset(ctx.reg.units.Keys);
      r := Failure("unit not found: " + target);
    }

    /** The reply a handler gives for `args`, once its error is settled. */
    ghost predicate Answers(h: Handler, args: seq<string>, reply: CommandResult)
      reads this, if ctx == null then {} else {ctx.reg}
    {
      match h
      case HelpHandler => reply == HandleHelp(args)
      case ListHandler => IsListResult(reply)
      case QueryHandler => IsQueryResult(args, reply)
      case Custom(run) => reply == Settle(run(args))
    }

    /** Call a handler from the table. */
    method RunHandler(h: Handler, args: seq<string>) returns (out: HandlerOutput)
      ensures Answers(h, args, Settle(out))
    {
      match h
      case HelpHandler =>
        out := HandlerOutput(HandleHelp(args), None);
      case ListHandler =>
        var r := HandleList();
        out := HandlerOutput(r, None);
      case QueryHandler =>
        var r := HandleQuery(args);
        out := HandlerOutput(r, None);
      case Custom(run) =>
        out := run(args);
    }

    /** What handleInstruction does: an unknown type is an error and sends
        nothing; a known one sends exactly one reply, its handler's settled
        result, and is not an error. */
    ghost predicate Dispatched(instr: Instruction, reply: Option<CommandResult>, err: Option<string>)
      reads this, if ctx == null then {} else {ctx.reg}
    {
      if instr.typ !in commands then
        reply == None && err == Some("unknown command type: " + instr.typ)
      else
        err == None && reply.Some? && Answers(commands[instr.typ], instr.args, reply.value)
    }

    /** `handleInstruction`; `reply` is the result passed to `from.Send`. */
    method HandleInstruction(instr: Instruction) returns (reply: Option<CommandResult>, err: Option<string>)
      ensures Dispatched(instr, reply, err)
    {
      if instr.typ !in commands {
        return None, Some("unknown command type: " + instr.typ);
      }
      var out := RunHandler(commands[instr.typ], instr.args);
      reply, err := Some(Settle(out)), None;
    }

    /** `handleStringCommand`: a parse failure is an error and sends nothing. */
    method HandleStringCommand(command: string) returns (reply: Option<CommandResult>, err: Option<string>)
      ensures ParseCommand(command).Err? ==>
        reply == None && err == Some("failed to parse command: " + ParseErrorText(ParseCommand(command).error))
      ensures ParseCommand(command).Ok? ==> Dispatched(ParseCommand(command).value, reply, err)
    {
      match ParseCommand(command)
      case Err(e) =>
        return None, Some("failed to parse command: " + ParseErrorText(e));
      case Ok(instr) =>
        reply, err := HandleInstruction(instr);
    }

    /** `handleMapCommand`. */
    method HandleMapCommand(cmd: map<string, AnyValue>) returns (reply: Option<CommandResult>, err: Option<string>)
      ensures Dispatched(MapInstruction(cmd), reply, err)
    {
      var typ, action, args := "", "", [];
      if "type" in cmd && cmd["type"].Str? {
        typ := cmd["type"].s;
      }
      if "action" in cmd && cmd["action"].Str? {
        action := cmd["action"].s;
      }
      if "args" in cmd && cmd["args"].Strs? {
        args := cmd["args"].items;
      } else if "args" in cmd && cmd["args"].Anys? {
        args := StringsOf(cmd["args"].values);
      }
      reply, err := HandleInstruction(Instruction(typ, action, args));
    }

    /** What `Handle` does with each kind of message. */
    ghost predicate Handled(message: Message, reply: Option<CommandResult>, err: Option<string>)
      reads this, if ctx == null then {} else {ctx.reg}
    {
      match message
      case StringMessage(command) =>
        (match ParseCommand(command)
         case Err(e) => reply == None && err == Some("failed to parse command: " + ParseErrorText(e))
         case Ok(instr) => Dispatched(instr, reply, err))
      case InstructionMessage(instr) => Dispatched(instr, reply, err)
      case MapMessage(fields) => Dispatched(MapInstruction(fields), reply, err)
      case OtherMessage(typeName) => reply == None && err == Some("unsupported message type: " + typeName)
    }

    /** `Handle`: dispatch on the dynamic type of the message. */
    method Handle(message: Message) returns (reply: Option<CommandResult>, err: Option<string>)
      ensures Handled(message, reply, err)
    {
      match message
      case StringMessage(command) =>
        reply, err := HandleStringCommand(command);
      case InstructionMessage(instr) =>
        reply, err := HandleInstruction(instr);
      case MapMessage(fields) =>
        reply, err := HandleMapCommand(fields);
      case OtherMessage(typeName) =>
        reply, err := None, Some("unsupported message type: " + typeName);
    }
  }
}
