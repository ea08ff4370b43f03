/** Properties of the instruction executor that combine the parser and the
    command table. */
module ControlProperties {
  import opened Common
  import opened Text
  import opened Control

  /** A fresh executor answers a help command, typed in any case and with
      any arguments, with the command summary. */
  method HelpOnFreshExecutor(ws: seq<string>) returns (reply: Option<CommandResult>, err: Option<string>)
    requires ws != [] && Words(ws) && ToLower(ws[0]) == CmdHelp
    ensures err == None && reply == Some(CommandResult(true, HelpText, None, HelpData(HelpText)))
  {
    var ie := new InstructionExecutor();
    ParseCommandJoin(ws);
    reply, err := ie.Handle(StringMessage(Join(ws)));
  }

  /** A text command whose type the table does not hold is an error, and
      nothing is sent back. */
  method UnknownCommandIsError(ie: InstructionExecutor, ws: seq<string>) returns (reply: Option<CommandResult>, err: Option<string>)
    requires ws != [] && Words(ws) && ToLower(ws[0]) !in ie.commands
    ensures reply == None && err == Some("unknown command type: " + ToLower(ws[0]))
  {
    ParseCommandJoin(ws);
    reply, err := ie.Handle(StringMessage(Join(ws)));
  }

  /** "query X" typed as text never finds X: the target lands in the action,
      and the default query handler reads it from the arguments. */
  method TwoWordQueryFails(ie: InstructionExecutor, x: string) returns (reply: Option<CommandResult>, err: Option<string>)
    requires IsWord(x)
    requires CmdQuery in ie.commands && ie.commands[CmdQuery].QueryHandler?
    ensures err == None && reply == Some(Failure("query requires a target"))
  {
    TwoWordQueryHasNoArgs(x);
    reply, err := ie.Handle(StringMessage("query " + x));
  }

  /** A handler installed with RegisterCommand answers its type, and the
      other types keep their handlers. */
  method RegisteredHandlerAnswers(ie: InstructionExecutor, t: CommandType, run: seq<string> -> HandlerOutput, args: seq<string>)
      returns (reply: Option<CommandResult>, err: Option<string>)
    modifies ie
    ensures err == None && reply == Some(Settle(run(args)))
    ensures forall u :: u in old(ie.commands) && u != t ==> u in ie.commands
  {
    ie.RegisterCommand(t, Custom(run));
    reply, err := ie.Handle(InstructionMessage(Instruction(t, "", args)));
  }
}
