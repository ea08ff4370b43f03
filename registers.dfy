/** The registers tool: named values set and read through a small text
    command language ("set n v...", "get n", "list", "clear"). */
module RegistersTool {
  import opened Common
  import opened Text
  import Strconv

  /** A register's dynamic value, as `parseValue` classified it: an `int64`,
      a `float64` (kept as the literal it was parsed from), a bool, or the
      text itself. */
  datatype Value = IntValue(i: int) | FloatValue(literal: string) | BoolValue(b: bool) | StringValue(s: string)

  /** The replies `Handle` sends, one per successful command. `Shows` is
      "name = value", after a set or a get. */
  datatype Reply =
    | Shows(name: string, value: Value)
    | NotFound(name: string)
    | NoRegisters
    | Listing(entries: map<string, Value>)
    | Cleared

  /** The errors `Handle` returns. `UnknownCommand` carries the whole command. */
  datatype Error =
    | EmptyCommand
    | SetNeedsNameAndValue
    | InvalidValue(reason: string)
    | GetNeedsName
    | UnknownCommand(command: string)

  /** `parseValue`: an integer if ParseInt accepts the text, else a float if
      ParseFloat does, else a bool for exactly "true" or "false", else the
      text. Its error result is never produced. */
  function ParseValue(s: string): (r: Result<Value, string>)
    ensures r.Ok?
  {
    match Strconv.ParseInt(s)
    case Some(i) => Ok(IntValue(i))
    case None =>
      if Strconv.IsFloatLiteral(s) then Ok(FloatValue(s))
      else if s == "true" then Ok(BoolValue(true))
      else if s == "false" then Ok(BoolValue(false))
      else Ok(StringValue(s))
  }

  /** The reply, the error and the registers after one command. */
  datatype Outcome = Outcome(reply: Option<Reply>, err: Option<Error>, registers: map<string, Value>)

  /** What `Handle` does to the registers `m` for the command `cmd`. */
  function Step(m: map<string, Value>, cmd: string): (r: Outcome)
    ensures r.err.Some? ==> r.registers == m && r.reply.None?
    ensures r.err.None? ==> r.reply.Some?
    ensures r.err.None? || !r.err.value.InvalidValue?
  {
    var parts := Fields(cmd);
    if parts == [] then Outcome(None, Some(EmptyCommand), m)
    else if parts[0] == "set" then
      if |parts| < 3 then Outcome(None, Some(SetNeedsNameAndValue), m)
      else
        match ParseValue(Join(parts[2..]))
        case Err(e) => Outcome(None, Some(InvalidValue(e)), m)
        case Ok(v) => Outcome(Some(Shows(parts[1], v)), None, m[parts[1] := v])
    else if parts[0] == "get" then
      if |parts| < 2 then Outcome(None, Some(GetNeedsName), m)
      else if parts[1] in m then Outcome(Some(Shows(parts[1], m[parts[1]])), None, m)
      else Outcome(Some(NotFound(parts[1])), None, m)
    else if parts[0] == "list" then
      if |m| == 0 then Outcome(Some(NoRegisters), None, m) else Outcome(Some(Listing(m)), None, m)
    else if parts[0] == "clear" then Outcome(Some(Cleared), None, map[])
    else Outcome(None, Some(UnknownCommand(cmd)), m)
  }

  class Registers {
    var registers: map<string, Value>

    /** `NewRegisters`. */
    constructor ()
      ensures registers == map[]
    {
      registers := map[];
    }

    /** `Set`: store under `name`; every other name keeps its value. */
    method Set(name: string, value: Value)
      modifies this
      ensures registers == old(registers)[name := value]
    {
      registers := registers[name := value];
    }

    /** `Get`: the value under `name`, and whether there is one. */
    method Get(name: string) returns (r: Option<Value>)
      ensures r.Some? <==> name in registers
      ensures r.Some? ==> r.value == registers[name]
    {
      r := Lookup(registers, name);
    }

    /** `List`: a fresh copy of the contents. */
    method List() returns (copy: map<string, Value>)
      ensures copy == registers
    {
      copy := CopyMap(registers);
    }

    /** `Clear`: drop every register. */
    method Clear()
      modifies this
      ensures registers == map[]
    {
      registers := map[];
    }

    /** `Handle`: one command; `reply` is what is sent back to the caller. */
    method Handle(cmd: string) returns (reply: Option<Reply>, err: Option<Error>)
      modifies this
      ensures Outcome(reply, err, registers) == Step(old(registers), cmd)
    {
      var parts := Fields(cmd);
      if |parts| == 0 {
        return None, Some(EmptyCommand);
      }
      var action := parts[0];
      if action == "set" {
        if |parts| < 3 {
          return None, Some(SetNeedsNameAndValue);
        }
        var name := parts[1];
        var value := Join(parts[2..]);
        match ParseValue(value)
        case Err(e) =>
          return None, Some(InvalidValue(e));
        case Ok(v) =>
          Set(name, v);
          reply, err := Some(Shows(name, v)), None;
      } else if action == "get" {
        if |parts| < 2 {
          return None, Some(GetNeedsName);
        }
        var name := parts[1];
        var val := Get(name);
        if val.Some? {
          reply := Some(Shows(name, val.value));
        } else {
          reply := Some(NotFound(name));
        }
        err := None;
      } else if action == "list" {
        var regs := List();
        if |regs| == 0 {
          reply := Some(NoRegisters);
        } else {
          reply := Some(Listing(regs));
        }
        err := None;
      } else if action == "clear" {
        Clear();
        reply, err := Some(Cleared), None;
      } else {
        reply, err := None, Some(UnknownCommand(cmd));
      }
    }
  }

  // ---------------------------------------------------------------------
  // Properties of parseValue

  /** A printed 64-bit integer is read back as that integer. */
  lemma ParseValueFormatInt(i: int)
    requires Strconv.MinInt64 <= i <= Strconv.MaxInt64
    ensures ParseValue(Strconv.FormatInt(i)) == Ok(IntValue(i))
  {
    Strconv.ParseFormatInt(i);
  }

  /** Every text ParseInt accepts would also pass ParseFloat, so it is the
      order of the tests that keeps integers out of the float case: a float
      value is never an integer literal. */
  lemma FloatValueIsNotIntLiteral(s: string)
    requires ParseValue(s) == Ok(FloatValue(s))
    ensures Strconv.ParseInt(s).None? && Strconv.IsFloatLiteral(s)
  {
  }

  /** "true" and "false" are bools: neither ParseInt nor ParseFloat accepts them. */
  lemma ParseValueBools()
    ensures ParseValue("true") == Ok(BoolValue(true))
    ensures ParseValue("false") == Ok(BoolValue(false))
  {
    assert Text.ToLower("true") == "true";
    assert Text.ToLower("false") == "false";
    NotFloatLiteral("true");
    NotFloatLiteral("false");
  }

  /** Underscores between digits are accepted by ParseFloat but not by
      ParseInt, so "1_000" is stored as a float; a doubled underscore is
      accepted by neither, so "1__000" stays text. */
  lemma UnderscoreSeparators()
    ensures ParseValue("1_000") == Ok(FloatValue("1_000"))
    ensures ParseValue("1__000") == Ok(StringValue("1__000"))
  {
    Strconv.UnderscoredThousand();
    Strconv.DoubledUnderscore();
  }

  /** A text that starts with neither a digit, a sign nor a point, and
      that is not "inf", "infinity" or "nan" in any case, is not a number. */
  lemma NotFloatLiteral(s: string)
    requires s != [] && !Strconv.IsDigit(s[0]) && s[0] != '+' && s[0] != '-' && s[0] != '.'
    requires Text.ToLower(s) != "inf" && Text.ToLower(s) != "infinity" && Text.ToLower(s) != "nan"
    ensures Strconv.ParseInt(s).None? && !Strconv.IsFloatLiteral(s)
  {
    assert Strconv.SplitSign(s).1 == s;
    var e := Strconv.IndexWhere(s, Strconv.IsExponentMark);
    var m := s[..e];
    var d := Strconv.IndexWhere(m, Strconv.IsPoint);
    if d > 0 {
      assert m[..d][0] == s[0];
    }
  }

  // ---------------------------------------------------------------------
  // Properties of Handle, stated on Step

  /** Two words followed by more words are all words. */
  lemma CommandWords(action: string, name: string, words: seq<string>)
    requires action in {"set", "get", "clear", "list", "SET"}
    requires IsWord(name) && forall i :: 0 <= i < |words| ==> IsWord(words[i])
    ensures forall i :: 0 <= i < |[action, name] + words| ==> IsWord(([action, name] + words)[i])
  {
    assert "set"[1..] == "et" && "et"[1..] == "t";
    assert "get"[1..] == "et";
    assert "SET"[1..] == "ET" && "ET"[1..] == "T";
    assert "clear"[1..] == "lear" && "lear"[1..] == "ear" && "ear"[1..] == "ar" && "ar"[1..] == "r";
    assert "list"[1..] == "ist" && "ist"[1..] == "st" && "st"[1..] == "t";
    assert IsWord(action);
    forall i | 0 <= i < |[action, name] + words|
      ensures IsWord(([action, name] + words)[i])
    {
      if i >= 2 {
        assert ([action, name] + words)[i] == words[i - 2];
      }
    }
  }

  /** A command whose fields are "set", a name and at least one more word. */
  lemma StepSet(m: map<string, Value>, cmd: string)
    requires |Fields(cmd)| >= 3 && Fields(cmd)[0] == "set"
    ensures var v := ParseValue(Join(Fields(cmd)[2..])).value;
      Step(m, cmd) == Outcome(Some(Shows(Fields(cmd)[1], v)), None, m[Fields(cmd)[1] := v])
  {
  }

  /** "set name w1 w2 ..." stores the parse of "w1 w2 ..." under name,
      leaves every other register alone and shows what it stored. */
  lemma SetStores(m: map<string, Value>, name: string, words: seq<string>)
    requires IsWord(name) && words != [] && forall i :: 0 <= i < |words| ==> IsWord(words[i])
    ensures var v := ParseValue(Join(words)).value;
      Step(m, Join(["set", name] + words)) == Outcome(Some(Shows(name, v)), None, m[name := v])
  {
    var ws := ["set", name] + words;
    CommandWords("set", name, words);
    FieldsJoin(ws);
    assert ws[0] == "set" && ws[1] == name && ws[2..] == words;
    StepSet(m, Join(ws));
  }

  /** The same with any white space around and between the words: the
      value is the remaining fields re-joined by single spaces, so runs of
      white space inside a value collapse to one space. */
  lemma SetStoresAnySpacing(m: map<string, Value>, name: string, words: seq<string>, seps: seq<string>)
    requires IsWord(name) && words != [] && forall i :: 0 <= i < |words| ==> IsWord(words[i])
    requires |seps| == |words| + 3 && Separators(seps)
    ensures var v := ParseValue(Join(words)).value;
      Step(m, Layout(["set", name] + words, seps)) == Outcome(Some(Shows(name, v)), None, m[name := v])
  {
    var ws := ["set", name] + words;
    CommandWords("set", name, words);
    FieldsLayout(ws, seps);
    assert ws[0] == "set" && ws[1] == name && ws[2..] == words;
    StepSet(m, Layout(ws, seps));
  }

  /** "get name" shows the value stored under name, or reports it missing,
      without an error and without changing anything. */
  lemma GetReads(m: map<string, Value>, name: string)
    requires IsWord(name)
    ensures name in m ==> Step(m, Join(["get", name])) == Outcome(Some(Shows(name, m[name])), None, m)
    ensures name !in m ==> Step(m, Join(["get", name])) == Outcome(Some(NotFound(name)), None, m)
  {
    assert IsWord("get") by {
      assert "get"[1..] == "et" && "et"[1..] == "t";
    }
    FieldsJoin(["get", name]);
  }

  /** Round trip: after "set name w1 ...", "get name" shows the stored value. */
  lemma SetThenGet(m: map<string, Value>, name: string, words: seq<string>)
    requires IsWord(name) && words != [] && forall i :: 0 <= i < |words| ==> IsWord(words[i])
    ensures var after := Step(m, Join(["set", name] + words)).registers;
      Step(after, Join(["get", name])).reply == Some(Shows(name, ParseValue(Join(words)).value))
  {
    SetStores(m, name, words);
    GetReads(Step(m, Join(["set", name] + words)).registers, name);
  }

  /** After "clear", every name is reported missing. */
  lemma ClearThenGet(m: map<string, Value>, name: string)
    requires IsWord(name)
    ensures Step(m, "clear").registers == map[]
    ensures Step(Step(m, "clear").registers, Join(["get", name])).reply == Some(NotFound(name))
  {
    assert IsWord("clear") by {
      assert "clear"[1..] == "lear" && "lear"[1..] == "ear" && "ear"[1..] == "ar" && "ar"[1..] == "r";
    }
    FieldsJoin(["clear"]);
    GetReads(map[], name);
  }

  /** "list" on no registers answers "No registers". */
  lemma ListEmpty()
    ensures Step(map[], "list") == Outcome(Some(NoRegisters), None, map[])
  {
    assert IsWord("list") by {
      assert "list"[1..] == "ist" && "ist"[1..] == "st" && "st"[1..] == "t";
    }
    FieldsJoin(["list"]);
  }

  /** Actions are matched as written: "SET" is not "set". */
  lemma ActionsAreCaseSensitive(m: map<string, Value>, name: string, value: string)
    requires IsWord(name) && IsWord(value)
    ensures var cmd := Join(["SET", name, value]);
      Step(m, cmd) == Outcome(None, Some(UnknownCommand(cmd)), m)
  {
    assert IsWord("SET") by {
      assert "SET"[1..] == "ET" && "ET"[1..] == "T";
    }
    FieldsJoin(["SET", name, value]);
  }
}
