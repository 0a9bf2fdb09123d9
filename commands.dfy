/**
 * The command table of the shell and what each command does, stated as
 * values: a command's effect is the signal it returns to the read loop, the
 * prompt it writes (if any), the calls it makes into the station library and
 * the messages it prints.
 */
module Commands {
  import opened Wrappers
  import opened LibC
  import opened Tokenizer

  /** Size of the prompt buffer, its terminating NUL included. */
  const MaxPromptSize: nat := 256

  /** Timeout `getState` uses when none is given. */
  const DefaultTimeoutMs: int := 1000

  /** What a handler returns: 1 keeps the read loop going, 0 ends it. */
  const Continue: int := 1
  const Terminate: int := 0

  /** The handler functions the command table points to. */
  datatype Handler = Help | Exit | ConnectTcp | DisconnectTcp | GetState

  /** The names in `cmds`; entry i belongs to entry i of `CommandHandlers`. */
  const CommandNames: seq<string> := ["help", "exit", "q", "connectTcp", "disconnectTcp", "getState"]

  /** The handlers in `cmd_func`, in the same order as `CommandNames`. */
  const CommandHandlers: seq<Handler> := [Help, Exit, Exit, ConnectTcp, DisconnectTcp, GetState]

  /**
   * The two tables line up entry by entry, no name appears twice (so the first
   * match is the only one), and exactly the names `exit` and `q` lead to the
   * exit handler.
   */
  lemma CommandTable()
    ensures |CommandNames| == |CommandHandlers|
    ensures forall i, j :: 0 <= i < j < |CommandNames| ==> CommandNames[i] != CommandNames[j]
    ensures forall i :: 0 <= i < |CommandNames| ==>
      (CommandHandlers[i] == Exit <==> CommandNames[i] == "exit" || CommandNames[i] == "q")
  {
  }

  /** A call into the station library. */
  datatype Call =
    | RcscConnectTcp(host: string, port: int)
    | RcscDisconnectTcp
    | RcscGetState(car: int, timeoutMs: int)

  /** What the shell prints; `StateReport` stands for the listing of the car state's fields. */
  datatype Message =
    | HelpText
    | ConnectUsage
    | UnableToConnect
    | GetStateUsage
    | StateReport
    | Fail
    | NotFound(name: string)

  const HelpString: string :=
    "------------------------------------------------------------\n"
    + "help - Displays this message\n"
    + "exit - Exits from sdvpt\n"
    + "connectTcp <host> <port> - connect to RControlStation\n"
    + "getState <car> [timeoutms] - get state from car\n"
    + "------------------------------------------------------------\n"

  /** The exact text of a message (the car state listing is not modelled). */
  function Text(m: Message): string
    requires !m.StateReport?
  {
    match m
    case HelpText => HelpString + "\n"
    case ConnectUsage => "Wrong number of arguments!\nUsage: connectTcp <host> <port>\n"
    case UnableToConnect => "Unable to connect!\n"
    case GetStateUsage => "Wrong number of arguments!\nUsage: getState <car> [timeoutms]\n"
    case Fail => "Fail!\n"
    case NotFound(name) => name + ": command not found\n"
  }

  /** The effect of one command: `prompt` is `None` when the prompt buffer is left alone. */
  datatype Effect = Effect(signal: int, prompt: Option<string>, calls: seq<Call>, printed: seq<Message>)

  /** The prompt before any connection and after a disconnection. */
  const DisconnectedPrompt: string := "> "

  /**
   * The prompt after connecting: `"%s:%d> "` of host and port, cut to what
   * the prompt buffer holds.
   */
  function ConnectedPrompt(host: string, port: int): (p: string)
    ensures var full := CString(host) + ":" + IntToDecimal(port) + "> ";
      p <= full && |p| == if |full| < MaxPromptSize then |full| else MaxPromptSize - 1
  {
    Truncate(CString(host) + ":" + IntToDecimal(port) + "> ", MaxPromptSize - 1)
  }

  /**
   * When it fits in the buffer, the prompt is the whole formatted text and
   * shows the endpoint: the host up to the colon, and after it a numeral that
   * `atoi` reads back as the port.
   */
  lemma ConnectedPromptShowsEndpoint(host: string, port: int)
    requires |CString(host)| + |IntToDecimal(port)| + 3 < MaxPromptSize
    ensures ConnectedPrompt(host, port) == CString(host) + ":" + IntToDecimal(port) + "> "
    ensures var p, h := ConnectedPrompt(host, port), |CString(host)|;
      h < |p| && p[..h] == CString(host) && p[h] == ':' && Atoi(p[h + 1..]) == port
  {
    var h, tail := CString(host), IntToDecimal(port) + "> ";
    var p := ConnectedPrompt(host, port);
    assert p == h + [':'] + tail by {
      assert h + ":" + IntToDecimal(port) + "> " == h + [':'] + tail;
    }
    assert p[..|h|] == h && p[|h|] == ':' && p[|h| + 1..] == tail by {
      Layout(h, ':', tail);
    }
    assert Atoi(tail) == port by {
      AtoiOfDecimal(port, "> ");
    }
  }

  lemma Layout(x: string, c: char, y: string)
    ensures var s := x + [c] + y; s[..|x|] == x && s[|x|] == c && s[|x| + 1..] == y
  {
    var s := x + [c] + y;
    assert s[..|x|] == x;
    assert s[|x| + 1..] == y;
  }

  /** Index of the first table entry named `name` at or after `i`, scanning as `dispatch` does. */
  function LookupFrom(name: string, i: nat): (r: Option<nat>)
    requires i <= |CommandNames|
    ensures r.None? <==> name !in CommandNames[i..]
    ensures r.Some? ==> i <= r.value < |CommandNames| && CommandNames[r.value] == name
    ensures r.Some? ==> forall j :: i <= j < r.value ==> CommandNames[j] != name
    decreases |CommandNames| - i
  {
    if i == |CommandNames| then None
    else if CommandNames[i] == name then Some(i)
    else LookupFrom(name, i + 1)
  }

  /** The least table index whose name equals `name` exactly, or `None` when no entry has it. */
  function Lookup(name: string): (r: Option<nat>)
    ensures r.None? <==> name !in CommandNames
    ensures r.Some? ==> r.value < |CommandNames| && CommandNames[r.value] == name
    ensures r.Some? ==> forall j :: 0 <= j < r.value ==> CommandNames[j] != name
  {
    assert CommandNames[0..] == CommandNames;
    LookupFrom(name, 0)
  }

  /**
   * The effect of handler `h` called with `n` tokens in the token array
   * `args` (all of its slots, so that a slot beyond `n` can be read as the
   * source reads it), when the station library answers `ok`.
   */
  function HandlerEffect(h: Handler, n: nat, args: seq<string>, ok: bool): (e: Effect)
    requires n <= |args| == MaxTokens
    ensures e.signal == (if h == Exit then Terminate else Continue)
    ensures e.prompt.Some? <==> h == DisconnectTcp || (h == ConnectTcp && n == 3 && ok)
    ensures e.calls == [] <==> h in {Help, Exit} || (h == ConnectTcp && n != 3) || (h == GetState && !(1 <= n <= 3))
    ensures |e.calls| <= 1
  {
    match h
    case Exit => Effect(Terminate, None, [], [])
    case Help => Effect(Continue, None, [], [HelpText])
    case ConnectTcp =>
      if n < 3 || n > 3 then
        Effect(Continue, None, [], [ConnectUsage])
      else
        var port := Atoi(args[2]);
        var call := RcscConnectTcp(CString(args[1]), port);
        if ok then Effect(Continue, Some(ConnectedPrompt(args[1], port)), [call], [])
        else Effect(Continue, None, [call], [UnableToConnect])
    case DisconnectTcp => Effect(Continue, Some(DisconnectedPrompt), [RcscDisconnectTcp], [])
    case GetState =>
      if n < 1 || n > 3 then
        Effect(Continue, None, [], [GetStateUsage])
      else
        var timeoutMs := if n == 3 then Atoi(args[2]) else DefaultTimeoutMs;
        var call := RcscGetState(Atoi(args[1]), timeoutMs);
        Effect(Continue, None, [call], if ok then [StateReport] else [Fail])
  }

  /** The effect of `dispatch` on `n` tokens. */
  function DispatchEffect(n: nat, args: seq<string>, ok: bool): (e: Effect)
    requires n <= |args| == MaxTokens
    ensures n == 0 ==> e == Effect(Continue, None, [], [])
    ensures |e.calls| <= 1
  {
    if n == 0 then Effect(Continue, None, [], [])
    else
      match Lookup(CString(args[0]))
      case None => Effect(Continue, None, [], [NotFound(CString(args[0]))])
      case Some(i) => HandlerEffect(CommandHandlers[i], n, args, ok)
  }

  /** Where the two commands that write the prompt sit in the table. */
  lemma LookupPromptWriters()
    ensures Lookup("connectTcp") == Some(3) && CommandHandlers[3] == ConnectTcp
    ensures Lookup("disconnectTcp") == Some(4) && CommandHandlers[4] == DisconnectTcp
  {
  }

  /** The first entry whose name equals the first token exactly decides what `dispatch` does. */
  lemma DispatchFirstMatch(n: nat, args: seq<string>, ok: bool, i: nat)
    requires n <= |args| == MaxTokens && 0 < n
    requires i < |CommandNames| && CommandNames[i] == CString(args[0])
    requires forall j :: 0 <= j < i ==> CommandNames[j] != CString(args[0])
    ensures DispatchEffect(n, args, ok) == HandlerEffect(CommandHandlers[i], n, args, ok)
  {
    var r := Lookup(CString(args[0]));
    assert r.Some?;
    if r.value < i {
      assert false;
    }
    if r.value > i {
      assert false;
    }
  }

  /** An unknown command name only prints "<name>: command not found" and keeps the loop going. */
  lemma DispatchUnknown(n: nat, args: seq<string>, ok: bool)
    requires n <= |args| == MaxTokens && 0 < n
    requires CString(args[0]) !in CommandNames
    ensures var e := DispatchEffect(n, args, ok);
      e.signal == Continue && e.prompt.None? && e.calls == [] && |e.printed| == 1
      && !e.printed[0].StateReport? && Text(e.printed[0]) == CString(args[0]) + ": command not found\n"
  {
  }

  /** `dispatch` ends the read loop exactly when the command is `exit` or `q`, whatever follows it. */
  lemma DispatchTerminatesIff(n: nat, args: seq<string>, ok: bool)
    requires n <= |args| == MaxTokens
    ensures DispatchEffect(n, args, ok).signal == Terminate
        <==> 0 < n && (CString(args[0]) == "exit" || CString(args[0]) == "q")
  {
    if 0 < n {
      var name := CString(args[0]);
      match Lookup(name)
      case None =>
      case Some(i) =>
        assert CommandHandlers[i] == Exit <==> i == 1 || i == 2;
    }
  }

  /** Only `connectTcp` and `disconnectTcp` write the prompt. */
  lemma DispatchPromptWriters(n: nat, args: seq<string>, ok: bool)
    requires n <= |args| == MaxTokens
    ensures DispatchEffect(n, args, ok).prompt.Some?
        ==> 0 < n && (CString(args[0]) == "connectTcp" || CString(args[0]) == "disconnectTcp")
  {
    if 0 < n {
      match Lookup(CString(args[0]))
      case None =>
      case Some(i) =>
        assert CommandHandlers[i] in {ConnectTcp, DisconnectTcp} <==> i == 3 || i == 4;
    }
  }
}
