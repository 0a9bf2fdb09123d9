/**
 * The shell's state and its imperative parts: the global prompt buffer, the
 * command handlers that write it, `dispatch` and the read loop of `main`.
 * The station library is outside the model: each call into it is recorded in
 * `calls`, and the answer it gives is a parameter (`backendOk`).
 */
module Sdvpt {
  import opened Wrappers
  import opened LibC
  import opened Tokenizer
  import opened Commands

  class Shell {
    /** The global `prompt` buffer of `MaxPromptSize` characters. */
    const prompt: array<char>
    /** Calls made into the station library so far, oldest first. */
    var calls: seq<Call>
    /** Messages printed so far, oldest first. */
    var printed: seq<Message>

    ghost predicate Valid()
      reads this, prompt
    {
      prompt.Length == MaxPromptSize && NUL in prompt[..]
    }

    /** The prompt text: the C string in the buffer. */
    function Prompt(): string
      reads this, prompt
    {
      CString(prompt[..])
    }

    /** The state changed exactly as effect `e` says; nothing else changed. */
    twostate predicate Performed(e: Effect)
      reads this, prompt
    {
      && calls == old(calls) + e.calls
      && printed == old(printed) + e.printed
      && (if e.prompt.Some? then Prompt() == e.prompt.value else prompt[..] == old(prompt[..]))
    }

    /** Start-up state: the buffer holds "> " and the rest of it is zero. */
    constructor ()
      ensures Valid() && fresh(prompt)
      ensures Prompt() == DisconnectedPrompt && calls == [] && printed == []
    {
      prompt := new char[MaxPromptSize](i => if i == 0 then '>' else if i == 1 then ' ' else NUL);
      calls := [];
      printed := [];
      new;
      assert prompt[..] == DisconnectedPrompt + [NUL] + prompt[3..];
      CStringOfTerminated(DisconnectedPrompt, prompt[3..]);
    }

    /**
     * `snprintf(prompt, MAX_PROMPT_SIZE, ...)` of an already formatted text:
     * as much of the text as fits, then a NUL.
     */
    method WritePrompt(text: string)
      requires Valid() && NUL !in text
      modifies prompt
      ensures Valid() && Prompt() == Truncate(text, MaxPromptSize - 1)
    {
      var t := Truncate(text, MaxPromptSize - 1);
      assert forall c :: c in t ==> c in text;
      forall i | 0 <= i < |t| {
        prompt[i] := t[i];
      }
      prompt[|t|] := NUL;
      assert prompt[..] == t + [NUL] + prompt[|t| + 1..];
      CStringOfTerminated(t, prompt[|t| + 1..]);
    }

    /** `exit_cmd`, reached by `exit` and `q`: ends the read loop. */
    method ExitCmd(n: nat, args: array<string>) returns (r: int)
      requires Valid() && n <= args.Length == MaxTokens
      ensures r == HandlerEffect(Exit, n, args[..], false).signal
    {
      r := Terminate;
    }

    /** `help_cmd`: prints the help text. */
    method HelpCmd(n: nat, args: array<string>) returns (r: int)
      requires Valid() && n <= args.Length == MaxTokens
      modifies this
      ensures Valid()
      ensures r == HandlerEffect(Help, n, args[..], false).signal && Performed(HandlerEffect(Help, n, args[..], false))
    {
      printed := printed + [HelpText];
      r := Continue;
    }

    /**
     * `connectTcp_cmd`: needs exactly host and port; converts the port with
     * `atoi`, calls the library and, when it connects, shows the endpoint in
     * the prompt.
     */
    method ConnectTcpCmd(n: nat, args: array<string>, backendOk: bool) returns (r: int)
      requires Valid() && n <= args.Length == MaxTokens
      modifies this, prompt
      ensures Valid()
      ensures r == HandlerEffect(ConnectTcp, n, args[..], backendOk).signal
      ensures Performed(HandlerEffect(ConnectTcp, n, args[..], backendOk))
    {
      if n < 3 || n > 3 {
        printed := printed + [ConnectUsage];
        return Continue;
      }
      var port := Atoi(args[2]);
      calls := calls + [RcscConnectTcp(CString(args[1]), port)];
      var rval := backendOk;
      if rval {
        var digits := IntToDecimal(port);
        assert NUL !in digits by {
          DecimalCharacters(port);
        }
        WritePrompt(CString(args[1]) + ":" + digits + "> ");
      } else {
        printed := printed + [UnableToConnect];
      }
      r := Continue;
    }

    /** `disconnectTcp_cmd`: calls the library and resets the prompt, whatever the arguments. */
    method DisconnectTcpCmd(n: nat, args: array<string>) returns (r: int)
      requires Valid() && n <= args.Length == MaxTokens
      modifies this, prompt
      ensures Valid()
      ensures r == HandlerEffect(DisconnectTcp, n, args[..], false).signal
      ensures Performed(HandlerEffect(DisconnectTcp, n, args[..], false))
    {
      calls := calls + [RcscDisconnectTcp];
      WritePrompt(DisconnectedPrompt);
      r := Continue;
    }

    /**
     * `getState_cmd`: accepts one to three tokens, takes the timeout from the
     * third token when there is one, and asks the library for the car's state.
     */
    method GetStateCmd(n: nat, args: array<string>, backendOk: bool) returns (r: int)
      requires Valid() && n <= args.Length == MaxTokens
      modifies this
      ensures Valid()
      ensures r == HandlerEffect(GetState, n, args[..], backendOk).signal
      ensures Performed(HandlerEffect(GetState, n, args[..], backendOk))
    {
      var timeoutMs := DefaultTimeoutMs;
      if n < 1 || n > 3 {
        printed := printed + [GetStateUsage];
        return Continue;
      }
      if n == 3 {
        timeoutMs := Atoi(args[2]);
      }
      var car := Atoi(args[1]);
      calls := calls + [RcscGetState(car, timeoutMs)];
      var rval := backendOk;
      if rval {
        printed := printed + [StateReport];
      } else {
        printed := printed + [Fail];
      }
      r := Continue;
    }

    /** A call through the `cmd_func` table. */
    method Invoke(h: Handler, n: nat, args: array<string>, backendOk: bool) returns (r: int)
      requires Valid() && n <= args.Length == MaxTokens
      modifies this, prompt
      ensures Valid()
      ensures r == HandlerEffect(h, n, args[..], backendOk).signal
      ensures Performed(HandlerEffect(h, n, args[..], backendOk))
    {
      match h
      case Help => r := HelpCmd(n, args);
      case Exit => r := ExitCmd(n, args);
      case ConnectTcp => r := ConnectTcpCmd(n, args, backendOk);
      case DisconnectTcp => r := DisconnectTcpCmd(n, args);
      case GetState => r := GetStateCmd(n, args, backendOk);
    }

    /**
     * `dispatch`: nothing to do for an empty line; otherwise run the handler
     * of the first table entry named exactly like the first token, or report
     * that there is no such command.
     */
    method Dispatch(n: nat, tokens: array<string>, backendOk: bool) returns (r: int)
      requires Valid() && n <= tokens.Length == MaxTokens
      modifies this, prompt
      ensures Valid()
      ensures r == DispatchEffect(n, tokens[..], backendOk).signal
      ensures Performed(DispatchEffect(n, tokens[..], backendOk))
    {
      if n == 0 {
        return Continue;
      }
      var i := 0;
      while i < |CommandNames|
        invariant 0 <= i <= |CommandNames|
        invariant forall j :: 0 <= j < i ==> CommandNames[j] != CString(tokens[0])
        invariant unchanged(this) && unchanged(prompt)
      {
        if CString(tokens[0]) == CommandNames[i] {
          assert Lookup(CString(tokens[0])) == Some(i);
          r := Invoke(CommandHandlers[i], n, tokens, backendOk);
          return;
        }
        i := i + 1;
      }
      printed := printed + [NotFound(CString(tokens[0]))];
      r := Continue;
    }

    /**
     * The read loop of `main`: tokenize each line into the 20-slot token
     * array and dispatch it, until a command returns 0. `answers[k]` is what
     * the station library answers while line k runs. The loop stops after the
     * first `exit` or `q` line, or when the lines run out. Each consumed line
     * makes at most one library call and only adds to what was printed. The
     * prompt left is the one `PromptAfter` computes from the consumed lines
     * and answers; in particular it stays as it was unless a consumed line is
     * a `connectTcp` or `disconnectTcp` command.
     */
    method Run(input: seq<string>, answers: seq<bool>) returns (consumed: nat)
      requires Valid()
      requires |answers| == |input|
      requires forall k {:trigger Reached(input, k)} :: 0 <= k < |input| && Reached(input, k) ==> |Tokens(CString(input[k]))| <= MaxTokens
      modifies this, prompt
      ensures Valid()
      ensures consumed <= |input|
      ensures forall k {:trigger IsExitLine(input[k])} :: 0 <= k < consumed - 1 ==> !IsExitLine(input[k])
      ensures consumed < |input| ==> 0 < consumed && IsExitLine(input[consumed - 1])
      ensures old(calls) <= calls && |calls| <= |old(calls)| + consumed
      ensures old(printed) <= printed
      ensures Prompt() == PromptAfter(input[..consumed], answers[..consumed], old(Prompt()))
      ensures (forall k {:trigger IsPromptLine(input[k])} :: 0 <= k < consumed ==> !IsPromptLine(input[k])) ==> Prompt() == old(Prompt())
    {
      var tokens := new string[MaxTokens];
      var running := Continue;
      ghost var p0 := Prompt();
      consumed := 0;
      while running != 0 && consumed < |input|
        invariant Valid() && consumed <= |input|
        invariant forall k {:trigger IsExitLine(input[k])} :: 0 <= k < consumed - 1 ==> !IsExitLine(input[k])
        invariant running == 0 <==> 0 < consumed && IsExitLine(input[consumed - 1])
        invariant old(calls) <= calls && |calls| <= |old(calls)| + consumed
        invariant old(printed) <= printed
        invariant Prompt() == PromptAfter(input[..consumed], answers[..consumed], p0)
        decreases |input| - consumed
      {
        assert Reached(input, consumed);
        running := Step(input[consumed], tokens, answers[consumed]);
        PromptAfterSnoc(input, answers, consumed, p0);
        consumed := consumed + 1;
      }
      PromptAfterNoWriter(input, answers, consumed, p0);
    }

    /**
     * One turn of the read loop: tokenize a line into the token array and
     * dispatch it, with the effect `dispatch` has on the line's tokens. The
     * effect is stated for n, the line's token count, under a quantifier
     * over n so that the verifier unfolds it only where a caller mentions
     * `DispatchEffect`; `Run` needs only the consequences listed after it.
     */
    method Step(line: string, tokens: array<string>, backendOk: bool) returns (running: int)
      requires Valid() && tokens.Length == MaxTokens
      requires |Tokens(CString(line))| <= MaxTokens
      modifies this, prompt, tokens
      ensures Valid()
      ensures tokens[..|Tokens(CString(line))|] == Tokens(CString(line))
      ensures forall n {:trigger DispatchEffect(n, tokens[..], backendOk)} :: n == |Tokens(CString(line))| ==>
        Performed(DispatchEffect(n, tokens[..], backendOk))
      ensures running == Terminate <==> IsExitLine(line)
      ensures prompt[..] != old(prompt[..]) ==> IsPromptLine(line)
      ensures old(calls) <= calls && |calls| <= |old(calls)| + 1 && old(printed) <= printed
      ensures Prompt() == LinePrompt(line, backendOk, old(Prompt()))
      ensures tokens[|Tokens(CString(line))|..] == old(tokens[|Tokens(CString(line))|..])
    {
      var n := Tokenize(line, tokens);
      running := Dispatch(n, tokens, backendOk);
      LineSignal(line, n, tokens[..], backendOk);
      LinePromptWriter(line, n, tokens[..], backendOk);
      DispatchLinePrompt(line, n, tokens[..], backendOk, old(Prompt()));
    }
  }

  /** No line before line `k` ends the read loop, so the loop reaches line `k`. */
  predicate Reached(input: seq<string>, k: nat)
    requires k <= |input|
  {
    forall j {:trigger IsExitLine(input[j])} :: 0 <= j < k ==> !IsExitLine(input[j])
  }

  /** A line whose first token is `connectTcp` or `disconnectTcp`, the commands that may write the prompt. */
  predicate IsPromptLine(line: string)
  {
    var t := Tokens(CString(line));
    |t| > 0 && (t[0] == "connectTcp" || t[0] == "disconnectTcp")
  }

  /** A line whose first token is `exit` or `q`. */
  predicate IsExitLine(line: string)
  {
    var t := Tokens(CString(line));
    |t| > 0 && (t[0] == "exit" || t[0] == "q")
  }

  /** Dispatching the tokens of a line ends the read loop exactly when it is an exit line. */
  lemma LineSignal(line: string, n: nat, args: seq<string>, ok: bool)
    requires n <= |args| == MaxTokens
    requires n == |Tokens(CString(line))| && args[..n] == Tokens(CString(line))
    ensures DispatchEffect(n, args, ok).signal == Terminate <==> IsExitLine(line)
  {
    DispatchTerminatesIff(n, args, ok);
    if 0 < n {
      var t := Tokens(CString(line));
      assert args[0] == t[0];
      TokensWellFormed(CString(line));
      assert t[0] in t;
      assert NUL !in t[0];
      CStringOfPlain(t[0]);
    }
  }

  /** Dispatching the tokens of a line writes the prompt only when it is a `connectTcp` or `disconnectTcp` line. */
  lemma LinePromptWriter(line: string, n: nat, args: seq<string>, ok: bool)
    requires n <= |args| == MaxTokens
    requires n == |Tokens(CString(line))| && args[..n] == Tokens(CString(line))
    ensures DispatchEffect(n, args, ok).prompt.Some? ==> IsPromptLine(line)
  {
    DispatchPromptWriters(n, args, ok);
    if 0 < n {
      var t := Tokens(CString(line));
      assert args[0] == t[0];
      TokensWellFormed(CString(line));
      assert t[0] in t;
      CStringOfPlain(t[0]);
    }
  }

  /**
   * The prompt shown after a line, given the prompt `p` before it and the
   * library's answer `ok`: "> " after `disconnectTcp`, the endpoint after a
   * `connectTcp` with host and port that connects, and `p` otherwise.
   */
  function LinePrompt(line: string, ok: bool, p: string): (q: string)
    ensures q != p ==> IsPromptLine(line)
  {
    var t := Tokens(CString(line));
    if |t| == 0 then p
    else if t[0] == "disconnectTcp" then DisconnectedPrompt
    else if t[0] == "connectTcp" && |t| == 3 && ok then ConnectedPrompt(t[1], Atoi(t[2]))
    else p
  }

  /** The prompt after running `lines` in turn, with answers `answers`, from prompt `p`. */
  function PromptAfter(lines: seq<string>, answers: seq<bool>, p: string): (q: string)
    requires |answers| == |lines|
    ensures (forall k {:trigger IsPromptLine(lines[k])} :: 0 <= k < |lines| ==> !IsPromptLine(lines[k])) ==> q == p
  {
    if lines == [] then p
    else
      var last := |lines| - 1;
      LinePrompt(lines[last], answers[last], PromptAfter(lines[..last], answers[..last], p))
  }

  /** When none of the first `c` lines is a `connectTcp` or `disconnectTcp` line, they leave the prompt as it was. */
  lemma PromptAfterNoWriter(lines: seq<string>, answers: seq<bool>, c: nat, p: string)
    requires |answers| == |lines| && c <= |lines|
    ensures (forall k {:trigger IsPromptLine(lines[k])} :: 0 <= k < c ==> !IsPromptLine(lines[k])) ==> PromptAfter(lines[..c], answers[..c], p) == p
  {
    assert forall k :: 0 <= k < c ==> lines[..c][k] == lines[k];
  }

  /** Running one more line applies its `LinePrompt` to the prompt the earlier lines left. */
  lemma PromptAfterSnoc(lines: seq<string>, answers: seq<bool>, k: nat, p: string)
    requires |answers| == |lines| && k < |lines|
    ensures PromptAfter(lines[..k + 1], answers[..k + 1], p)
      == LinePrompt(lines[k], answers[k], PromptAfter(lines[..k], answers[..k], p))
  {
    assert lines[..k + 1][..k] == lines[..k];
    assert answers[..k + 1][..k] == answers[..k];
  }

  /** The first token as `dispatch` compares it is the line's first token. */
  lemma FirstToken(line: string, n: nat, args: seq<string>)
    requires 0 < n <= |args|
    requires n == |Tokens(CString(line))| && args[..n] == Tokens(CString(line))
    ensures CString(args[0]) == Tokens(CString(line))[0]
  {
    var t := Tokens(CString(line));
    assert args[0] == t[0];
    TokensWellFormed(CString(line));
    assert t[0] in t;
    CStringOfPlain(t[0]);
  }

  /** The prompt a `connectTcp` line leaves is the one `LinePrompt` gives. */
  lemma ConnectLinePrompt(line: string, n: nat, args: seq<string>, ok: bool, p: string)
    requires n <= |args| == MaxTokens
    requires n == |Tokens(CString(line))| && args[..n] == Tokens(CString(line))
    requires 0 < n && CString(args[0]) == "connectTcp"
    ensures var e := DispatchEffect(n, args, ok);
      (if e.prompt.Some? then e.prompt.value else p) == LinePrompt(line, ok, p)
  {
    var t := Tokens(CString(line));
    assert t[0] == "connectTcp" by {
      FirstToken(line, n, args);
    }
    assert DispatchEffect(n, args, ok) == HandlerEffect(ConnectTcp, n, args, ok) by {
      LookupPromptWriters();
    }
    if n == 3 && ok {
      assert args[1] == t[1] && args[2] == t[2] by {
        assert args[1] == args[..n][1] && args[2] == args[..n][2];
      }
      assert LinePrompt(line, ok, p) == ConnectedPrompt(t[1], Atoi(t[2]));
    } else {
      assert HandlerEffect(ConnectTcp, n, args, ok).prompt.None?;
      assert LinePrompt(line, ok, p) == p;
    }
  }

  /** The prompt a `disconnectTcp` line leaves is the one `LinePrompt` gives. */
  lemma DisconnectLinePrompt(line: string, n: nat, args: seq<string>, ok: bool, p: string)
    requires n <= |args| == MaxTokens
    requires n == |Tokens(CString(line))| && args[..n] == Tokens(CString(line))
    requires 0 < n && CString(args[0]) == "disconnectTcp"
    ensures var e := DispatchEffect(n, args, ok);
      (if e.prompt.Some? then e.prompt.value else p) == LinePrompt(line, ok, p)
  {
    var t := Tokens(CString(line));
    assert t[0] == "disconnectTcp" by {
      FirstToken(line, n, args);
    }
    assert DispatchEffect(n, args, ok) == HandlerEffect(DisconnectTcp, n, args, ok) by {
      LookupPromptWriters();
    }
    assert LinePrompt(line, ok, p) == DisconnectedPrompt;
  }

  /** Dispatching the tokens of a line leaves the prompt `LinePrompt` gives. */
  lemma DispatchLinePrompt(line: string, n: nat, args: seq<string>, ok: bool, p: string)
    requires n <= |args| == MaxTokens
    requires n == |Tokens(CString(line))| && args[..n] == Tokens(CString(line))
    ensures var e := DispatchEffect(n, args, ok);
      (if e.prompt.Some? then e.prompt.value else p) == LinePrompt(line, ok, p)
  {
    if n == 0 {
    } else if CString(args[0]) == "connectTcp" {
      ConnectLinePrompt(line, n, args, ok, p);
    } else if CString(args[0]) == "disconnectTcp" {
      DisconnectLinePrompt(line, n, args, ok, p);
    } else {
      DispatchPromptWriters(n, args, ok);
      FirstToken(line, n, args);
    }
  }
}
