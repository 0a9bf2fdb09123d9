# SDVPT command core, modelled in Dafny

SDVPT is an interactive shell that sends commands to an RControlStation
server. The shell reads a line and splits it into tokens with `strtok`. It
looks the first token up in a fixed table of command names and runs the
matching handler. A handler returns 1 to keep the read loop going or 0 to end
it. Only `connectTcp` and `disconnectTcp` write the global `prompt` buffer
(256 characters, NUL included).

This project models that core of `sdvpt/sdvpt.c`:

- `libc.dfy` (module `LibC`) covers the parts of the C library the shell
  relies on. These are NUL-terminated strings, `atoi` (ISO C11 section
  7.22.1.2), `%d` formatting, and the truncation `snprintf` applies to a
  bounded buffer.
- `tokenizer.dfy` (module `Tokenizer`) holds the reference definition
  `Tokens` and its properties. It also models `strtok` as two scanning
  methods, `SkipDelims` and `TokenEnd`, joined by `NextToken`. `Tokenize`
  fills the caller's 20-slot token array.
- `commands.dfy` (module `Commands`) holds the `cmds` and `cmd_func` tables
  as two parallel sequences, and `Lookup`, which specifies the table scan.
  It also describes, as values, what each handler and `dispatch` does: the
  signal, the prompt written, the library calls made and the messages
  printed.
- `shell.dfy` (module `Sdvpt`) holds class `Shell`. Its fields are the
  prompt buffer (an `array<char>`), the record of library calls, and the
  record of printed messages. Its methods are the handlers, `Dispatch` (the
  index loop over the table), `Step` (one turn of the read loop) and `Run`
  (the read loop of `main`). The handlers, `Dispatch` and `Step` are proved
  to change the state exactly as the matching `Commands` function says. `Run`
  is proved to stop at the first `exit` or `q` line. It is also proved to
  make at most one library call per line it consumes and to only add to
  what was printed. The prompt it leaves is the one the consumed lines
  determine (`PromptAfter`): the last disconnect or successful connect
  decides it, and it is unchanged when there is neither.

The station library (`rcsc_connectTcp`, `rcsc_disconnectTcp`,
`rcsc_getState`) is not part of this model. Each call into it is appended to
`Shell.calls`, and the library's answer is a parameter (`backendOk`, and for
`Run` one answer per line). This makes "does not call the library"
observable.

Where the shell's own documentation and its code differ, the model follows
the code:

- `getState` accepts one to three tokens (`n < 1 || n > 3`). So `getState`
  with no car argument is accepted, and it reads token slot 1, which
  `tokenize` did not fill for that line. The documentation describes one or
  two arguments after the command name.
- End of input does not end the loop in the code, because the result of
  `getline` is ignored.
- The session state is only the prompt text. There is no separate
  connected flag or endpoint record.

## Model

| member | source | states |
|---|---|---|
| `LibC.CString` | sdvpt/sdvpt.c:161 | The string C reads from a buffer is a prefix of the buffer, holds no NUL, and is followed by a NUL when shorter than the buffer |
| `LibC.CStringOfTerminated` | sdvpt/sdvpt.c:58 | A buffer holding a NUL-free text and then a NUL reads as exactly that text, whatever follows it |
| `LibC.Atoi` | sdvpt/sdvpt.c:54 | `atoi` is negative only when the first character after leading white space is '-' |
| `LibC.AtoiMagnitude` | sdvpt/sdvpt.c:54 | The size of what `atoi` returns is the value of the digits that follow the leading white space and an optional sign (0 when there are none) |
| `LibC.IntToDecimal` | sdvpt/sdvpt.c:58 | The `%d` text of an int is non-empty and starts with '-' exactly for negative numbers |
| `LibC.DecimalCharacters` | sdvpt/sdvpt.c:58 | The `%d` text of an int holds only a sign and digits, so it never holds a NUL |
| `LibC.Truncate` | sdvpt/sdvpt.c:58 | What `snprintf` keeps of a text: the whole text when it fits, otherwise exactly its first `max` characters |
| `LibC.NatToDecimal` | sdvpt/sdvpt.c:58 | The `%d` numeral of a natural number is non-empty and all digits, its value is the number, and it starts with '0' only for 0 |
| `LibC.AtoiOfDecimal` | sdvpt/sdvpt.c:54 | `atoi` reads back any integer printed with `%d`, also when text that does not start with a digit follows it |
| `LibC.AtoiWithoutNumeral` | sdvpt/sdvpt.c:54 | `atoi` is 0 for every text whose first character after leading white space and an optional sign is not a digit ("x5", " -y7", "port80"): non-numeric arguments silently become 0 |
| `LibC.AtoiWithoutDigits` | sdvpt/sdvpt.c:54 | In particular, `atoi` of text containing no digit at all is 0 |
| `Tokenizer.TokensWellFormed` | sdvpt/sdvpt.c:11 | Every token is non-empty and contains none of '\n', '\t', '\r', ' ', and each of its characters comes from the line |
| `Tokenizer.TokensConcat` | sdvpt/sdvpt.c:137-150 | Joining the tokens in order gives the line with all delimiters removed |
| `Tokenizer.TokensEmptyIff` | sdvpt/sdvpt.c:141-149 | A line has no tokens if and only if it is empty or made only of delimiters |
| `Tokenizer.TokensSplit` | sdvpt/sdvpt.c:141-148 | A delimiter separates: the tokens of `a + [d] + b` are the tokens of `a` followed by those of `b`, so runs of delimiters collapse and leading/trailing ones are dropped |
| `Tokenizer.TokensOfWord` | sdvpt/sdvpt.c:141-148 | A non-empty delimiter-free string is exactly one token |
| `Tokenizer.TokensOfThreeWords` | sdvpt/sdvpt.c:141-148 | Three words separated by single delimiters are exactly those three tokens, in order |
| `Tokenizer.TokensOfGetStateLine` | sdvpt/sdvpt.c:137-150 | "getState 3 500" tokenizes to ["getState", "3", "500"] |
| `Tokenizer.TokensOfBlankLine` | sdvpt/sdvpt.c:137-150 | A line of only white space (" \t\r\n") has no tokens |
| `Tokenizer.SkipDelims` | sdvpt/sdvpt.c:141 | `strtok`'s first step: the index returned is the first non-delimiter of the C string at or after the resume point (or its end), with only delimiters before it |
| `Tokenizer.TokenEnd` | sdvpt/sdvpt.c:147 | `strtok`'s second step: the index returned is the first delimiter (or the end of the C string), with no delimiter between the token start and it |
| `Tokenizer.NextToken` | sdvpt/sdvpt.c:141-147 | One `strtok` call: no token exactly when no tokens remain; otherwise the token returned is the first remaining token, and the resume point moves strictly forward past it and its terminating delimiter |
| `Tokenizer.Tokenize` | sdvpt/sdvpt.c:137-150 | `tokenize` returns the number of tokens of the line's C string and stores them in order in the first slots of the array. Later slots are untouched. The line may have at most as many tokens as the array has slots |
| `Commands.CommandTable` | sdvpt/sdvpt.c:22-27 | The `cmds` and `cmd_func` tables line up entry by entry; no name appears twice, so the first match is the only one; exactly the names `exit` and `q` lead to `exit_cmd` (the `cmd_func` side is sdvpt/sdvpt.c:128-134) |
| `Commands.ConnectedPrompt` | sdvpt/sdvpt.c:58 | The prompt after a connection is a prefix of `"<host>:<port>> "`: the whole text when it is shorter than 256 characters, otherwise exactly its first 255 |
| `Commands.ConnectedPromptShowsEndpoint` | sdvpt/sdvpt.c:58 | When it fits, the prompt is exactly `"<host>:<port>> "`: the host, then ':', then text from which `atoi` reads back the port |
| `Commands.LookupFrom` | sdvpt/sdvpt.c:160-164 | Scanning the table from entry i finds nothing exactly when no later entry has the name, and otherwise finds the first entry that has it |
| `Commands.Lookup` | sdvpt/sdvpt.c:160-164 | The least table index whose name equals the given name exactly (case-sensitive), or none when no entry has it |
| `Commands.HandlerEffect` | sdvpt/sdvpt.c:35-123 | Handlers: only `exit_cmd` returns 0, every other handler returns 1 on every path. The prompt is written exactly by `disconnectTcp` and by a successful `connectTcp` with 3 tokens. The library is called except for `help`, `exit`, `connectTcp` with other than 3 tokens, and `getState` with other than 1 to 3 tokens. At most one call is made |
| `Commands.DispatchEffect` | sdvpt/sdvpt.c:157 | `dispatch` with no tokens returns 1 and does nothing else |
| `Commands.DispatchFirstMatch` | sdvpt/sdvpt.c:160-163 | `dispatch` does what the handler of the least table index whose name equals the first token does |
| `Commands.DispatchUnknown` | sdvpt/sdvpt.c:165-166 | An unknown command name returns 1. It calls nothing, leaves the prompt alone, and prints exactly "<token0>: command not found" |
| `Commands.DispatchTerminatesIff` | sdvpt/sdvpt.c:128-134 | `dispatch` returns 0 if and only if the first token is `exit` or `q`, whatever tokens follow |
| `Commands.DispatchPromptWriters` | sdvpt/sdvpt.c:44-71 | Only a `connectTcp` or `disconnectTcp` command can change the prompt |
| `Sdvpt.Shell.constructor` | sdvpt/sdvpt.c:29-30 | The prompt buffer has 256 slots and starts out holding "> "; nothing has been called or printed |
| `Sdvpt.Shell.WritePrompt` | sdvpt/sdvpt.c:58 | `snprintf` into the prompt buffer leaves the first 255 characters of the text as the prompt |
| `Sdvpt.Shell.ExitCmd` | sdvpt/sdvpt.c:35-37 | `exit_cmd` returns 0 and changes nothing |
| `Sdvpt.Shell.HelpCmd` | sdvpt/sdvpt.c:39-42 | `help_cmd` prints the help text and returns 1 |
| `Sdvpt.Shell.ConnectTcpCmd` | sdvpt/sdvpt.c:44-64 | With other than 3 tokens, prints the usage and calls nothing. Otherwise calls connect with the host and `atoi` of the port; on success the prompt becomes `"<host>:<port>> "` cut to 255 characters, on failure it prints "Unable to connect!" and leaves the prompt alone. Always returns 1 |
| `Sdvpt.Shell.DisconnectTcpCmd` | sdvpt/sdvpt.c:66-71 | Whatever the tokens, calls disconnect, sets the prompt to "> " and returns 1 |
| `Sdvpt.Shell.GetStateCmd` | sdvpt/sdvpt.c:73-123 | With 0 or more than 3 tokens, prints the usage and calls nothing. Otherwise calls getState with `atoi` of slot 1 and a timeout of `atoi` of slot 2 when there are 3 tokens, 1000 otherwise. Prints the state or "Fail!", never touches the prompt, and returns 1 |
| `Sdvpt.Shell.Invoke` | sdvpt/sdvpt.c:128-134 | A call through `cmd_func` has exactly the effect of the handler it names |
| `Sdvpt.Shell.Dispatch` | sdvpt/sdvpt.c:153-167 | The linear scan over the table has exactly the effect `DispatchEffect` describes |
| `Sdvpt.Shell.Step` | sdvpt/sdvpt.c:197-200 | Tokenizing a line leaves its tokens in the first slots of the token array and the later slots as they were; dispatching them changes the state exactly as `DispatchEffect` says. The result is 0 exactly when the line's first token is `exit` or `q`. The prompt text becomes `LinePrompt` of the line; the buffer changes only on a `connectTcp` or `disconnectTcp` line; at most one library call is made |
| `Sdvpt.Shell.Run` | sdvpt/sdvpt.c:191-201 | The read loop stops right after the first line whose first token is `exit` or `q`. No earlier line ends it, and it consumes every line when none does. Only the lines it reaches must fit the token array. It makes at most one library call per consumed line and only adds to what was printed. The prompt text left is `PromptAfter` of the consumed lines and answers: the last disconnect or successful connect decides it, and it is unchanged when no consumed line is a `connectTcp` or `disconnectTcp` command |
| `Sdvpt.LinePrompt` | sdvpt/sdvpt.c:44-71 | The prompt after one line differs from the one before only on a `connectTcp` or `disconnectTcp` line ("> " after a disconnect, the endpoint after a 3-token connect the library accepts) |
| `Sdvpt.PromptAfter` | sdvpt/sdvpt.c:191-201 | Folding `LinePrompt` over lines: when no line is a `connectTcp` or `disconnectTcp` line the prompt is the starting one |
| `Sdvpt.PromptAfterSnoc` | sdvpt/sdvpt.c:191-201 | One more turn of the loop applies that line's `LinePrompt` to the prompt the earlier lines left |
| `Sdvpt.DispatchLinePrompt` | sdvpt/sdvpt.c:153-167 | Whatever the token array holds past the line's tokens, dispatching the line leaves exactly the prompt `LinePrompt` gives (a connect reads only the current line's three tokens) |
| `Sdvpt.ConnectLinePrompt` | sdvpt/sdvpt.c:44-64 | The `connectTcp` case of `DispatchLinePrompt` |
| `Sdvpt.DisconnectLinePrompt` | sdvpt/sdvpt.c:66-71 | The `disconnectTcp` case of `DispatchLinePrompt` |
| `Commands.LookupPromptWriters` | sdvpt/sdvpt.c:25-26 | `connectTcp` and `disconnectTcp` are found at table entries 3 and 4, whose handlers are `connectTcp_cmd` and `disconnectTcp_cmd` |
| `Sdvpt.LinePromptWriter` | sdvpt/sdvpt.c:197-200 | Dispatching the tokens of a line writes the prompt only when its first token is `connectTcp` or `disconnectTcp` |
| `Sdvpt.LineSignal` | sdvpt/sdvpt.c:197-200 | Dispatching the tokens of a line signals termination if and only if the line's first token is `exit` or `q` |

## Left out

- The station library (`rcsc_connectTcp`, `rcsc_disconnectTcp`, `rcsc_getState`) is a foreign library: each call is recorded and its answer is a parameter; what it does on the server is not modelled.
- Printing the fields of `CAR_STATE` after a successful `getState` is floating-point formatting of foreign data; the model records it as one `StateReport` message without text.
- Reading lines with `getline`, printing the prompt, the banner and "Done!", and `malloc`/`free` of the line buffer and the token array are I/O and allocation; `Run` takes the lines as a sequence.
- End of input: the code ignores the result of `getline`, so nothing defines what happens; `Run` simply stops when its lines run out.
- `strtok` writes NUL characters into the line buffer and keeps its resume point in hidden static state; the model passes the resume point explicitly and stores copies of the tokens rather than addresses inside the line buffer.
- Tokenizer.Tokenize: a line with more than 20 tokens overflows the token array in the code (there is no bounds check); the model requires at most as many tokens as the array has slots.
- Sdvpt.Shell.GetStateCmd: with one token the code reads token slot 1, an address left over from an earlier line (or uninitialised). As long as `getline` has not moved the line buffer, that address refers into it, so the code reads whatever the buffer holds at that offset; once `getline` reallocates a buffer too small for a line, older addresses dangle. The model instead reads the string the slot last held, starting from empty strings. For example, "getState 3 500" followed by "getState" makes the code ask for car `atoi("")` = 0, while the model asks for car 3.
- One Dafny `char` stands for one byte of a C buffer. The 255-character limit of `Truncate` therefore counts bytes only for single-byte text; a host name with multi-byte characters would be cut at a different place by `snprintf`.
- Sdvpt.Shell.Run: of the prompt it states the text (the C string in the buffer), not the buffer's bytes after the terminating NUL, which the code never reads. Of the calls and messages it states only that they grow, by at most one call per consumed line; the exact calls of a one-token `getState` depend on token slots left over from earlier lines.
- C `int` width: `atoi` overflow is undefined behaviour and the port and timeout are 32-bit; the model uses unbounded integers.
- The commands getRoute, addRoutePoints, clearRoute, errors, setDebugLevel and carTerminal are described for the shell but have no code in sdvpt/sdvpt.c; they are not part of this model.
