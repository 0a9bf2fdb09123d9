/**
 * The shell's line tokenizer: `strtok` (ISO C11 section 7.24.5.8) applied
 * repeatedly with the delimiter set "\n\t\r ", each token stored in the next
 * slot of the caller's token array.
 */
module Tokenizer {
  import opened Wrappers
  import opened LibC

  /** Number of slots in the token array the shell allocates at start-up. */
  const MaxTokens: nat := 20

  /** The delimiter set "\n\t\r ". */
  predicate IsDelim(c: char)
  {
    c == '\n' || c == '\t' || c == '\r' || c == ' '
  }

  /** Length of the token at the start of `s`: its longest delimiter-free prefix. */
  function TokenLength(s: string): (k: nat)
    ensures k <= |s|
    ensures s != [] && !IsDelim(s[0]) ==> 0 < k
  {
    if s == [] || IsDelim(s[0]) then 0 else 1 + TokenLength(s[1..])
  }

  /** `TokenLength(s)` characters hold no delimiter, and a delimiter or the end of `s` follows them. */
  lemma {:induction false} TokenLengthSpec(s: string)
    ensures forall i :: 0 <= i < TokenLength(s) ==> !IsDelim(s[i])
    ensures TokenLength(s) == |s| || IsDelim(s[TokenLength(s)])
  {
    if s != [] && !IsDelim(s[0]) {
      TokenLengthSpec(s[1..]);
    }
  }

  /** The tokens of `s`, left to right: its maximal delimiter-free pieces. */
  function Tokens(s: string): seq<string>
    decreases |s|
  {
    if s == [] then []
    else if IsDelim(s[0]) then Tokens(s[1..])
    else
      var k := TokenLength(s);
      [s[..k]] + Tokens(s[k..])
  }

  /**
   * Every token is non-empty and holds no delimiter, and every character of
   * every token comes from the line.
   */
  lemma {:induction false} TokensWellFormed(s: string)
    ensures forall t :: t in Tokens(s) ==> t != [] && forall c :: c in t ==> !IsDelim(c) && c in s
    decreases |s|
  {
    if s == [] {
    } else if IsDelim(s[0]) {
      TokensWellFormed(s[1..]);
      assert forall c :: c in s[1..] ==> c in s;
    } else {
      var k := TokenLength(s);
      TokenLengthSpec(s);
      TokensWellFormed(s[k..]);
      assert forall c :: c in s[k..] ==> c in s;
      assert forall c :: c in s[..k] ==> c in s;
    }
  }

  /** The characters of `s` that are not delimiters, in order. */
  function Squeeze(s: string): string
  {
    if s == [] then [] else (if IsDelim(s[0]) then [] else [s[0]]) + Squeeze(s[1..])
  }

  function Concat(ts: seq<string>): string
  {
    if ts == [] then [] else ts[0] + Concat(ts[1..])
  }

  /** A length with the two defining properties of `TokenLength` is `TokenLength`. */
  lemma TokenLengthUnique(s: string, k: nat)
    requires k <= |s|
    requires forall i :: 0 <= i < k ==> !IsDelim(s[i])
    requires k == |s| || IsDelim(s[k])
    ensures TokenLength(s) == k
  {
    TokenLengthSpec(s);
  }

  lemma {:induction false} SqueezeWord(s: string, k: nat)
    requires k <= |s|
    requires forall i :: 0 <= i < k ==> !IsDelim(s[i])
    ensures Squeeze(s) == s[..k] + Squeeze(s[k..])
    decreases k
  {
    if k > 0 {
      SqueezeWord(s[1..], k - 1);
      assert s[1..][k - 1..] == s[k..];
      assert [s[0]] + s[1..][..k - 1] == s[..k];
    }
  }

  /** Joining the tokens gives back the line with its delimiters removed. */
  lemma {:induction false} TokensConcat(s: string)
    ensures Concat(Tokens(s)) == Squeeze(s)
    decreases |s|
  {
    if s == [] {
    } else if IsDelim(s[0]) {
      TokensConcat(s[1..]);
    } else {
      var k := TokenLength(s);
      TokenLengthSpec(s);
      TokensConcat(s[k..]);
      SqueezeWord(s, k);
      assert ([s[..k]] + Tokens(s[k..]))[1..] == Tokens(s[k..]);
    }
  }

  /** A line has no tokens exactly when it is empty or made only of delimiters. */
  lemma {:induction false} TokensEmptyIff(s: string)
    ensures Tokens(s) == [] <==> forall i :: 0 <= i < |s| ==> IsDelim(s[i])
    decreases |s|
  {
    if s != [] && IsDelim(s[0]) {
      TokensEmptyIff(s[1..]);
      assert forall i :: 1 <= i < |s| ==> s[i] == s[1..][i - 1];
    }
  }

  /** A non-empty delimiter-free string is a single token. */
  lemma TokensOfWord(w: string)
    requires w != []
    requires forall i :: 0 <= i < |w| ==> !IsDelim(w[i])
    ensures Tokens(w) == [w]
  {
    TokenLengthUnique(w, |w|);
    assert w[..|w|] == w;
    assert w[|w|..] == [];
  }

  /** The tokens of `s` from a delimiter on are those from the next character on. */
  lemma TokensAfterDelim(s: string, i: nat)
    requires i < |s| && IsDelim(s[i])
    ensures Tokens(s[i..]) == Tokens(s[i + 1..])
  {
    assert s[i..][1..] == s[i + 1..];
  }

  /** The token `s[i..j]` comes first among the tokens of `s[i..]`. */
  lemma TokensAtWord(s: string, i: nat, j: nat)
    requires i < j <= |s|
    requires forall m :: i <= m < j ==> !IsDelim(s[m])
    requires j == |s| || IsDelim(s[j])
    ensures Tokens(s[i..]) == [s[i..j]] + Tokens(s[j..])
  {
    var u := s[i..];
    TokenLengthUnique(u, j - i);
    assert u[..j - i] == s[i..j];
    assert u[j - i..] == s[j..];
  }

  /** A delimiter separates: the tokens on each side of it are tokenized independently. */
  lemma {:induction false} TokensSplit(a: string, d: char, b: string)
    requires IsDelim(d)
    ensures Tokens(a + [d] + b) == Tokens(a) + Tokens(b)
    decreases |a|
  {
    var s := a + [d] + b;
    if a == [] {
      assert Tokens(s) == Tokens(b) by {
        assert s[0..] == s && s[1..] == b;
        TokensAfterDelim(s, 0);
      }
    } else if IsDelim(a[0]) {
      assert Tokens(s) == Tokens(a[1..] + [d] + b) by {
        assert s[0..] == s && s[1..] == a[1..] + [d] + b;
        TokensAfterDelim(s, 0);
      }
      TokensSplit(a[1..], d, b);
    } else {
      var k := TokenLength(a);
      assert Tokens(a) == [a[..k]] + Tokens(a[k..]) by {
        TokenLengthSpec(a);
        assert a[0..] == a && a[0..k] == a[..k];
        TokensAtWord(a, 0, k);
      }
      assert Tokens(s) == [a[..k]] + Tokens(a[k..] + [d] + b) by {
        TokenLengthSpec(a);
        assert forall i :: 0 <= i < |a| ==> s[i] == a[i];
        assert s[0..] == s && s[0..k] == a[..k] && s[k..] == a[k..] + [d] + b;
        TokensAtWord(s, 0, k);
      }
      TokensSplit(a[k..], d, b);
    }
  }

  /** Three words separated by single delimiters are three tokens. */
  lemma TokensOfThreeWords(w1: string, d1: char, w2: string, d2: char, w3: string)
    requires IsDelim(d1) && IsDelim(d2)
    requires w1 != [] && forall i :: 0 <= i < |w1| ==> !IsDelim(w1[i])
    requires w2 != [] && forall i :: 0 <= i < |w2| ==> !IsDelim(w2[i])
    requires w3 != [] && forall i :: 0 <= i < |w3| ==> !IsDelim(w3[i])
    ensures Tokens(w1 + [d1] + w2 + [d2] + w3) == [w1, w2, w3]
  {
    TokensOfWord(w1);
    TokensOfWord(w2);
    TokensOfWord(w3);
    TokensSplit(w2, d2, w3);
    TokensSplit(w1, d1, w2 + [d2] + w3);
    assert w1 + [d1] + w2 + [d2] + w3 == w1 + [d1] + (w2 + [d2] + w3);
  }

  /** The line "getState 3 500" splits into its three words. */
  lemma TokensOfGetStateLine()
    ensures Tokens("getState 3 500") == ["getState", "3", "500"]
  {
    TokensOfThreeWords("getState", ' ', "3", ' ', "500");
    assert "getState" + [' '] + "3" + [' '] + "500" == "getState 3 500";
  }

  /** A line of white space alone, such as an empty command line, has no tokens. */
  lemma TokensOfBlankLine()
    ensures Tokens(" \t\r\n") == []
  {
    TokensEmptyIff(" \t\r\n");
  }

  /** Below the end of the C string in `line`, `line` and its C string agree. */
  lemma CStringBound(line: string, i: nat)
    requires i <= |CString(line)|
    ensures (i < |line| && line[i] != NUL) <==> i < |CString(line)|
    ensures i < |CString(line)| ==> line[i] == CString(line)[i]
  {
  }

  /** Leading delimiters do not change the tokens. */
  lemma {:induction false} TokensAfterDelims(s: string, i: nat, j: nat)
    requires i <= j <= |s|
    requires forall m :: i <= m < j ==> IsDelim(s[m])
    ensures Tokens(s[i..]) == Tokens(s[j..])
    decreases j - i
  {
    if i < j {
      TokensAfterDelim(s, i);
      TokensAfterDelims(s, i + 1, j);
    }
  }

  /**
   * The first half of `strtok`: from `pos`, find the first character of the
   * C string in `line` that is not a delimiter (or the end of the string).
   */
  method SkipDelims(line: string, pos: nat) returns (start: nat)
    requires pos <= |CString(line)|
    ensures pos <= start <= |CString(line)|
    ensures forall m :: pos <= m < start ==> IsDelim(CString(line)[m])
    ensures start == |CString(line)| || !IsDelim(CString(line)[start])
  {
    start := pos;
    CStringBound(line, start);
    while start < |line| && line[start] != NUL && IsDelim(line[start])
      invariant pos <= start <= |CString(line)|
      invariant forall m :: pos <= m < start ==> IsDelim(CString(line)[m])
      invariant start < |CString(line)| ==> line[start] == CString(line)[start]
      invariant (start < |line| && line[start] != NUL) <==> start < |CString(line)|
    {
      start := start + 1;
      CStringBound(line, start);
    }
  }

  /**
   * The second half of `strtok`: from `start`, find the first delimiter of the
   * C string in `line` (or the end of the string); the token lies in between.
   */
  method TokenEnd(line: string, start: nat) returns (end: nat)
    requires start <= |CString(line)|
    ensures start <= end <= |CString(line)|
    ensures forall m :: start <= m < end ==> !IsDelim(CString(line)[m])
    ensures end == |CString(line)| || IsDelim(CString(line)[end])
  {
    end := start;
    CStringBound(line, end);
    while end < |line| && line[end] != NUL && !IsDelim(line[end])
      invariant start <= end <= |CString(line)|
      invariant forall m :: start <= m < end ==> !IsDelim(CString(line)[m])
      invariant end < |CString(line)| ==> line[end] == CString(line)[end]
      invariant (end < |line| && line[end] != NUL) <==> end < |CString(line)|
    {
      end := end + 1;
      CStringBound(line, end);
    }
  }

  /** No token is left when only delimiters remain. */
  lemma NoTokensLeft(c: string, pos: nat)
    requires pos <= |c|
    requires forall m :: pos <= m < |c| ==> IsDelim(c[m])
    ensures Tokens(c[pos..]) == []
  {
    TokensAfterDelims(c, pos, |c|);
    assert c[|c|..] == [];
  }

  /**
   * After the delimiters in `c[pos..start]`, `c[start..end]` is the next token,
   * and tokenizing resumes after the delimiter that ends it (if any).
   */
  lemma TokenFound(c: string, pos: nat, start: nat, end: nat)
    requires pos <= start < end <= |c|
    requires forall m :: pos <= m < start ==> IsDelim(c[m])
    requires forall m :: start <= m < end ==> !IsDelim(c[m])
    requires end == |c| || IsDelim(c[end])
    ensures Tokens(c[pos..]) == [c[start..end]] + Tokens(c[if end < |c| then end + 1 else end..])
  {
    TokensAfterDelims(c, pos, start);
    TokensAtWord(c, start, end);
    if end < |c| {
      TokensAfterDelim(c, end);
    }
  }

  /**
   * One call of `strtok` on the C string in `line`, resuming at `pos`: skip
   * delimiters, then take characters up to the next delimiter or the end of
   * the string. The delimiter that ends the token is consumed (`strtok`
   * overwrites it with NUL), so the next call resumes after it.
   */
  method NextToken(line: string, pos: nat) returns (tok: Option<string>, next: nat)
    requires pos <= |CString(line)|
    ensures pos <= next <= |CString(line)|
    ensures tok.None? ==> Tokens(CString(line)[pos..]) == []
    ensures tok.Some? ==> pos < next && Tokens(CString(line)[pos..]) == [tok.value] + Tokens(CString(line)[next..])
  {
    ghost var c := CString(line);
    var start := SkipDelims(line, pos);
    CStringBound(line, start);
    if start == |line| || line[start] == NUL {
      NoTokensLeft(c, pos);
      return None, start;
    }
    var end := TokenEnd(line, start);
    CStringBound(line, end);
    next := if end < |line| && line[end] != NUL then end + 1 else end;
    tok := Some(line[start..end]);
    assert Tokens(c[pos..]) == [tok.value] + Tokens(c[next..]) by {
      assert line[start..end] == c[start..end];
      TokenFound(c, pos, start, end);
    }
  }

  /**
   * `tokenize`: store the tokens of the C string in `line`, in order, in the
   * first slots of `tokens`, and return how many there are. The source does
   * not check the array's capacity, so the line must not have more tokens
   * than the array has slots.
   */
  method Tokenize(line: string, tokens: array<string>) returns (n: nat)
    requires |Tokens(CString(line))| <= tokens.Length
    modifies tokens
    ensures n == |Tokens(CString(line))|
    ensures tokens[..n] == Tokens(CString(line))
    ensures tokens[n..] == old(tokens[n..])
  {
    ghost var c := CString(line);
    n := 0;
    assert c[0..] == c;
    var tok, pos := NextToken(line, 0);
    while tok.Some?
      invariant pos <= |c|
      invariant n <= tokens.Length
      invariant if tok.Some? then tokens[..n] + [tok.value] + Tokens(c[pos..]) == Tokens(c) else tokens[..n] == Tokens(c)
      invariant forall j :: n <= j < tokens.Length ==> tokens[j] == old(tokens[j])
      decreases if tok.Some? then |c| - pos + 1 else 0
    {
      tokens[n] := tok.value;
      assert tokens[..n + 1] == tokens[..n] + [tok.value];
      n := n + 1;
      tok, pos := NextToken(line, pos);
    }
    assert tokens[n..] == old(tokens[n..]);
  }
}
