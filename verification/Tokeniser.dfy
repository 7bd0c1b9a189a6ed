/** The argument tokeniser and argv construction of the pipeline launcher (Labs/Lab 7/Lab7.cpp:40-112). */
module Tokeniser {
  const LEN: nat := 64
  const MAX_TOKENS: nat := 3
  const NUL: char := '\0'
  const SPACE: char := ' '

  // ---------- Tokens ----------

  /** The length of the space-free run s starts with. */
  function RunLength(s: string): (n: nat)
    ensures n <= |s|
    ensures forall k :: 0 <= k < n ==> s[k] != SPACE
    ensures n < |s| ==> s[n] == SPACE
  {
    if s == [] || s[0] == SPACE then 0 else 1 + RunLength(s[1..])
  }

  function Tokens(s: string): seq<string> {
    if s == [] then []
    else if s[0] == SPACE then Tokens(s[1..])
    else [s[..RunLength(s)]] + Tokens(s[RunLength(s)..])
  }

  /** s[i..j] is a maximal space-free run. */
  predicate IsRun(s: string, i: nat, j: nat) {
    && i < j <= |s|
    && (forall k :: i <= k < j ==> s[k] != SPACE)
    && (i == 0 || s[i - 1] == SPACE)
    && (j == |s| || s[j] == SPACE)
  }

  /** The end of the space-free run at position p. */
  function RunEnd(s: string, p: nat): (j: nat)
    requires p <= |s|
    ensures p <= j <= |s|
    ensures forall k :: p <= k < j ==> s[k] != SPACE
    ensures j < |s| ==> s[j] == SPACE
    decreases |s| - p
  {
    if p == |s| || s[p] == SPACE then p else RunEnd(s, p + 1)
  }

  /** Where the tokens of s from position p on start and end. */
  function Spans(s: string, p: nat): seq<(nat, nat)>
    requires p <= |s|
    decreases |s| - p
  {
    if p == |s| then []
    else if s[p] == SPACE then Spans(s, p + 1)
    else [(p, RunEnd(s, p))] + Spans(s, RunEnd(s, p))
  }

  predicate InOrder(spans: seq<(nat, nat)>) {
    forall a, b :: 0 <= a < b < |spans| ==> spans[a].1 < spans[b].0
  }

  function Slice(s: string, span: (nat, nat)): string {
    if span.0 <= span.1 <= |s| then s[span.0..span.1] else []
  }

  function Slices(s: string, spans: seq<(nat, nat)>): seq<string> {
    if spans == [] then [] else [Slice(s, spans[0])] + Slices(s, spans[1..])
  }

  lemma {:induction false} SpansAreRuns(s: string, p: nat)
    requires p <= |s| && (p == 0 || s[p - 1] == SPACE || p == |s| || s[p] == SPACE)
    ensures InOrder(Spans(s, p))
    ensures forall a :: 0 <= a < |Spans(s, p)| ==> IsRun(s, Spans(s, p)[a].0, Spans(s, p)[a].1)
    decreases |s| - p
  {
    if p < |s| {
      if s[p] == SPACE {
        SpansAreRuns(s, p + 1);
      } else {
        var j := RunEnd(s, p);
        SpansAreRuns(s, j);
        AfterSpace(s, j);
        OneMoreSpan(s, (p, j), Spans(s, j));
        assert Spans(s, p) == [(p, j)] + Spans(s, j);
      }
    }
  }

  lemma {:induction false} OneMoreSpan(s: string, span: (nat, nat), rest: seq<(nat, nat)>)
    requires IsRun(s, span.0, span.1) && InOrder(rest)
    requires forall a :: 0 <= a < |rest| ==> span.1 < rest[a].0 && IsRun(s, rest[a].0, rest[a].1)
    ensures var spans := [span] + rest;
            InOrder(spans) && forall a :: 0 <= a < |spans| ==> IsRun(s, spans[a].0, spans[a].1)
  {
  }

  /** No span starts at a space. */
  lemma {:induction false} AfterSpace(s: string, p: nat)
    requires p <= |s| && (p < |s| ==> s[p] == SPACE)
    ensures forall a :: 0 <= a < |Spans(s, p)| ==> p < Spans(s, p)[a].0
    decreases |s| - p
  {
    if p < |s| {
      StartsFrom(s, p + 1);
    }
  }

  lemma {:induction false} StartsFrom(s: string, p: nat)
    requires p <= |s|
    ensures forall a :: 0 <= a < |Spans(s, p)| ==> p <= Spans(s, p)[a].0
    decreases |s| - p
  {
    if p < |s| {
      if s[p] == SPACE {
        StartsFrom(s, p + 1);
      } else {
        StartsFrom(s, RunEnd(s, p));
      }
    }
  }

  lemma {:induction false} EveryRunIsASpan(s: string, p: nat, i: nat, j: nat)
    requires p <= i && IsRun(s, i, j)
    ensures (i, j) in Spans(s, p)
    decreases |s| - p
  {
    if s[p] == SPACE {
      EveryRunIsASpan(s, p + 1, i, j);
    } else {
      var e := RunEnd(s, p);
      if i == p {
        RunEnds(s, p, e, j);
        assert (i, j) == Spans(s, p)[0];
      } else {
        assert s[i - 1] == SPACE;
        EveryRunIsASpan(s, e, i, j);
      }
    }
  }

  lemma {:induction false} RunEnds(s: string, p: nat, e: nat, j: nat)
    requires p < e <= |s| && IsRun(s, p, j)
    requires (forall k :: p <= k < e ==> s[k] != SPACE) && (e < |s| ==> s[e] == SPACE)
    ensures e == j
  {
  }

  lemma {:induction false} SameEnd(s: string, p: nat)
    requires p <= |s|
    ensures RunEnd(s, p) == p + RunLength(s[p..])
    ensures s[p..][..RunLength(s[p..])] == s[p..RunEnd(s, p)]
    ensures s[p..][RunLength(s[p..])..] == s[RunEnd(s, p)..]
    decreases |s| - p
  {
    if p < |s| && s[p] != SPACE {
      assert s[p..][1..] == s[p + 1..];
      SameEnd(s, p + 1);
    }
  }

  lemma {:induction false} TokensAreSlices(s: string, p: nat)
    requires p <= |s|
    ensures Tokens(s[p..]) == Slices(s, Spans(s, p))
    decreases |s| - p
  {
    if p < |s| {
      if s[p] == SPACE {
        assert s[p..][1..] == s[p + 1..];
        TokensAreSlices(s, p + 1);
      } else {
        var j := RunEnd(s, p);
        SameEnd(s, p);
        TokensAreSlices(s, j);
        assert ([(p, j)] + Spans(s, j))[1..] == Spans(s, j);
      }
    }
  }

  /** The tokens are exactly the maximal space-free runs of the argument, each once and in order. */
  lemma {:induction false} TokensAreTheRuns(s: string)
    ensures var spans := Spans(s, 0);
            && (forall a :: 0 <= a < |spans| ==> IsRun(s, spans[a].0, spans[a].1))
            && InOrder(spans)
            && (forall i: nat, j: nat :: IsRun(s, i, j) ==> (i, j) in spans)
            && Tokens(s) == Slices(s, spans)
  {
    SpansAreRuns(s, 0);
    forall i: nat, j: nat | IsRun(s, i, j) ensures (i, j) in Spans(s, 0) {
      EveryRunIsASpan(s, 0, i, j);
    }
    TokensAreSlices(s, 0);
    assert s[0..] == s;
  }

  // ---------- Joining and tokenising again ----------

  predicate IsToken(t: string) {
    t != [] && SPACE !in t
  }

  function Join(ts: seq<string>): string {
    if ts == [] then []
    else if |ts| == 1 then ts[0]
    else ts[0] + [SPACE] + Join(ts[1..])
  }

  lemma {:induction false} RunOf(t: string, rest: string)
    requires IsToken(t) && (rest == [] || rest[0] == SPACE)
    ensures RunLength(t + rest) == |t|
  {
    assert forall k :: 0 <= k < |t| ==> t[k] in t && (t + rest)[k] == t[k];
    assert rest != [] ==> (t + rest)[|t|] == rest[0];
  }

  lemma {:induction false} FirstToken(t: string, rest: string)
    requires IsToken(t) && (rest == [] || rest[0] == SPACE)
    ensures Tokens(t + rest) == [t] + Tokens(rest)
  {
    RunOf(t, rest);
    assert (t + rest)[0] == t[0] && (t + rest)[..|t|] == t && (t + rest)[|t|..] == rest;
  }

  lemma {:induction false} TokensOfJoin(ts: seq<string>)
    requires forall t :: t in ts ==> IsToken(t)
    ensures Tokens(Join(ts)) == ts
  {
    if |ts| == 1 {
      FirstToken(ts[0], []);
      assert ts[0] + [] == ts[0];
    } else if |ts| > 1 {
      var rest := [SPACE] + Join(ts[1..]);
      assert Join(ts) == ts[0] + rest;
      FirstToken(ts[0], rest);
      assert rest[1..] == Join(ts[1..]);
      TokensOfJoin(ts[1..]);
    }
  }

  lemma {:induction false} TokensAreTokens(s: string)
    ensures forall t :: t in Tokens(s) ==> IsToken(t)
    decreases |s|
  {
    if s != [] {
      if s[0] == SPACE {
        TokensAreTokens(s[1..]);
      } else {
        TokensAreTokens(s[RunLength(s)..]);
      }
    }
  }

  /** Tokenising the single-space join of the tokens gives the same tokens. */
  lemma {:induction false} Retokenise(s: string)
    ensures Tokens(Join(Tokens(s))) == Tokens(s)
  {
    TokensAreTokens(s);
    TokensOfJoin(Tokens(s));
  }

  // ---------- strtok on the argument buffer ----------

  /** The row or field starting at position p of buffer b holds the C string t. */
  predicate CString(b: seq<char>, p: nat, t: string) {
    p + |t| < |b| && b[p..p + |t|] == t && b[p + |t|] == NUL && NUL !in t
  }

  /** What strtok keeps between calls is a position in the buffer. A token is the position of its first
      character; its end is overwritten with a NUL. */
  datatype Pointer = Null | At(position: nat)

  /** strtok's search for the first character that is not a delimiter. */
  method SkipDelimiters(buffer: array<char>, start: nat, ghost arg: string) returns (i: nat)
    requires start <= |arg| < buffer.Length && CString(buffer[..], start, arg[start..])
    ensures start <= i <= |arg| && CString(buffer[..], i, arg[i..])
    ensures Tokens(arg[i..]) == Tokens(arg[start..])
    ensures buffer[i] != SPACE
  {
    i := start;
    while buffer[i] == SPACE
      invariant start <= i <= |arg| && CString(buffer[..], i, arg[i..])
      invariant Tokens(arg[i..]) == Tokens(arg[start..])
      decreases |arg| - i
    {
      StringAt(buffer[..], arg, i);
      assert arg[i..][1..] == arg[i + 1..];
      i := i + 1;
    }
  }

  /** strtok's search for the end of the token that starts at position i. */
  method FindEnd(buffer: array<char>, i: nat, ghost arg: string) returns (j: nat)
    requires i < |arg| < buffer.Length && CString(buffer[..], i, arg[i..])
    ensures j == i + RunLength(arg[i..]) && CString(buffer[..], j, arg[j..])
  {
    ghost var n := RunLength(arg[i..]);
    j := i;
    while buffer[j] != SPACE && buffer[j] != NUL
      invariant i <= j <= i + n && CString(buffer[..], j, arg[j..])
      decreases |arg| - j
    {
      StringAt(buffer[..], arg, j);
      assert arg[j] == arg[i..][j - i];
      j := j + 1;
    }
    StringAt(buffer[..], arg, j);
    if j < |arg| {
      assert arg[i..][j - i] == SPACE;
    }
  }

  /** One strtok call on a buffer that from position start on still holds the end of arg. */
  method StrTok(buffer: array<char>, start: nat, ghost arg: string) returns (token: Pointer, saved: nat)
    requires start <= |arg| < buffer.Length && CString(buffer[..], start, arg[start..])
    modifies buffer
    ensures start <= saved <= |arg| && CString(buffer[..], saved, arg[saved..])
    ensures token == Null <==> Tokens(arg[start..]) == []
    ensures token.At? ==>
      && start <= token.position < |arg|
      && Tokens(arg[start..]) != []
      && CString(buffer[..], token.position, Tokens(arg[start..])[0])
      && Tokens(arg[start..])[1..] == Tokens(arg[saved..])
  {
    var i := SkipDelimiters(buffer, start, arg);
    StringAt(buffer[..], arg, i);
    if buffer[i] == NUL {
      return Null, i;
    }
    var j := FindEnd(buffer, i, arg);
    StringAt(buffer[..], arg, j);
    TokenCut(buffer[..], arg, i, j);
    token, saved := At(i), if buffer[j] == SPACE then j + 1 else j;
    EndToken(buffer, j);
  }

  /** The delimiter after a token becomes the NUL that ends it. */
  method EndToken(buffer: array<char>, j: nat)
    requires j < buffer.Length && (buffer[j] == SPACE || buffer[j] == NUL)
    modifies buffer
    ensures buffer[..] == old(buffer[..])[j := NUL]
  {
    if buffer[j] == SPACE {
      buffer[j] := NUL;
    }
  }

  /** Putting a NUL at the end of the first token makes it a C string and leaves the rest of the argument. */
  lemma {:induction false} TokenCut(b: seq<char>, arg: string, i: nat, j: nat)
    requires i < |arg| < |b| && CString(b, i, arg[i..]) && arg[i] != SPACE && j == i + RunLength(arg[i..])
    ensures var tokens := Tokens(arg[i..]);
            var cut := b[j := NUL];
            && tokens != [] && CString(cut, i, tokens[0])
            && (b[j] == NUL ==> CString(cut, j, arg[j..]) && tokens[1..] == Tokens(arg[j..]))
            && (b[j] == SPACE ==> j < |arg| && CString(cut, j + 1, arg[j + 1..]) && tokens[1..] == Tokens(arg[j + 1..]))
  {
    TokenAt(b, arg, i, j - i);
    CutAt(b, arg, i, j);
    StringAt(b, arg, j);
    var cut := b[j := NUL];
    assert cut[i..j] == b[i..j];
    if b[j] == SPACE {
      assert cut[j + 1..] == b[j + 1..];
      SkipSpace(b, cut, arg, j);
    } else if b[j] == NUL {
      assert cut == b;
    }
  }

  lemma {:induction false} CutAt(b: seq<char>, arg: string, i: nat, j: nat)
    requires i <= j <= |arg| && CString(b, i, arg[i..])
    ensures CString(b, j, arg[j..])
  {
    assert arg[i..][j - i..] == arg[j..];
    assert b[j..j + |arg[j..]|] == b[i..i + |arg[i..]|][j - i..];
  }

  lemma {:induction false} StringAt(b: seq<char>, arg: string, i: nat)
    requires i <= |arg| && CString(b, i, arg[i..])
    ensures b[i] == if i < |arg| then arg[i] else NUL
    ensures i < |arg| ==> arg[i] != NUL && CString(b, i + 1, arg[i + 1..])
  {
    if i < |arg| {
      assert b[i] == b[i..i + |arg[i..]|][0] && arg[i] == arg[i..][0];
      assert arg[i..] == [arg[i]] + arg[i + 1..];
      assert b[i + 1..i + 1 + |arg[i + 1..]|] == b[i..i + |arg[i..]|][1..];
    }
  }

  lemma {:induction false} TokenAt(b: seq<char>, arg: string, i: nat, n: nat)
    requires i < |arg| && CString(b, i, arg[i..]) && arg[i] != SPACE && n == RunLength(arg[i..])
    ensures Tokens(arg[i..]) == [arg[i..i + n]] + Tokens(arg[i + n..])
    ensures b[i..i + n] == arg[i..i + n] && NUL !in arg[i..i + n] && n > 0
  {
    assert arg[i..][..n] == arg[i..i + n] && arg[i..][n..] == arg[i + n..];
    assert b[i..i + n] == b[i..i + |arg[i..]|][..n];
  }

  lemma {:induction false} SkipSpace(before: seq<char>, after: seq<char>, arg: string, j: nat)
    requires j < |arg| < |before| == |after| && CString(before, j, arg[j..]) && arg[j] == SPACE
    requires after[j + 1..] == before[j + 1..]
    ensures CString(after, j + 1, arg[j + 1..])
    ensures Tokens(arg[j..]) == Tokens(arg[j + 1..])
  {
    StringAt(before, arg, j);
    assert arg[j..][1..] == arg[j + 1..];
    assert forall k :: j < k < |after| ==> after[k] == after[j + 1..][k - j - 1] == before[k];
  }

  // ---------- The argument vector ----------

  /** Row k of the table holds the C string t. */
  predicate RowHolds(rows: array2<char>, k: nat, t: string)
    reads rows
    requires k < rows.Length0
  {
    && |t| < rows.Length1 && NUL !in t
    && (forall i :: 0 <= i < |t| ==> rows[k, i] == t[i])
    && rows[k, |t|] == NUL
  }

  /** strcpy into row k. */
  method CopyToRow(rows: array2<char>, k: nat, buffer: array<char>, p: nat, ghost t: string)
    requires k < rows.Length0 && |t| < rows.Length1 && CString(buffer[..], p, t)
    modifies rows
    ensures RowHolds(rows, k, t)
    ensures forall r, i :: 0 <= r < rows.Length0 && r != k && 0 <= i < rows.Length1 ==> rows[r, i] == old(rows[r, i])
  {
    var i := 0;
    assert forall j :: 0 <= j < |t| ==> buffer[p + j] == buffer[..][p..p + |t|][j] && t[j] in t;
    while buffer[p + i] != NUL
      invariant 0 <= i <= |t|
      invariant forall j :: 0 <= j < i ==> rows[k, j] == t[j]
      invariant forall r, j :: 0 <= r < rows.Length0 && r != k && 0 <= j < rows.Length1 ==>
                  rows[r, j] == old(rows[r, j])
      decreases |t| - i
    {
      rows[k, i] := buffer[p + i];
      i := i + 1;
    }
    rows[k, i] := NUL;
  }

  /** strcpy of an argument into a buffer of LEN characters. */
  method CopyArgument(arg: string) returns (buffer: array<char>)
    requires |arg| < LEN && NUL !in arg
    ensures fresh(buffer) && buffer.Length == LEN && CString(buffer[..], 0, arg)
  {
    buffer := new char[LEN](_ => NUL);
    for i := 0 to |arg|
      invariant forall j :: 0 <= j < i ==> buffer[j] == arg[j]
      invariant buffer[|arg|] == NUL
    {
      buffer[i] := arg[i];
    }
  }

  /** The tokenising loop of lines 70-76 and 77-85: for an argument of at most 63 characters with at most
      three tokens it fills the rows with exactly the tokens, in order. */
  method Tokenise(arg: string) returns (rows: array2<char>, len: nat)
    requires |arg| < LEN && NUL !in arg && |Tokens(arg)| <= MAX_TOKENS
    ensures fresh(rows) && rows.Length0 == MAX_TOKENS && rows.Length1 == LEN
    ensures len == |Tokens(arg)|
    ensures forall k :: 0 <= k < len ==> RowHolds(rows, k, Tokens(arg)[k])
  {
    var buffer := CopyArgument(arg);
    rows := new char[MAX_TOKENS, LEN];
    len := 0;
    assert arg[0..] == arg;
    var token, saved := StrTok(buffer, 0, arg);
    while token != Null
      invariant len <= |Tokens(arg)| && saved <= |arg| && CString(buffer[..], saved, arg[saved..])
      invariant forall k :: 0 <= k < len ==> RowHolds(rows, k, Tokens(arg)[k])
      invariant token == Null ==> len == |Tokens(arg)|
      invariant token.At? ==>
        && len < |Tokens(arg)|
        && CString(buffer[..], token.position, Tokens(arg)[len])
        && Tokens(arg)[len + 1..] == Tokens(arg[saved..])
      decreases |Tokens(arg)| - len, token.At?
    {
      CopyToRow(rows, len, buffer, token.position, Tokens(arg)[len]);
      ghost var rest := Tokens(arg)[len + 1..];
      token, saved := StrTok(buffer, saved, arg);
      len := len + 1;
      assert token.At? ==> rest[0] == Tokens(arg)[len] && rest[1..] == Tokens(arg)[len + 1..];
    }
  }

  /** An entry of the argument vector: a row of the token table, or the NULL that ends the vector. */
  datatype Argument = End | Row(k: nat)

  /** Lines 87-112. */
  method BuildVector(len: nat) returns (argv: array<Argument>)
    ensures fresh(argv) && argv.Length == len + 1
    ensures forall i :: 0 <= i < len ==> argv[i] == Row(i)
    ensures argv[len] == End
  {
    argv := new Argument[len + 1](_ => End);
    for i := 0 to len + 1
      invariant forall j :: 0 <= j < i ==> argv[j] == if j == len then End else Row(j)
    {
      if i == len {
        argv[i] := End;
      } else {
        argv[i] := Row(i);
      }
    }
  }

  /** What exec is given: the tokens of the argument in order, ended by NULL and by nothing earlier. */
  method PrepareVector(arg: string) returns (rows: array2<char>, argv: array<Argument>)
    requires |arg| < LEN && NUL !in arg && |Tokens(arg)| <= MAX_TOKENS
    ensures argv.Length == |Tokens(arg)| + 1
    ensures forall i :: 0 <= i < argv.Length ==> (argv[i] == End <==> i == |Tokens(arg)|)
    ensures forall i :: 0 <= i < |Tokens(arg)| ==>
              argv[i].Row? && argv[i].k < rows.Length0 && RowHolds(rows, argv[i].k, Tokens(arg)[i])
  {
    var len;
    rows, len := Tokenise(arg);
    argv := BuildVector(len);
  }
}
