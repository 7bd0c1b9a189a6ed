/** How netMonitor and intfMonitor put NUL-terminated texts on a byte stream and take them off again
    (Assignments/A1/netMonitor.cpp:72-81, Assignments/A1/intfMonitor.cpp:67-76). */
module MonitorFraming {
  const BUF_LEN: nat := 256
  const READ_LEN: nat := 255
  const NUL: char := '\0'

  predicate NulFree(m: string) {
    NUL !in m
  }

  /** What write puts on the stream for one message. */
  function Frame(m: string): string {
    m + [NUL]
  }

  function Encode(ms: seq<string>): string {
    if ms == [] then [] else Frame(ms[0]) + Encode(ms[1..])
  }

  /** The position of the first NUL, or the length if there is none. */
  function FirstNul(b: string): (i: nat)
    ensures i <= |b|
    ensures NUL !in b[..i]
    ensures i < |b| ==> b[i] == NUL
  {
    if b == [] || b[0] == NUL then 0
    else
      var i := 1 + FirstNul(b[1..]);
      assert b[..i] == [b[0]] + b[1..][..i - 1];
      i
  }

  /** Overrun: constructing the string runs past the end of the buffer (undefined behaviour). */
  datatype Received = Text(value: string) | Overrun

  function Chunk(bytes: string): string {
    if |bytes| <= READ_LEN then bytes else bytes[..READ_LEN]
  }

  /** The buffer after bzero and read: the clearing and the read both stop one short of its end,
      so its last character is whatever it was before. */
  function Filled(bytes: string, stale: char): (b: string)
    ensures |b| == BUF_LEN
  {
    Chunk(bytes) + seq(READ_LEN - |Chunk(bytes)|, _ => NUL) + [stale]
  }

  function Value(buffer: string): Received {
    var i := FirstNul(buffer);
    if i < |buffer| then Text(buffer[..i]) else Overrun
  }

  function Rest(bytes: string): string {
    bytes[|Chunk(bytes)|..]
  }

  lemma {:induction false} FirstNulIs(b: string, i: nat)
    requires i <= |b| && NUL !in b[..i] && (i < |b| ==> b[i] == NUL)
    ensures FirstNul(b) == i
  {
    if i > 0 {
      assert b[0] == b[..i][0];
      assert b[..i] == [b[0]] + b[1..][..i - 1];
      FirstNulIs(b[1..], i - 1);
    }
  }

  /** A first message that fits comes back whole, whatever follows it and whatever the buffer held. */
  lemma {:induction false} FirstMessage(m: string, more: string, stale: char)
    requires NulFree(m) && |m| < READ_LEN
    ensures Value(Filled(Frame(m) + more, stale)) == Text(m)
  {
    var b := Filled(Frame(m) + more, stale);
    assert b[..|m|] == m;
    assert b[|m|] == NUL;
    FirstNulIs(b, |m|);
  }

  /** Round trip: sending m on an empty stream and receiving once gives m back and empties the stream
      exactly when m has no NUL in it and is at most 254 characters long, whatever the buffer held. */
  lemma {:induction false} RoundTrip(m: string, stale: char)
    ensures Value(Filled(Frame(m), stale)) == Text(m) && Rest(Frame(m)) == [] <==> NulFree(m) && |m| <= 254
  {
    if NulFree(m) && |m| <= 254 {
      FirstMessage(m, [], stale);
      assert Frame(m) + [] == Frame(m);
    } else if NulFree(m) {
      assert |Rest(Frame(m))| == |m| + 1 - READ_LEN;
    } else {
      var r := Value(Filled(Frame(m), stale));
      assert r.Text? ==> NulFree(r.value);
    }
  }

  lemma {:induction false} EncodeHead(ms: seq<string>)
    requires ms != []
    ensures Encode(ms) == Frame(ms[0]) + Encode(ms[1..])
    ensures |Encode(ms)| == |ms[0]| + 1 + |Encode(ms[1..])|
  {
  }

  /** Several queued messages of at most 255 bytes, read at once: the first is returned and all are consumed. */
  lemma {:induction false} Coalesced(ms: seq<string>, stale: char)
    requires ms != [] && (forall m :: m in ms ==> NulFree(m)) && |Encode(ms)| <= READ_LEN
    ensures Value(Filled(Encode(ms), stale)) == Text(ms[0])
    ensures Rest(Encode(ms)) == []
  {
    EncodeHead(ms);
    FirstMessage(ms[0], Encode(ms[1..]), stale);
  }

  /** So a read leaves the later messages for the next read only if there were none. */
  lemma {:induction false} LaterMessagesKept(ms: seq<string>, stale: char)
    requires ms != [] && (forall m :: m in ms ==> NulFree(m)) && |Encode(ms)| <= READ_LEN
    ensures Rest(Encode(ms)) == Encode(ms[1..]) <==> |ms| == 1
  {
    Coalesced(ms, stale);
    if |ms| > 1 {
      EncodeHead(ms[1..]);
    }
  }

  /** What the string runs on to, whatever the stream and the buffer held: past the end of the buffer if and only if
      the read filled it without a NUL and its last character, which is never cleared, is none either. */
  lemma {:induction false} OverrunExactly(bytes: string, stale: char)
    ensures Value(Filled(bytes, stale)) == Overrun <==> |bytes| >= READ_LEN && NUL !in bytes[..READ_LEN] && stale != NUL
    ensures |bytes| < READ_LEN && NUL !in bytes ==> Value(Filled(bytes, stale)) == Text(bytes)
  {
    var b := Filled(bytes, stale);
    var n := |Chunk(bytes)|;
    assert b[..n] == Chunk(bytes);
    if |bytes| < READ_LEN {
      assert b[n] == NUL;
      if NUL !in bytes {
        FirstNulIs(b, n);
      }
    } else {
      assert b == bytes[..READ_LEN] + [stale];
      if NUL !in b {
        assert b[..|b|] == b;
        FirstNulIs(b, |b|);
      }
    }
  }

  /** One direction of a connected socket. */
  class Stream {
    var bytes: string

    constructor ()
      ensures bytes == []
    {
      bytes := [];
    }
  }

  method SendMessage(fd: Stream, message: string)
    modifies fd
    ensures fd.bytes == old(fd.bytes) + Frame(message)
  {
    fd.bytes := fd.bytes + message + [NUL];
    assert fd.bytes == old(fd.bytes) + Frame(message);
  }

  method Bzero(buffer: array<char>, n: nat)
    requires n <= buffer.Length
    modifies buffer
    ensures forall i :: 0 <= i < n ==> buffer[i] == NUL
    ensures forall i :: n <= i < buffer.Length ==> buffer[i] == old(buffer[i])
  {
    for i := 0 to n
      invariant forall j :: 0 <= j < i ==> buffer[j] == NUL
      invariant forall j :: n <= j < buffer.Length ==> buffer[j] == old(buffer[j])
    {
      buffer[i] := NUL;
    }
  }

  /** read(fd, buffer, n) on a stream that holds bytes. */
  method Read(fd: Stream, buffer: array<char>)
    requires buffer.Length == BUF_LEN
    modifies fd, buffer
    ensures fd.bytes == Rest(old(fd.bytes))
    ensures forall i :: 0 <= i < |Chunk(old(fd.bytes))| ==> buffer[i] == Chunk(old(fd.bytes))[i]
    ensures forall i :: |Chunk(old(fd.bytes))| <= i < BUF_LEN ==> buffer[i] == old(buffer[i])
  {
    var chunk := Chunk(fd.bytes);
    for i := 0 to |chunk|
      invariant fd.bytes == old(fd.bytes)
      invariant forall j :: 0 <= j < i ==> buffer[j] == chunk[j]
      invariant forall j :: i <= j < BUF_LEN ==> buffer[j] == old(buffer[j])
    {
      buffer[i] := chunk[i];
    }
    fd.bytes := fd.bytes[|chunk|..];
  }

  method ReceiveMessage(fd: Stream, buffer: array<char>) returns (message: Received)
    requires buffer.Length == BUF_LEN
    modifies fd, buffer
    ensures message == Value(Filled(old(fd.bytes), old(buffer[READ_LEN])))
    ensures fd.bytes == Rest(old(fd.bytes))
    ensures buffer[..] == Filled(old(fd.bytes), old(buffer[READ_LEN]))
  {
    Bzero(buffer, READ_LEN);
    Read(fd, buffer);
    assert buffer[..] == Filled(old(fd.bytes), old(buffer[READ_LEN]));
    var i := 0;
    while i < buffer.Length && buffer[i] != NUL
      invariant i <= buffer.Length
      invariant NUL !in buffer[..i]
    {
      i := i + 1;
    }
    FirstNulIs(buffer[..], i);
    message := if i < buffer.Length then Text(buffer[..i]) else Overrun;
    assert buffer[..][..i] == buffer[..i];
  }

  /** The round trip on a real stream and a reused buffer with any stale contents. */
  method Exchange(fd: Stream, buffer: array<char>, message: string) returns (received: Received)
    requires fd.bytes == [] && buffer.Length == BUF_LEN
    modifies fd, buffer
    ensures received == Text(message) && fd.bytes == [] <==> NulFree(message) && |message| <= 254
  {
    SendMessage(fd, message);
    RoundTrip(message, buffer[READ_LEN]);
    assert [] + Frame(message) == Frame(message);
    received := ReceiveMessage(fd, buffer);
  }
}
