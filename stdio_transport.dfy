/**
  The lenient stdio server transport (src/utils/stdioTransport.ts): bytes
  arriving on stdin are framed into newline-terminated lines, each line is
  decoded as a JSON-RPC message after `params: null` is rewritten to `{}`,
  malformed lines are counted and skipped, and every outgoing message is
  written as its compact JSON text followed by one newline.

  JSON.parse (with the UTF-8 decoding of the line) and the MCP SDK's
  JSON-RPC message schema are foreign code; they are the `parse` and
  `schema` parameters of the transport.
 */
module StdioTransport {
  import opened Wrappers
  import opened Json

  newtype byte = x: int | 0 <= x < 256

  const LF: byte := 10
  const CR: byte := 13

  // ---------------------------------------------------------------------
  // Line framing, as functions on the buffered bytes
  // ---------------------------------------------------------------------

  /** `buffer.indexOf("\n")`: the position of the first line feed, or -1. */
  function LineEnd(s: seq<byte>): (r: int)
    ensures -1 <= r < |s|
    ensures r >= 0 ==> s[r] == LF
  {
    if s == [] then -1
    else if s[0] == LF then 0
    else
      var k := LineEnd(s[1..]);
      if k == -1 then -1 else k + 1
  }

  /** LineEnd finds the first line feed, and reports -1 exactly when there is none. */
  lemma {:induction false} LineEndIsFirst(s: seq<byte>)
    ensures LineEnd(s) == -1 <==> LF !in s
    ensures LineEnd(s) >= 0 ==> LF !in s[..LineEnd(s)]
    decreases |s|
  {
    if s != [] && s[0] != LF {
      LineEndIsFirst(s[1..]);
      assert s == [s[0]] + s[1..];
      var k := LineEnd(s[1..]);
      if k >= 0 {
        assert s[..k + 1] == [s[0]] + s[1..][..k];
      }
    }
  }

  /** The first line feed is the only position that is a line feed with none before it. */
  lemma LineEndUnique(s: seq<byte>, r: int)
    requires 0 <= r < |s| && s[r] == LF && LF !in s[..r]
    ensures LineEnd(s) == r
  {
    LineEndIsFirst(s);
  }

  /** `.replace(/\r$/, "")`: one trailing carriage return is dropped. */
  function StripCR(line: seq<byte>): (r: seq<byte>)
    ensures |line| > 0 && line[|line| - 1] == CR ==> r == line[..|line| - 1]
    ensures |line| == 0 || line[|line| - 1] != CR ==> r == line
  {
    if |line| > 0 && line[|line| - 1] == CR then line[..|line| - 1] else line
  }

  /** The first line of a buffer holding a line feed: the bytes before it, less one trailing CR. */
  function FirstLine(s: seq<byte>): seq<byte>
    requires LineEnd(s) >= 0
  {
    StripCR(s[..LineEnd(s)])
  }

  /** The bytes after the first line feed. */
  function AfterFirstLine(s: seq<byte>): (r: seq<byte>)
    requires LineEnd(s) >= 0
    ensures |r| < |s|
  {
    s[LineEnd(s) + 1..]
  }

  /** The complete lines a buffer holds, in order, each without its terminator and trailing CR. */
  function Lines(s: seq<byte>): seq<seq<byte>>
    decreases |s|
  {
    if LineEnd(s) < 0 then [] else [FirstLine(s)] + Lines(AfterFirstLine(s))
  }

  /** What stays buffered once every complete line is taken: the bytes after the last line feed. */
  function Remainder(s: seq<byte>): (r: seq<byte>)
    ensures LineEnd(r) == -1
    decreases |s|
  {
    if LineEnd(s) < 0 then s else Remainder(AfterFirstLine(s))
  }

  /** A buffer without a line feed holds no line and is its own remainder. */
  lemma NoLineFeedNoLines(s: seq<byte>)
    requires LineEnd(s) == -1
    ensures Lines(s) == [] && Remainder(s) == s
  {
  }

  /** Taking the first line of a buffer moves it from what is left to what was taken. */
  lemma LineTaken(s: seq<byte>, taken: seq<seq<byte>>)
    requires LineEnd(s) >= 0
    ensures taken + Lines(s) == (taken + [FirstLine(s)]) + Lines(AfterFirstLine(s))
    ensures Remainder(s) == Remainder(AfterFirstLine(s))
  {
    var first, rest := [FirstLine(s)], Lines(AfterFirstLine(s));
    assert Lines(s) == first + rest;
    assert taken + (first + rest) == (taken + first) + rest;
  }

  /**
    Framing is compositional: the lines of `a + b` are the lines of `a`
    followed by the lines of what `a` leaves buffered with `b` after it.
   */
  lemma {:induction false} LinesAppend(a: seq<byte>, b: seq<byte>)
    ensures Lines(a + b) == Lines(a) + Lines(Remainder(a) + b)
    ensures Remainder(a + b) == Remainder(Remainder(a) + b)
    decreases |a|
  {
    if LineEnd(a) >= 0 {
      FirstLineAppend(a, b);
      var rest := AfterFirstLine(a);
      LinesAppend(rest, b);
      assert Lines(a + b) == [FirstLine(a)] + Lines(rest + b);
      assert Lines(a) == [FirstLine(a)] + Lines(rest);
      assert Remainder(a) == Remainder(rest);
    }
  }

  /** A buffer that already holds a line feed starts with the same line whatever follows it. */
  lemma FirstLineAppend(a: seq<byte>, b: seq<byte>)
    requires LineEnd(a) >= 0
    ensures LineEnd(a + b) == LineEnd(a)
    ensures FirstLine(a + b) == FirstLine(a)
    ensures AfterFirstLine(a + b) == AfterFirstLine(a) + b
  {
    var k := LineEnd(a);
    LineEndIsFirst(a);
    assert (a + b)[..k] == a[..k];
    LineEndUnique(a + b, k);
  }

  /** One line followed by its terminator frames as exactly that line. */
  lemma {:induction false} LinesOfTerminated(x: seq<byte>, y: seq<byte>)
    requires LF !in x
    ensures Lines(x + [LF] + y) == [StripCR(x)] + Lines(y)
    ensures Remainder(x + [LF] + y) == Remainder(y)
  {
    var s := x + [LF] + y;
    assert s[..|x|] == x;
    LineEndUnique(s, |x|);
    assert s[|x| + 1..] == y;
  }

  function Concat(chunks: seq<seq<byte>>): seq<byte>
    decreases |chunks|
  {
    if chunks == [] then [] else chunks[0] + Concat(chunks[1..])
  }

  /** The lines produced when the chunks arrive one at a time and the buffer is drained after each. */
  function FeedLines(buf: seq<byte>, chunks: seq<seq<byte>>): seq<seq<byte>>
    decreases |chunks|
  {
    if chunks == [] then [] else Lines(buf + chunks[0]) + FeedLines(Remainder(buf + chunks[0]), chunks[1..])
  }

  /** What stays buffered after the chunks arrived one at a time, each followed by a drain. */
  function FeedRemainder(buf: seq<byte>, chunks: seq<seq<byte>>): seq<byte>
    decreases |chunks|
  {
    if chunks == [] then buf else FeedRemainder(Remainder(buf + chunks[0]), chunks[1..])
  }

  /**
    Chunk boundaries do not matter: feeding chunks one at a time and draining
    after each yields the same lines, and leaves the same bytes buffered, as
    feeding their concatenation at once.
   */
  lemma {:induction false} ChunkBoundaryIndependence(buf: seq<byte>, chunks: seq<seq<byte>>)
    requires LineEnd(buf) == -1
    ensures FeedLines(buf, chunks) == Lines(buf + Concat(chunks))
    ensures FeedRemainder(buf, chunks) == Remainder(buf + Concat(chunks))
    decreases |chunks|
  {
    if chunks == [] {
      assert buf + Concat(chunks) == buf;
      NoLineFeedNoLines(buf);
    } else {
      var c, rest := chunks[0], chunks[1..];
      assert buf + Concat(chunks) == (buf + c) + Concat(rest);
      LinesAppend(buf + c, Concat(rest));
      ChunkBoundaryIndependence(Remainder(buf + c), rest);
    }
  }

  // ---------------------------------------------------------------------
  // ReadBuffer
  // ---------------------------------------------------------------------

  /** The stdin byte buffer; an unset buffer is the empty one (both yield no line). */
  class ReadBuffer {
    var buffer: seq<byte>

    constructor()
      ensures buffer == []
    {
      buffer := [];
    }

    /** `append(chunk)`. */
    method Append(chunk: seq<byte>)
      modifies this
      ensures buffer == old(buffer) + chunk
    {
      buffer := buffer + chunk;
    }

    /**
      `readLine()`: with no line feed buffered, nothing is returned and the
      buffer is unchanged; otherwise the bytes before the first line feed,
      less one trailing CR, are returned and the buffer keeps exactly the bytes
      after that line feed. In terms of the framing: the line returned is the
      first of the buffer's lines, and the rest are still buffered.
     */
    method ReadLine() returns (line: Option<seq<byte>>)
      modifies this
      ensures LineEnd(old(buffer)) < 0 ==> line.None? && buffer == old(buffer)
      ensures LineEnd(old(buffer)) >= 0 ==> line == Some(FirstLine(old(buffer))) && buffer == AfterFirstLine(old(buffer))
    {
      var index := LineEnd(buffer);
      if index == -1 {
        return None;
      }
      line := Some(StripCR(buffer[..index]));
      buffer := buffer[index + 1..];
    }

    /** `clear()`. */
    method Clear()
      modifies this
      ensures buffer == []
    {
      buffer := [];
    }
  }

  // ---------------------------------------------------------------------
  // Lenient decoding
  // ---------------------------------------------------------------------

  /**
    The `params: null` quirk: an object whose `params` is null gets `{}` in
    its place (same position, every other member untouched); any other value
    is returned as it is.
   */
  function NormalizeParams(j: Json): (r: Json)
    ensures j.Obj? && Get(j.members, "params") == Some(Null) ==>
      r.Obj? && Get(r.members, "params") == Some(Obj([])) && |r.members| == |j.members|
      && forall k :: k != "params" ==> Get(r.members, k) == Get(j.members, k)
    ensures !(j.Obj? && Get(j.members, "params") == Some(Null)) ==> r == j
  {
    if j.Obj? && Get(j.members, "params") == Some(Null) then Obj(Put(j.members, "params", Obj([])))
    else j
  }

  /** Rewriting null params is idempotent: a normalised value has nothing left to rewrite. */
  lemma NormalizeParamsIdempotent(j: Json)
    ensures NormalizeParams(NormalizeParams(j)) == NormalizeParams(j)
  {
  }

  /**
    `deserializeMessageLenient(line)`: no message when the line does not parse
    or the normalised value fails the schema, otherwise what the schema yields.
   */
  function Deserialize(line: seq<byte>, parse: seq<byte> -> Option<Json>, schema: Json -> Option<Json>): (r: Option<Json>)
    ensures parse(line).None? ==> r.None?
    ensures parse(line).Some? && schema(NormalizeParams(parse(line).value)).None? ==> r.None?
    ensures r.Some? ==> parse(line).Some? && r == schema(NormalizeParams(parse(line).value))
  {
    var parsed :- parse(line);
    schema(NormalizeParams(parsed))
  }

  /** The messages the drain loop hands on for these lines, in order. */
  function Accepted(lines: seq<seq<byte>>, parse: seq<byte> -> Option<Json>, schema: Json -> Option<Json>): seq<Json>
    decreases |lines|
  {
    if lines == [] then []
    else
      match Deserialize(lines[0], parse, schema)
      case Some(m) => [m] + Accepted(lines[1..], parse, schema)
      case None => Accepted(lines[1..], parse, schema)
  }

  /** How many of these lines the drain loop drops as malformed. */
  function Dropped(lines: seq<seq<byte>>, parse: seq<byte> -> Option<Json>, schema: Json -> Option<Json>): (r: nat)
    ensures r <= |lines|
    decreases |lines|
  {
    if lines == [] then 0
    else (if Deserialize(lines[0], parse, schema).None? then 1 else 0) + Dropped(lines[1..], parse, schema)
  }

  /** Every line is either delivered or dropped. */
  lemma {:induction false} AcceptedPlusDropped(lines: seq<seq<byte>>, parse: seq<byte> -> Option<Json>, schema: Json -> Option<Json>)
    ensures |Accepted(lines, parse, schema)| + Dropped(lines, parse, schema) == |lines|
    decreases |lines|
  {
    if lines != [] {
      AcceptedPlusDropped(lines[1..], parse, schema);
    }
  }

  lemma {:induction false} AcceptedAppend(a: seq<seq<byte>>, b: seq<seq<byte>>, parse: seq<byte> -> Option<Json>, schema: Json -> Option<Json>)
    ensures Accepted(a + b, parse, schema) == Accepted(a, parse, schema) + Accepted(b, parse, schema)
    ensures Dropped(a + b, parse, schema) == Dropped(a, parse, schema) + Dropped(b, parse, schema)
  {
    AcceptedConcat(a, b, parse, schema);
    DroppedConcat(a, b, parse, schema);
  }

  lemma {:induction false} AcceptedConcat(a: seq<seq<byte>>, b: seq<seq<byte>>, parse: seq<byte> -> Option<Json>, schema: Json -> Option<Json>)
    ensures Accepted(a + b, parse, schema) == Accepted(a, parse, schema) + Accepted(b, parse, schema)
    decreases |a|
  {
    if a != [] {
      assert (a + b)[0] == a[0];
      assert (a + b)[1..] == a[1..] + b;
      AcceptedConcat(a[1..], b, parse, schema);
    } else {
      assert a + b == b;
    }
  }

  lemma {:induction false} DroppedConcat(a: seq<seq<byte>>, b: seq<seq<byte>>, parse: seq<byte> -> Option<Json>, schema: Json -> Option<Json>)
    ensures Dropped(a + b, parse, schema) == Dropped(a, parse, schema) + Dropped(b, parse, schema)
    decreases |a|
  {
    if a != [] {
      assert (a + b)[0] == a[0];
      assert (a + b)[1..] == a[1..] + b;
      DroppedConcat(a[1..], b, parse, schema);
    } else {
      assert a + b == b;
    }
  }

  /** Taking one more line delivers its message, or counts it as dropped. */
  lemma AcceptedSnoc(taken: seq<seq<byte>>, line: seq<byte>, parse: seq<byte> -> Option<Json>, schema: Json -> Option<Json>)
    ensures Deserialize(line, parse, schema).Some? ==>
      Accepted(taken + [line], parse, schema) == Accepted(taken, parse, schema) + [Deserialize(line, parse, schema).value]
      && Dropped(taken + [line], parse, schema) == Dropped(taken, parse, schema)
    ensures Deserialize(line, parse, schema).None? ==>
      Accepted(taken + [line], parse, schema) == Accepted(taken, parse, schema)
      && Dropped(taken + [line], parse, schema) == Dropped(taken, parse, schema) + 1
  {
    assert [line][1..] == [];
    AcceptedAppend(taken, [line], parse, schema);
  }

  /** A bad line never blocks later lines: dropping it leaves the lines after it delivered, in order. */
  lemma BadLineSkipped(before: seq<seq<byte>>, bad: seq<byte>, after: seq<seq<byte>>,
                       parse: seq<byte> -> Option<Json>, schema: Json -> Option<Json>)
    requires Deserialize(bad, parse, schema).None?
    ensures Accepted(before + [bad] + after, parse, schema) == Accepted(before, parse, schema) + Accepted(after, parse, schema)
    ensures Dropped(before + [bad] + after, parse, schema) == Dropped(before, parse, schema) + 1 + Dropped(after, parse, schema)
  {
    AcceptedAppend(before + [bad], after, parse, schema);
    AcceptedSnoc(before, bad, parse, schema);
  }

  // ---------------------------------------------------------------------
  // Output framing
  // ---------------------------------------------------------------------

  /** The UTF-8 encoding of one Unicode scalar value. */
  function EncodeChar(c: char): (r: seq<byte>)
    ensures 1 <= |r| <= 4
    ensures c as int < 0x80 ==> r == [c as int as byte]
    ensures c as int >= 0x80 ==> forall i :: 0 <= i < |r| ==> r[i] >= 0x80
  {
    var n := c as int;
    if n < 0x80 then [n as byte]
    else if n < 0x800 then [(0xC0 + n / 64) as byte, (0x80 + n % 64) as byte]
    else if n < 0x10000 then [(0xE0 + n / 4096) as byte, (0x80 + (n / 64) % 64) as byte, (0x80 + n % 64) as byte]
    else [(0xF0 + n / 262144) as byte, (0x80 + (n / 4096) % 64) as byte, (0x80 + (n / 64) % 64) as byte, (0x80 + n % 64) as byte]
  }

  /** The UTF-8 encoding Node's `write` applies to a string. */
  function Encode(s: string): seq<byte>
    decreases |s|
  {
    if s == [] then [] else EncodeChar(s[0]) + Encode(s[1..])
  }

  lemma {:induction false} EncodeAppend(a: string, b: string)
    ensures Encode(a + b) == Encode(a) + Encode(b)
    decreases |a|
  {
    if a != [] {
      assert (a + b)[0] == a[0];
      assert (a + b)[1..] == a[1..] + b;
      EncodeAppend(a[1..], b);
    } else {
      assert a + b == b;
    }
  }

  /** ASCII control bytes appear in the encoding only where the text has that character. */
  lemma {:induction false} EncodeAvoids(s: string, c: char)
    requires c as int < 0x80 && c !in s
    ensures (c as int as byte) !in Encode(s)
    decreases |s|
  {
    if s != [] {
      EncodeAvoids(s[1..], c);
    }
  }

  /** The bytes `send(message)` writes: the compact JSON text and one line feed. */
  function Frame(m: Json): seq<byte> {
    Encode(Stringify(m) + "\n")
  }

  /** Everything written for these messages, in order. */
  function Frames(ms: seq<Json>): seq<byte>
    decreases |ms|
  {
    if ms == [] then [] else Frame(ms[0]) + Frames(ms[1..])
  }

  lemma FramesAppend(ms: seq<Json>, m: Json)
    ensures Frames(ms + [m]) == Frames(ms) + Frame(m)
    decreases |ms|
  {
    if ms != [] {
      assert (ms + [m])[1..] == ms[1..] + [m];
      FramesAppend(ms[1..], m);
    }
  }

  /** The encoded JSON texts of these messages, in order. */
  function Payloads(ms: seq<Json>): (r: seq<seq<byte>>)
    ensures |r| == |ms|
    ensures forall i :: 0 <= i < |ms| ==> r[i] == Encode(Stringify(ms[i]))
    decreases |ms|
  {
    if ms == [] then [] else [Encode(Stringify(ms[0]))] + Payloads(ms[1..])
  }

  /** A frame is the encoded JSON text, free of line breaks, and one line feed. */
  lemma FrameShape(m: Json)
    ensures Frame(m) == Encode(Stringify(m)) + [LF]
    ensures LF !in Encode(Stringify(m))
    ensures StripCR(Encode(Stringify(m))) == Encode(Stringify(m))
  {
    var x := Encode(Stringify(m));
    CompactHasNoLineBreak(m);
    EncodeAppend(Stringify(m), "\n");
    assert Encode("\n") == [LF];
    EncodeAvoids(Stringify(m), '\n');
    EncodeAvoids(Stringify(m), '\r');
    if |x| > 0 {
      assert x[|x| - 1] in x;
    }
  }

  /**
    Each message sent is exactly one line: framing the bytes written gives
    back one line per message, its JSON text, with nothing left over.
   */
  lemma {:induction false} FramesRoundTrip(ms: seq<Json>)
    ensures Lines(Frames(ms)) == Payloads(ms)
    ensures Remainder(Frames(ms)) == []
    decreases |ms|
  {
    if ms != [] {
      var x := Encode(Stringify(ms[0]));
      assert Lines(Frames(ms)) == [x] + Lines(Frames(ms[1..])) && Remainder(Frames(ms)) == Remainder(Frames(ms[1..])) by {
        FrameShape(ms[0]);
        assert Frames(ms) == x + [LF] + Frames(ms[1..]);
        LinesOfTerminated(x, Frames(ms[1..]));
      }
      FramesRoundTrip(ms[1..]);
    }
  }

  // ---------------------------------------------------------------------
  // The transport
  // ---------------------------------------------------------------------

  const AlreadyStarted := "LenientStdioServerTransport already started! If using Server class, note that connect() calls start() automatically."

  /** How many malformed lines are reported on stderr at most. */
  const MaxInvalidMessagesToLog: nat := 5

  /** The number of diagnostics written after `n` malformed lines: one per line up to the cap. */
  function Capped(n: nat): nat {
    if n <= MaxInvalidMessagesToLog then n else MaxInvalidMessagesToLog
  }

  class LenientStdioServerTransport {
    const parse: seq<byte> -> Option<Json>
    const schema: Json -> Option<Json>
    const readBuffer: ReadBuffer
    var started: bool
    /** Whether the stdin `data` and `error` listeners are attached. */
    var listening: bool
    var invalidMessageCount: nat
    /** How many "Ignoring malformed JSON-RPC message" diagnostics were written to stderr. */
    var diagnostics: nat
    /** The messages handed to `onmessage`, in order. */
    var delivered: seq<Json>
    /** The bytes written to stdout. */
    var written: seq<byte>
    /** How many times `onclose` was invoked. */
    var closeCount: nat
    ghost var sent: seq<Json>

    /**
      The transport's invariant: the buffer never holds a complete line
      between events, diagnostics stop at the logging cap, and stdout holds
      exactly one frame per message sent.
     */
    ghost predicate Valid()
      reads this, readBuffer
    {
      && LineEnd(readBuffer.buffer) == -1
      && diagnostics == Capped(invalidMessageCount)
      && written == Frames(sent)
    }

    constructor(parse: seq<byte> -> Option<Json>, schema: Json -> Option<Json>)
      ensures Valid() && fresh(readBuffer)
      ensures this.parse == parse && this.schema == schema
      ensures !started && !listening && invalidMessageCount == 0 && delivered == [] && written == [] && sent == [] && closeCount == 0
    {
      this.parse := parse;
      this.schema := schema;
      readBuffer := new ReadBuffer();
      started := false;
      listening := false;
      invalidMessageCount := 0;
      diagnostics := 0;
      delivered := [];
      written := [];
      closeCount := 0;
      sent := [];
    }

    /** `start()`: single-shot; a second call fails and changes nothing. */
    method Start() returns (r: Result<bool>)
      requires Valid()
      modifies this
      ensures Valid()
      ensures old(started) ==> r == Failure(AlreadyStarted) && unchanged(this)
      ensures !old(started) ==> r.Success? && started && listening
      ensures invalidMessageCount == old(invalidMessageCount) && delivered == old(delivered)
      ensures written == old(written) && closeCount == old(closeCount) && readBuffer.buffer == old(readBuffer.buffer)
    {
      if started {
        return Failure(AlreadyStarted);
      }
      started := true;
      listening := true;
      r := Success(true);
    }

    /**
      `processReadBuffer()`: every complete line buffered is taken in order;
      the messages among them are delivered, the malformed ones counted, and
      only the incomplete tail stays buffered.
     */
    method ProcessReadBuffer()
      modifies this, readBuffer
      ensures readBuffer.buffer == Remainder(old(readBuffer.buffer))
      ensures delivered == old(delivered) + Accepted(Lines(old(readBuffer.buffer)), parse, schema)
      ensures invalidMessageCount == old(invalidMessageCount) + Dropped(Lines(old(readBuffer.buffer)), parse, schema)
      requires diagnostics == Capped(invalidMessageCount)
      ensures diagnostics == Capped(invalidMessageCount)
      ensures started == old(started) && listening == old(listening) && written == old(written)
        && sent == old(sent) && closeCount == old(closeCount)
    {
      ghost var start := readBuffer.buffer;
      ghost var taken: seq<seq<byte>> := [];
      while true
        invariant Lines(start) == taken + Lines(readBuffer.buffer)
        invariant Remainder(readBuffer.buffer) == Remainder(start)
        invariant delivered == old(delivered) + Accepted(taken, parse, schema)
        invariant invalidMessageCount == old(invalidMessageCount) + Dropped(taken, parse, schema)
        invariant diagnostics == Capped(invalidMessageCount)
        invariant started == old(started) && listening == old(listening) && written == old(written)
        invariant sent == old(sent) && closeCount == old(closeCount)
        decreases |readBuffer.buffer|
      {
        ghost var before := readBuffer.buffer;
        var line := readBuffer.ReadLine();
        if line.None? {
          NoLineFeedNoLines(before);
          assert taken + [] == taken;
          break;
        }
        HandleLine(line.value, taken, old(delivered), old(invalidMessageCount));
        LineTaken(before, taken);
        taken := taken + [line.value];
      }
    }

    /**
      The body of the drain loop for one line, after the lines `taken`
      before it: a message is handed to `onmessage`; a malformed line is
      counted, and reported while the count is within the logging cap.
     */
    method HandleLine(line: seq<byte>, ghost taken: seq<seq<byte>>, ghost delivered0: seq<Json>, ghost count0: nat)
      requires delivered == delivered0 + Accepted(taken, parse, schema)
      requires invalidMessageCount == count0 + Dropped(taken, parse, schema)
      requires diagnostics == Capped(invalidMessageCount)
      modifies this
      ensures delivered == delivered0 + Accepted(taken + [line], parse, schema)
      ensures invalidMessageCount == count0 + Dropped(taken + [line], parse, schema)
      ensures diagnostics == Capped(invalidMessageCount)
      ensures started == old(started) && listening == old(listening) && written == old(written)
        && sent == old(sent) && closeCount == old(closeCount)
    {
      AcceptedSnoc(taken, line, parse, schema);
      var message := Deserialize(line, parse, schema);
      if message.None? {
        invalidMessageCount := invalidMessageCount + 1;
        if invalidMessageCount <= MaxInvalidMessagesToLog {
          diagnostics := diagnostics + 1;
        }
        return;
      }
      delivered := delivered + [message.value];
    }

    /** The stdin `data` handler: buffer the chunk, then drain. */
    method OnData(chunk: seq<byte>)
      requires Valid()
      modifies this, readBuffer
      ensures Valid()
      ensures readBuffer.buffer == Remainder(old(readBuffer.buffer) + chunk)
      ensures delivered == old(delivered) + Accepted(Lines(old(readBuffer.buffer) + chunk), parse, schema)
      ensures invalidMessageCount == old(invalidMessageCount) + Dropped(Lines(old(readBuffer.buffer) + chunk), parse, schema)
      ensures started == old(started) && listening == old(listening) && written == old(written)
        && sent == old(sent) && closeCount == old(closeCount)
    {
      readBuffer.Append(chunk);
      ProcessReadBuffer();
    }

    /** `close()`: detach from stdin, drop whatever is buffered, notify `onclose`. */
    method Close()
      requires Valid()
      modifies this, readBuffer
      ensures Valid()
      ensures readBuffer.buffer == [] && !listening && closeCount == old(closeCount) + 1
      ensures started == old(started) && invalidMessageCount == old(invalidMessageCount)
        && delivered == old(delivered) && written == old(written) && sent == old(sent)
    {
      listening := false;
      readBuffer.Clear();
      closeCount := closeCount + 1;
    }

    /** `send(message)`: one frame is written to stdout. */
    method Send(message: Json)
      requires Valid()
      modifies this
      ensures Valid()
      ensures written == old(written) + Encode(Stringify(message)) + [LF]
      ensures sent == old(sent) + [message]
      ensures started == old(started) && listening == old(listening) && invalidMessageCount == old(invalidMessageCount)
        && delivered == old(delivered) && closeCount == old(closeCount)
    {
      EncodeAppend(Stringify(message), "\n");
      assert Encode("\n") == [LF];
      FramesAppend(sent, message);
      written := written + Frame(message);
      sent := sent + [message];
    }
  }
}
