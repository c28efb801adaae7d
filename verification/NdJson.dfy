/** Newline-delimited JSON over a byte stream: an incremental decoder and its encoder. */
module NdJson {
  import opened Options
  import opened JsonRpc

  newtype byte = b: int | 0 <= b < 256

  const LF: byte := 10
  const CR: byte := 13
  const MAX_LINE_SIZE := 32 * 1024 * 1024

  /** The JSON library: parsing and printing of text, with no assumption built in. */
  datatype JsonText = JsonText(parse: seq<byte> -> Option<Json>, render: Json -> seq<byte>)

  datatype Decoded = Ready(message: JsonRpcMessage) | Incomplete | TooLong

  /** The position of the first LF, or the length when there is none. */
  function FirstLf(buf: seq<byte>): (p: nat)
    ensures p <= |buf|
    ensures LF !in buf[..p]
    ensures p < |buf| ==> buf[p] == LF
  {
    if buf == [] || buf[0] == LF then 0
    else
      var p := FirstLf(buf[1..]);
      assert buf[..p + 1] == [buf[0]] + buf[1..][..p];
      p + 1
  }

  /** A line without the CR that may end it. */
  function Trimmed(line: seq<byte>): seq<byte> {
    if line != [] && line[|line| - 1] == CR then line[..|line| - 1] else line
  }

  /** The message a text is read as; empty text and text that is no JSON-RPC carries none. */
  function CarriedBy(text: JsonText, content: seq<byte>): Option<JsonRpcMessage> {
    if content == [] then None
    else
      match text.parse(content)
      case None => None
      case Some(v) => if ReadMessage(v).Good? then Some(ReadMessage(v).value) else None
  }

  /** The message a line carries. */
  function LineMessage(text: JsonText, line: seq<byte>): Option<JsonRpcMessage> { CarriedBy(text, Trimmed(line)) }

  /** One call of `decode`: what it returns and what it leaves in the buffer. */
  function DecodeStep(text: JsonText, buf: seq<byte>): (Decoded, seq<byte>)
    decreases |buf|
  {
    var pos := FirstLf(buf);
    if pos == |buf| then (if |buf| > MAX_LINE_SIZE then TooLong else Incomplete, buf)
    else
      var line, rest := buf[..pos], buf[pos + 1..];
      if |Trimmed(line)| > MAX_LINE_SIZE then (TooLong, rest)
      else if LineMessage(text, line).Some? then (Ready(LineMessage(text, line).value), rest)
      else DecodeStep(text, rest)
  }

  class BytesMut {
    var data: seq<byte>

    constructor ()
      ensures data == []
    {
      data := [];
    }
  }

  /** Every call terminates, whatever is in the buffer. */
  method Decode(text: JsonText, src: BytesMut) returns (d: Decoded)
    modifies src
    ensures (d, src.data) == DecodeStep(text, old(src.data))
  {
    while true
      invariant DecodeStep(text, src.data) == DecodeStep(text, old(src.data))
      decreases |src.data|
    {
      var pos := 0;
      while pos < |src.data| && src.data[pos] != LF
        invariant 0 <= pos <= |src.data|
        invariant FirstLf(src.data) == pos + FirstLf(src.data[pos..])
      {
        pos := pos + 1;
      }
      if pos == |src.data| {
        if |src.data| > MAX_LINE_SIZE { return TooLong; }
        return Incomplete;
      }
      var line := src.data[..pos + 1];
      assert line[..pos] == src.data[..pos];
      src.data := src.data[pos + 1..];
      var end := if pos > 0 && line[pos - 1] == CR then pos - 1 else pos;
      var trimmed := line[..end];
      assert trimmed == Trimmed(line[..pos]);
      if trimmed != [] {
        if |trimmed| > MAX_LINE_SIZE { return TooLong; }
        var parsed := text.parse(trimmed);
        if parsed.Some? {
          var message := ReadMessage(parsed.value);
          if message.Good? { return Ready(message.value); }
        }
      }
    }
  }

  function EncodeLine(text: JsonText, m: JsonRpcMessage): seq<byte> { text.render(ToJson(m)) + [LF] }

  method Encode(text: JsonText, item: JsonRpcMessage, dst: BytesMut)
    modifies dst
    ensures dst.data == old(dst.data) + EncodeLine(text, item)
  {
    dst.data := dst.data + text.render(ToJson(item));
    dst.data := dst.data + [LF];
  }

  // ----- the reference: split the whole stream on LF -----

  function Lines(stream: seq<byte>): seq<seq<byte>>
    decreases |stream|
  {
    var p := FirstLf(stream);
    if p == |stream| then [] else [stream[..p]] + Lines(stream[p + 1..])
  }

  function Tail(stream: seq<byte>): seq<byte>
    decreases |stream|
  {
    var p := FirstLf(stream);
    if p == |stream| then stream else Tail(stream[p + 1..])
  }

  function MessagesOf(text: JsonText, lines: seq<seq<byte>>): seq<JsonRpcMessage> {
    if lines == [] then []
    else
      var m := LineMessage(text, lines[0]);
      (if m.Some? then [m.value] else []) + MessagesOf(text, lines[1..])
  }

  /** Raw lines, CR included, and the unfinished last line are within the limit. */
  predicate Fits(stream: seq<byte>) {
    |Tail(stream)| <= MAX_LINE_SIZE && forall line :: line in Lines(stream) ==> |line| <= MAX_LINE_SIZE
  }

  // ----- feeding a stream in chunks -----

  /** What a reader has received, what is left in its buffer, and whether an error ended it. */
  datatype Reader = Reader(received: seq<JsonRpcMessage>, buffer: seq<byte>, broken: bool)

  lemma {:induction false} DecodeShrinks(text: JsonText, buf: seq<byte>)
    ensures var (d, rest) := DecodeStep(text, buf);
            d.Ready? ==> |rest| < |buf|
    decreases |buf|
  {
    var p := FirstLf(buf);
    if p < |buf| { DecodeShrinks(text, buf[p + 1..]); }
  }

  /** Calls `decode` until it asks for more bytes. */
  function Drain(text: JsonText, buf: seq<byte>): Reader
    decreases |buf|
  {
    DecodeShrinks(text, buf);
    var (d, rest) := DecodeStep(text, buf);
    match d
    case Incomplete => Reader([], rest, false)
    case TooLong => Reader([], rest, true)
    case Ready(m) => var r := Drain(text, rest); r.(received := [m] + r.received)
  }

  function Feed(text: JsonText, r: Reader, chunk: seq<byte>): Reader {
    if r.broken then r
    else var next := Drain(text, r.buffer + chunk); next.(received := r.received + next.received)
  }

  function FeedAll(text: JsonText, chunks: seq<seq<byte>>): Reader {
    if chunks == [] then Reader([], [], false)
    else Feed(text, FeedAll(text, chunks[..|chunks| - 1]), chunks[|chunks| - 1])
  }

  function Joined(chunks: seq<seq<byte>>): seq<byte> {
    if chunks == [] then [] else Joined(chunks[..|chunks| - 1]) + chunks[|chunks| - 1]
  }

  // ----- proofs -----

  lemma FirstLfIs(buf: seq<byte>, p: nat)
    requires p <= |buf| && LF !in buf[..p] && (p < |buf| ==> buf[p] == LF)
    ensures FirstLf(buf) == p
  {
    var q := FirstLf(buf);
    assert forall j :: 0 <= j < p ==> buf[..p][j] == buf[j] != LF;
    assert forall j :: 0 <= j < q ==> buf[..q][j] == buf[j] != LF;
  }

  lemma {:induction false} LinesConcat(a: seq<byte>, b: seq<byte>)
    ensures Lines(a + b) == Lines(a) + Lines(Tail(a) + b)
    ensures Tail(a + b) == Tail(Tail(a) + b)
    decreases |a|
  {
    var p := FirstLf(a);
    if p < |a| {
      assert (a + b)[..p] == a[..p];
      FirstLfIs(a + b, p);
      assert (a + b)[p + 1..] == a[p + 1..] + b;
      LinesConcat(a[p + 1..], b);
    }
  }

  lemma {:induction false} MessagesConcat(text: JsonText, a: seq<seq<byte>>, b: seq<seq<byte>>)
    ensures MessagesOf(text, a + b) == MessagesOf(text, a) + MessagesOf(text, b)
  {
    if a == [] {
      assert a + b == b;
    } else {
      assert (a + b)[1..] == a[1..] + b;
      MessagesConcat(text, a[1..], b);
    }
  }

  lemma {:induction false} TailHasNoLf(s: seq<byte>)
    ensures LF !in Tail(s) && |Tail(s)| <= |s|
    decreases |s|
  {
    var p := FirstLf(s);
    if p < |s| { TailHasNoLf(s[p + 1..]); } else { assert s[..p] == s; }
  }

  lemma FitsPrefix(a: seq<byte>, b: seq<byte>)
    requires Fits(a + b)
    ensures Fits(a) && Fits(Tail(a) + b)
  {
    LinesConcat(a, b);
    TailHasNoLf(a);
    var t := Tail(a) + b;
    var p := FirstLf(t);
    assert forall j :: 0 <= j < |Tail(a)| ==> t[j] == Tail(a)[j] != LF;
    if p < |t| {
      assert Lines(t)[0] == t[..p];
      assert t[..p] in Lines(a + b);
    }
  }

  /** What one complete line adds to draining the rest. */
  lemma DrainLine(text: JsonText, buf: seq<byte>)
    requires FirstLf(buf) < |buf| && |Trimmed(buf[..FirstLf(buf)])| <= MAX_LINE_SIZE
    ensures var p := FirstLf(buf);
            var m, rest := LineMessage(text, buf[..p]), Drain(text, buf[p + 1..]);
            Drain(text, buf) == if m.Some? then rest.(received := [m.value] + rest.received) else rest
  {
    var p := FirstLf(buf);
    if LineMessage(text, buf[..p]).None? {
      assert DecodeStep(text, buf) == DecodeStep(text, buf[p + 1..]);
    }
  }

  /** What the first complete line contributes to the reference. */
  lemma SplitLine(text: JsonText, buf: seq<byte>)
    requires FirstLf(buf) < |buf| && Fits(buf)
    ensures var line, rest := buf[..FirstLf(buf)], buf[FirstLf(buf) + 1..];
            && |line| <= MAX_LINE_SIZE && Fits(rest) && Tail(buf) == Tail(rest)
            && MessagesOf(text, Lines(buf))
               == (if LineMessage(text, line).Some? then [LineMessage(text, line).value] else [])
                + MessagesOf(text, Lines(rest))
  {
    var line, rest := buf[..FirstLf(buf)], buf[FirstLf(buf) + 1..];
    assert Lines(buf) == [line] + Lines(rest);
    assert line in Lines(buf);
    assert forall l :: l in Lines(rest) ==> l in Lines(buf);
  }

  lemma DrainTail(text: JsonText, buf: seq<byte>)
    requires FirstLf(buf) == |buf|
    ensures Drain(text, buf) == Reader([], buf, |buf| > MAX_LINE_SIZE) && Lines(buf) == [] && Tail(buf) == buf
  {
  }

  /** Draining a buffer yields the messages of its lines and leaves its last, unfinished line. */
  lemma {:induction false} DrainMeaning(text: JsonText, buf: seq<byte>)
    requires Fits(buf)
    ensures Drain(text, buf) == Reader(MessagesOf(text, Lines(buf)), Tail(buf), false)
    decreases |buf|
  {
    if FirstLf(buf) < |buf| {
      SplitLine(text, buf);
      DrainMeaning(text, buf[FirstLf(buf) + 1..]);
      DrainLine(text, buf);
    } else {
      DrainTail(text, buf);
    }
  }

  /** However the stream is cut into chunks, the reader gets the messages of its lines and keeps
      the unfinished last line. */
  lemma {:induction false} ChunkIndependence(text: JsonText, chunks: seq<seq<byte>>)
    requires Fits(Joined(chunks))
    ensures FeedAll(text, chunks)
         == Reader(MessagesOf(text, Lines(Joined(chunks))), Tail(Joined(chunks)), false)
  {
    if chunks != [] {
      var before, last := Joined(chunks[..|chunks| - 1]), chunks[|chunks| - 1];
      FitsPrefix(before, last);
      ChunkIndependence(text, chunks[..|chunks| - 1]);
      DrainMeaning(text, Tail(before) + last);
      LinesConcat(before, last);
      MessagesConcat(text, Lines(before), Lines(Tail(before) + last));
    }
  }

  /** The limit as the decoder applies it to a stream it gets at once: to lines without their CR. */
  predicate Short(s: seq<byte>) { |Tail(s)| <= MAX_LINE_SIZE && AllShort(Lines(s)) }

  predicate AllShort(lines: seq<seq<byte>>) { forall line :: line in lines ==> |Trimmed(line)| <= MAX_LINE_SIZE }

  lemma AllShortConcat(a: seq<seq<byte>>, b: seq<seq<byte>>)
    ensures AllShort(a + b) <==> AllShort(a) && AllShort(b)
  {
    assert forall l :: l in a + b <==> l in a || l in b;
  }

  lemma {:induction false} LinesCons(buf: seq<byte>)
    requires FirstLf(buf) < |buf|
    ensures Lines(buf) == [buf[..FirstLf(buf)]] + Lines(buf[FirstLf(buf) + 1..])
    ensures Tail(buf) == Tail(buf[FirstLf(buf) + 1..])
  {
  }

  lemma ShortLine(buf: seq<byte>, line: seq<byte>, rest: seq<byte>)
    requires Lines(buf) == [line] + Lines(rest) && Tail(buf) == Tail(rest)
    ensures Short(buf) <==> |Trimmed(line)| <= MAX_LINE_SIZE && Short(rest)
  {
    AllShortConcat([line], Lines(rest));
  }

  lemma DrainStep(text: JsonText, buf: seq<byte>)
    requires FirstLf(buf) < |buf|
    ensures var line, rest := buf[..FirstLf(buf)], buf[FirstLf(buf) + 1..];
            && (!Drain(text, buf).broken <==> |Trimmed(line)| <= MAX_LINE_SIZE && !Drain(text, rest).broken)
            && (|Trimmed(line)| <= MAX_LINE_SIZE ==> Drain(text, buf).buffer == Drain(text, rest).buffer)
  {
    if |Trimmed(buf[..FirstLf(buf)])| <= MAX_LINE_SIZE { DrainLine(text, buf); }
  }

  /** Draining a buffer succeeds exactly when it is short, and then leaves its unfinished line. */
  lemma {:induction false} DrainSucceedsIff(text: JsonText, buf: seq<byte>)
    ensures !Drain(text, buf).broken <==> Short(buf)
    ensures Short(buf) ==> Drain(text, buf).buffer == Tail(buf)
    decreases |buf|
  {
    var p := FirstLf(buf);
    if p < |buf| {
      DrainSucceedsIff(text, buf[p + 1..]);
      LinesCons(buf);
      ShortLine(buf, buf[..p], buf[p + 1..]);
      DrainStep(text, buf);
    } else {
      DrainTail(text, buf);
    }
  }

  lemma NoLfTail(line: seq<byte>)
    requires LF !in line
    ensures Tail(line) == line
  {
    FirstLfIs(line, |line|);
  }

  lemma LineFirst(line: seq<byte>, rest: seq<byte>)
    requires LF !in line
    ensures Lines(line + [LF] + rest) == [line] + Lines(rest) && Tail(line + [LF] + rest) == Tail(rest)
  {
    var s := line + [LF] + rest;
    assert s[..|line|] == line && s[|line| + 1..] == rest;
    FirstLfIs(s, |line|);
  }

  /** Each line is at some point the unfinished last line of what has come so far. */
  lemma {:induction false} LineIsTail(s: seq<byte>, line: seq<byte>) returns (n: nat)
    requires line in Lines(s)
    ensures n <= |s| && Tail(s[..n]) == line
    decreases |s|
  {
    var first, rest := s[..FirstLf(s)], s[FirstLf(s) + 1..];
    assert s == first + [LF] + rest;
    LineFirst(first, rest);
    if line == first {
      n := |first|;
      NoLfTail(line);
    } else {
      var n' := LineIsTail(rest, line);
      n := |first| + 1 + n';
      assert s[..n] == first + [LF] + rest[..n'];
      LineFirst(first, rest[..n']);
    }
  }

  lemma FeedOne(text: JsonText, a: seq<byte>)
    ensures FeedAll(text, [a]) == Drain(text, a) && Joined([a]) == a
  {
    assert [a][..0] == [] && [] + a == a;
    assert FeedAll(text, []) == Reader([], [], false);
    assert [] + Drain(text, a).received == Drain(text, a).received;
  }

  lemma FeedTwo(text: JsonText, a: seq<byte>, b: seq<byte>)
    ensures FeedAll(text, [a, b]) == Feed(text, FeedAll(text, [a]), b) && Joined([a, b]) == Joined([a]) + b
  {
    assert [a, b][..1] == [a];
  }

  lemma OverlongPrefix(s: seq<byte>) returns (n: nat)
    requires !Fits(s)
    ensures n <= |s| && |Tail(s[..n])| > MAX_LINE_SIZE
  {
    if |Tail(s)| <= MAX_LINE_SIZE {
      var line :| line in Lines(s) && |line| > MAX_LINE_SIZE;
      n := LineIsTail(s, line);
    } else {
      n := |s|;
      assert s[..n] == s;
    }
  }

  /** A stream beyond the limits can be cut so that the reader breaks: where the line is unfinished. */
  lemma OverlongIsRefused(text: JsonText, s: seq<byte>) returns (a: seq<byte>, b: seq<byte>)
    requires !Fits(s)
    ensures Joined([a, b]) == s && FeedAll(text, [a, b]).broken
  {
    var n := OverlongPrefix(s);
    a, b := s[..n], s[n..];
    assert a + b == s;
    DrainSucceedsIff(text, a);
    FeedOne(text, a);
    FeedTwo(text, a, b);
  }

  /** The stream is read without an error however it is cut. */
  ghost predicate AcceptedInAnyChunks(text: JsonText, s: seq<byte>) {
    forall chunks :: Joined(chunks) == s ==> !FeedAll(text, chunks).broken
  }

  /** That is so exactly when its raw lines, CR included, and its unfinished last line are within
      the limit. */
  lemma AcceptedInAnyChunksIff(text: JsonText, s: seq<byte>)
    ensures AcceptedInAnyChunks(text, s) <==> Fits(s)
  {
    if Fits(s) {
      forall chunks | Joined(chunks) == s ensures !FeedAll(text, chunks).broken {
        ChunkIndependence(text, chunks);
      }
    } else {
      var a, b := OverlongIsRefused(text, s);
    }
  }

  lemma ShortConcat(a: seq<byte>, b: seq<byte>)
    requires Short(a)
    ensures Short(a + b) <==> Short(Tail(a) + b)
    ensures Tail(a + b) == Tail(Tail(a) + b)
  {
    LinesConcat(a, b);
    AllShortConcat(Lines(a), Lines(Tail(a) + b));
  }

  /** A reader that has come through without an error has read a short stream, however it was cut. */
  lemma {:induction false} UnbrokenIsShort(text: JsonText, chunks: seq<seq<byte>>)
    requires !FeedAll(text, chunks).broken
    ensures Short(Joined(chunks)) && FeedAll(text, chunks).buffer == Tail(Joined(chunks))
  {
    if chunks != [] {
      var before, last := Joined(chunks[..|chunks| - 1]), chunks[|chunks| - 1];
      UnbrokenIsShort(text, chunks[..|chunks| - 1]);
      DrainSucceedsIff(text, Tail(before) + last);
      ShortConcat(before, last);
    }
  }

  /** The stream ends in an error however it is cut. */
  ghost predicate RefusedInAnyChunks(text: JsonText, s: seq<byte>) {
    forall chunks :: Joined(chunks) == s ==> FeedAll(text, chunks).broken
  }

  /** That is so exactly when a line without its CR, or the unfinished last line, is over the limit. */
  lemma RefusedInAnyChunksIff(text: JsonText, s: seq<byte>)
    ensures RefusedInAnyChunks(text, s) <==> !Short(s)
  {
    if Short(s) {
      FeedOne(text, s);
      DrainSucceedsIff(text, s);
      assert Joined([s]) == s && !FeedAll(text, [s]).broken;
    } else {
      forall chunks | Joined(chunks) == s ensures FeedAll(text, chunks).broken {
        if !FeedAll(text, chunks).broken { UnbrokenIsShort(text, chunks); }
      }
    }
  }

  /** Whether a stream is accepted depends on how it is cut exactly when only the CRs of its lines
      take it over the limit. */
  lemma DependsOnChunksIff(text: JsonText, s: seq<byte>)
    ensures !AcceptedInAnyChunks(text, s) && !RefusedInAnyChunks(text, s) <==> Short(s) && !Fits(s)
  {
    AcceptedInAnyChunksIff(text, s);
    RefusedInAnyChunksIff(text, s);
  }

  /** Counting the CR is needed: a line of exactly the maximal length that ends in CRLF is
      accepted when it arrives at once and refused when its LF arrives later. */
  lemma MaximalCrlfLineDependsOnChunks(text: JsonText, line: seq<byte>)
    requires |line| == MAX_LINE_SIZE && LF !in line
    ensures !FeedAll(text, [line + [CR, LF]]).broken
    ensures FeedAll(text, [line + [CR], [LF]]).broken
  {
    var whole := line + [CR, LF];
    assert whole[..|line| + 1] == line + [CR];
    FirstLfIs(whole, |line| + 1);
    assert Trimmed(line + [CR]) == line;
    assert whole[|line| + 2..] == [];
    assert Drain(text, []) == Reader([], [], false);
    assert !Drain(text, whole).broken;
    FeedOne(text, whole);
    var first := line + [CR];
    assert first[..|first|] == first;
    FirstLfIs(first, |first|);
    FeedOne(text, first);
    FeedTwo(text, first, [LF]);
  }

  // ----- encode then decode -----

  /** How a line ends on the wire. */
  function Ending(crlf: bool): seq<byte> { if crlf then [CR, LF] else [LF] }

  /** A line that ends in CRLF carries what the text before the CR is read as, however that ends; one
      that ends in LF alone, with no CR before it, what all of its text is read as. */
  lemma LineCarries(text: JsonText, content: seq<byte>, crlf: bool)
    requires crlf || content == [] || content[|content| - 1] != CR
    ensures LineMessage(text, content + if crlf then [CR] else []) == CarriedBy(text, content)
  {
    assert content + [] == content;
    assert (content + [CR])[..|content|] == content;
  }

  /** So one call of `decode` returns the message of such a line, or goes on with what follows it; a
      line over the limit is refused and consumed. */
  lemma DecodesLine(text: JsonText, content: seq<byte>, crlf: bool, rest: seq<byte>)
    requires LF !in content && (crlf || content == [] || content[|content| - 1] != CR)
    ensures DecodeStep(text, content + Ending(crlf) + rest)
         == if |content| > MAX_LINE_SIZE then (TooLong, rest)
            else match CarriedBy(text, content)
                 case Some(m) => (Ready(m), rest)
                 case None => DecodeStep(text, rest)
  {
    var line := content + if crlf then [CR] else [];
    var buf := content + Ending(crlf) + rest;
    LineCarries(text, content, crlf);
    assert buf == line + [LF] + rest;
    assert buf[..|line|] == line && buf[|line| + 1..] == rest;
    FirstLfIs(buf, |line|);
    assert Trimmed(line) == content;
  }

  /** A line of the stream: an encoded message, or something that is none. */
  datatype Item = Encoded(message: JsonRpcMessage, crlf: bool) | Noise(content: seq<byte>, crlf: bool)

  function ContentOf(text: JsonText, item: Item): seq<byte> {
    match item
    case Encoded(m, _) => text.render(ToJson(m))
    case Noise(content, _) => content
  }

  /** The raw line, without its LF. */
  function LineOf(text: JsonText, item: Item): seq<byte> {
    ContentOf(text, item) + if item.crlf then [CR] else []
  }

  function StreamOf(text: JsonText, items: seq<Item>): seq<byte> {
    if items == [] then [] else ContentOf(text, items[0]) + Ending(items[0].crlf) + StreamOf(text, items[1..])
  }

  function Sent(items: seq<Item>): seq<JsonRpcMessage> {
    if items == [] then []
    else (if items[0].Encoded? then [items[0].message] else []) + Sent(items[1..])
  }

  /** What is assumed of the JSON library for one message: its text is parsed back to the same
      value, is one non-empty line, and does not end in CR. (JSON escapes line breaks inside
      strings, section 7 of RFC 8259.) */
  ghost predicate PrintsWell(text: JsonText, m: JsonRpcMessage) {
    var line := text.render(ToJson(m));
    && text.parse(line) == Some(ToJson(m))
    && line != [] && LF !in line && line[|line| - 1] != CR
  }

  /** An encoded message without null payloads, or text that carries no message; within the limit. A
      CR at the end of a line counts as part of its ending. */
  ghost predicate Sendable(text: JsonText, item: Item) {
    && |LineOf(text, item)| <= MAX_LINE_SIZE
    && match item
       case Encoded(m, _) => PrintsWell(text, m) && NoNullPayload(m)
       case Noise(content, crlf) =>
         && LF !in content && CarriedBy(text, content).None?
         && (crlf || content == [] || content[|content| - 1] != CR)
  }

  /** A line put in front of a stream is read before everything else. */
  lemma PrependLine(text: JsonText, line: seq<byte>, rest: seq<byte>)
    requires LF !in line && |line| <= MAX_LINE_SIZE && Fits(rest)
    ensures var stream := line + [LF] + rest;
            && Fits(stream) && Tail(stream) == Tail(rest)
            && MessagesOf(text, Lines(stream))
               == (if LineMessage(text, line).Some? then [LineMessage(text, line).value] else [])
                + MessagesOf(text, Lines(rest))
  {
    LineFirst(line, rest);
    assert ([line] + Lines(rest))[1..] == Lines(rest);
    assert forall l :: l in [line] + Lines(rest) <==> l == line || l in Lines(rest);
  }

  lemma StreamCons(text: JsonText, items: seq<Item>)
    requires items != []
    ensures StreamOf(text, items) == LineOf(text, items[0]) + [LF] + StreamOf(text, items[1..])
  {
    assert Ending(items[0].crlf) == (if items[0].crlf then [CR] else []) + [LF];
  }

  lemma {:induction false} StreamLines(text: JsonText, items: seq<Item>)
    requires forall i :: 0 <= i < |items| ==> Sendable(text, items[i])
    ensures Fits(StreamOf(text, items)) && Tail(StreamOf(text, items)) == []
    ensures MessagesOf(text, Lines(StreamOf(text, items))) == Sent(items)
  {
    if items != [] {
      StreamLines(text, items[1..]);
      ItemLine(text, items[0]);
      StreamCons(text, items);
      PrependLine(text, LineOf(text, items[0]), StreamOf(text, items[1..]));
    }
  }

  lemma ItemLine(text: JsonText, item: Item)
    requires Sendable(text, item)
    ensures LF !in LineOf(text, item)
    ensures LineMessage(text, LineOf(text, item)) == if item.Encoded? then Some(item.message) else None
  {
    LineCarries(text, ContentOf(text, item), item.crlf);
    if item.Encoded? { MessageRoundTrip(item.message); }
  }

  /** Encoded messages, mixed with any noise, each line ended by LF or CRLF, and cut into any chunks,
      are read back exactly, in order, and nothing stays in the buffer. */
  lemma EncodeDecodeRoundTrip(text: JsonText, items: seq<Item>, chunks: seq<seq<byte>>)
    requires forall i :: 0 <= i < |items| ==> Sendable(text, items[i])
    requires Joined(chunks) == StreamOf(text, items)
    ensures FeedAll(text, chunks) == Reader(Sent(items), [], false)
  {
    StreamLines(text, items);
    ChunkIndependence(text, chunks);
  }
}
