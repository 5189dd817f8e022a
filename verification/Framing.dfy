/** Messages on a TCP stream: how a message is framed (common/message_interface.cpp) and how the
    receiver cuts frames out of whatever chunks the network hands it (common/tcpsession.cpp). */
module Framing {
  import opened Collections
  import opened Words
  import opened Crc32

  const HEAD := 10
  const MAX := MAX_MESSAGE_LEN

  /** What the server hands on: the payload and whether the sender marked it as base64. */
  datatype Message = Message(body: seq<byte>, base64: bool)

  // -------------------------------------------------------------------------------------------
  // One frame: length (4 bytes), mask (2), checksum (4), body
  // -------------------------------------------------------------------------------------------

  const BASE64_MASK: byte := 4

  /** `makeMessage` without compression; a body of one byte gets no header. */
  function MakeFrame(m: Message): (frame: seq<byte>)
    requires |m.body| + HEAD < 0x1_0000_0000
    ensures |frame| == |m.body| + HEAD
  {
    var head :=
      if |m.body| > 1 then
        PutU32(|m.body| + HEAD) + [if m.base64 then BASE64_MASK else 0, 0] + EncodeWord(Crc(0, m.body))
      else seq(HEAD, _ => 0);
    head + m.body
  }

  /** `uncompress` of a whole frame: rejected unless the checksum of the body is the one in the header. */
  function OpenFrame(frame: seq<byte>): (m: Option<Message>)
    requires |frame| >= HEAD
  {
    if DecodeWord(frame[6..10]) == Crc(0, frame[10..])
    then Some(Message(frame[10..], frame[4] & BASE64_MASK != 0))
    else None
  }

  function LengthField(data: seq<byte>): u32
    requires |data| >= HEAD
  {
    GetU32(data[..4])
  }

  predicate LegalLength(len: nat) { HEAD <= len <= MAX }

  lemma MaskBit(base64: bool)
    ensures ((if base64 then BASE64_MASK else 0) & BASE64_MASK != 0) == base64
  {
  }

  /** A frame of two or more bytes of payload opens to what was framed. */
  lemma OpenMadeFrame(m: Message)
    requires 2 <= |m.body| && |m.body| + HEAD < 0x1_0000_0000
    ensures LengthField(MakeFrame(m)) == |MakeFrame(m)| && OpenFrame(MakeFrame(m)) == Some(m)
  {
    hide PutU32, GetU32, EncodeWord, DecodeWord, Crc;
    var frame := MakeFrame(m);
    GetPutU32(|m.body| + HEAD);
    DecodeEncodeWord(Crc(0, m.body));
    MaskBit(m.base64);
    assert frame[..4] == PutU32(|m.body| + HEAD);
    assert frame[6..10] == EncodeWord(Crc(0, m.body));
    assert frame[10..] == m.body;
  }

  lemma SampleLength()
    ensures PutU32(19) == [19, 0, 0, 0]
  {
    hide ByteOf, PutU32;
    SmallBytes();
    PutSmall(19);
  }

  lemma SampleChecksum()
    ensures EncodeWord(0xcbf43926) == [0x26, 0x39, 0xf4, 0xcb]
  {
  }

  /** The frame of the digits 1 to 9: length 19, mask 4 for base64, checksum 0xcbf43926. */
  lemma SampleFrame()
    ensures var body := [0x31, 0x32, 0x33, 0x34, 0x35, 0x36, 0x37, 0x38, 0x39];
      MakeFrame(Message(body, true)) == [19, 0, 0, 0, 4, 0, 0x26, 0x39, 0xf4, 0xcb] + body
  {
    SampleLength();
    SampleChecksum();
    CheckValue();
    hide PutU32, EncodeWord, Crc;
  }

  lemma ZeroLength()
    ensures GetU32(seq(4, _ => 0)) == 0
  {
    ByteOfValue(0);
  }

  /** A message survives framing exactly when its payload has at least two and at most MAX - HEAD bytes:
      a shorter one is sent under a header of zeros, a longer one under a length the receiver refuses. */
  lemma DeliverableIff(m: Message)
    requires 1 <= |m.body| && |m.body| + HEAD < 0x1_0000_0000
    ensures (LengthField(MakeFrame(m)) == |MakeFrame(m)| && LegalLength(|MakeFrame(m)|) && OpenFrame(MakeFrame(m)) == Some(m))
       <==> 2 <= |m.body| <= MAX - HEAD
    ensures !(2 <= |m.body| <= MAX - HEAD) ==> !LegalLength(LengthField(MakeFrame(m)))
  {
    hide GetU32, OpenFrame;
    if |m.body| >= 2 {
      OpenMadeFrame(m);
    } else {
      assert MakeFrame(m)[..4] == seq(4, _ => 0);
      ZeroLength();
    }
  }

  /** Damage to at most four consecutive bytes of a body is always noticed. */
  lemma DamagedBodyRejected(m: Message, before: seq<byte>, x: seq<byte>, y: seq<byte>, after: seq<byte>)
    requires 2 <= |m.body| && |m.body| + HEAD < 0x1_0000_0000
    requires m.body == before + x + after && |x| == |y| <= 4 && x != y
    ensures OpenFrame(MakeFrame(m)[..HEAD] + before + y + after) == None
  {
    hide PutU32, EncodeWord, DecodeWord, Crc;
    var head := MakeFrame(m)[..HEAD];
    var damaged := head + before + y + after;
    DecodeEncodeWord(Crc(0, m.body));
    assert damaged[6..10] == head[6..10] == EncodeWord(Crc(0, m.body));
    assert damaged[10..] == before + y + after;
    BurstChangesCrc(0, before, x, y, after);
  }

  // -------------------------------------------------------------------------------------------
  // The greedy parse of a byte stream
  // -------------------------------------------------------------------------------------------

  /** Reading: more bytes are awaited. Illegal: a length field out of range, the peer is banned.
      Rejected: a frame that does not open, the session is closed. */
  datatype Outcome = Reading | Illegal | Rejected

  datatype Parsed = Parsed(messages: seq<Message>, outcome: Outcome, rest: seq<byte>)

  function Parse(data: seq<byte>): (p: Parsed)
    ensures p.outcome == Reading ==> |p.rest| < MAX
    decreases |data|
  {
    if |data| < HEAD then Parsed([], Reading, data)
    else
      var len := LengthField(data);
      if !LegalLength(len) then Parsed([], Illegal, data)
      else if |data| < len then Parsed([], Reading, data)
      else
        var m := OpenFrame(data[..len]);
        if m == None then Parsed([], Rejected, data)
        else
          var more := Parse(data[len..]);
          Parsed([m.value] + more.messages, more.outcome, more.rest)
  }

  /** One step of the parse, case by case. */
  lemma ParseStep(data: seq<byte>)
    ensures |data| < HEAD ==> Parse(data) == Parsed([], Reading, data)
    ensures |data| >= HEAD && !LegalLength(LengthField(data)) ==> Parse(data) == Parsed([], Illegal, data)
    ensures |data| >= HEAD && LegalLength(LengthField(data)) && |data| < LengthField(data) ==>
            Parse(data) == Parsed([], Reading, data)
    ensures |data| >= HEAD && LegalLength(LengthField(data)) && |data| >= LengthField(data) ==>
            var len := LengthField(data);
            var more := Parse(data[len..]);
            Parse(data) == match OpenFrame(data[..len])
              case None => Parsed([], Rejected, data)
              case Some(m) => Parsed([m] + more.messages, more.outcome, more.rest)
  {
    hide LengthField, OpenFrame;
  }

  /** `whole` is what was parsed as `p` with more bytes after it; `rest` parses what `p` left and those bytes. */
  ghost predicate Appended(p: Parsed, whole: Parsed, rest: Parsed) {
    if p.outcome == Reading
    then whole == Parsed(p.messages + rest.messages, rest.outcome, rest.rest)
    else whole.messages == p.messages && whole.outcome == p.outcome
  }

  /** What has been parsed of `a` stands, whatever arrives after it. */
  lemma {:induction false} ParseMore(a: seq<byte>, b: seq<byte>)
    ensures Appended(Parse(a), Parse(a + b), Parse(Parse(a).rest + b))
    decreases |a|
  {
    hide LengthField, OpenFrame, Parse;
    ParseStep(a);
    if |a| >= HEAD {
      var len := LengthField(a);
      SameLength(a, b);
      ParseStep(a + b);
      if LegalLength(len) && |a| >= len {
        assert (a + b)[..len] == a[..len] && (a + b)[len..] == a[len..] + b;
        ParseMore(a[len..], b);
      }
    }
  }

  lemma SameLength(a: seq<byte>, b: seq<byte>)
    requires |a| >= HEAD
    ensures LengthField(a + b) == LengthField(a)
  {
    assert (a + b)[..4] == a[..4];
  }

  /** What comes before a point of the stream is delivered first, in the same order. */
  lemma ParsePrefix(a: seq<byte>, b: seq<byte>)
    ensures Parse(a).messages <= Parse(a + b).messages
  {
    ParseMore(a, b);
  }

  // -------------------------------------------------------------------------------------------
  // The receiver
  // -------------------------------------------------------------------------------------------

  class Receiver {
    var buffer: array<byte>
    var pos: nat
    /** The messages pushed to the server so far. */
    var delivered: seq<Message>
    /** Whether a read is outstanding, and if not, why. */
    var outcome: Outcome
    /** Every byte read so far. */
    ghost var stream: seq<byte>

    ghost predicate Valid()
      reads this, buffer
    {
      && buffer.Length == 2 * MAX
      && delivered == Parse(stream).messages
      && outcome == Parse(stream).outcome
      && (outcome == Reading ==> pos < MAX && buffer[..pos] == Parse(stream).rest)
    }

    constructor ()
      ensures Valid() && fresh(buffer) && stream == [] && outcome == Reading
    {
      buffer := new byte[2 * MAX];
      pos := 0;
      delivered, outcome, stream := [], Reading, [];
    }

    /** The loop of `handle_read_some`: pushes every complete frame of the buffered bytes `data` and
        says where the first incomplete one begins. */
    method DeliverFrames(ghost data: seq<byte>) returns (nowPos: nat)
      requires pos <= buffer.Length && buffer[..pos] == data && outcome == Reading
      modifies this`delivered, this`outcome
      ensures delivered == old(delivered) + Parse(data).messages && outcome == Parse(data).outcome
      ensures outcome == Reading ==> nowPos <= pos && data[nowPos..] == Parse(data).rest
    {
      hide LengthField, OpenFrame, Parse;
      nowPos := 0;
      ghost var got: seq<Message> := [];
      assert data[0..] == data;
      if pos >= HEAD {
        var len := LengthField(buffer[..pos]);
        if !LegalLength(len) {
          ParseStep(data);
          outcome := Illegal;
          return;
        }
        while pos - nowPos >= len
          invariant nowPos + HEAD <= pos && len == LengthField(data[nowPos..]) && LegalLength(len)
          invariant outcome == Reading && delivered == old(delivered) + got
          invariant Continues(Parse(data), got, Parse(data[nowPos..]))
        {
          assert buffer[nowPos..nowPos + len] == data[nowPos..][..len];
          var m := OpenFrame(buffer[nowPos..nowPos + len]);
          ParseStep(data[nowPos..]);
          if m == None {
            outcome := Rejected;
            return;
          }
          assert data[nowPos..][len..] == data[nowPos + len..];
          delivered := delivered + [m.value];
          got := got + [m.value];
          nowPos := nowPos + len;
          if pos - nowPos >= HEAD {
            assert buffer[nowPos..pos] == data[nowPos..];
            len := LengthField(buffer[nowPos..pos]);
            if !LegalLength(len) {
              ParseStep(data[nowPos..]);
              outcome := Illegal;
              return;
            }
          } else {
            break;
          }
        }
      }
      ParseStep(data[nowPos..]);
    }

    /** `handle_read_some` without error: append to the buffer, deliver, move what is left to the front. */
    method HandleRead(chunk: seq<byte>)
      requires Valid() && outcome == Reading && |chunk| <= MAX
      modifies this, buffer
      ensures Valid() && buffer == old(buffer) && stream == old(stream) + chunk
    {
      hide LengthField, OpenFrame, Parse;
      ghost var data := buffer[..pos] + chunk;
      ParseMore(stream, chunk);
      stream := stream + chunk;
      forall k | 0 <= k < |chunk| {
        buffer[pos + k] := chunk[k];
      }
      pos := pos + |chunk|;
      assert buffer[..pos] == data;
      var nowPos := DeliverFrames(data);
      if outcome != Reading {
        return;
      }
      if nowPos > 0 && pos > nowPos {
        forall k | 0 <= k < pos - nowPos {
          buffer[k] := buffer[nowPos + k];
        }
      }
      pos := pos - nowPos;
      assert buffer[..pos] == data[nowPos..];
      ParseMore(old(stream), chunk);
    }
  }

  /** Parsing gave `got`, and `more` is what parsing the remaining bytes gives. */
  ghost predicate Continues(whole: Parsed, got: seq<Message>, more: Parsed) {
    whole == Parsed(got + more.messages, more.outcome, more.rest)
  }

  /** However the network cuts the stream, the messages delivered are the greedy parse of the stream;
      bytes that arrive after the session stopped reading do not matter. */
  method Receive(chunks: seq<seq<byte>>) returns (delivered: seq<Message>, outcome: Outcome)
    requires forall k :: 0 <= k < |chunks| ==> |chunks[k]| <= MAX
    ensures delivered == Parse(Flatten(chunks)).messages && outcome == Parse(Flatten(chunks)).outcome
  {
    hide Parse;
    var session := new Receiver();
    var k := 0;
    while k < |chunks| && session.outcome == Reading
      invariant 0 <= k <= |chunks|
      invariant session.Valid() && fresh(session) && fresh(session.buffer)
      invariant session.stream == Flatten(chunks[..k])
    {
      session.HandleRead(chunks[k]);
      FlattenLast(chunks, k);
      k := k + 1;
    }
    assert chunks == chunks[..k] + chunks[k..];
    FlattenConcat(chunks[..k], chunks[k..]);
    ParseMore(session.stream, Flatten(chunks[k..]));
    delivered, outcome := session.delivered, session.outcome;
    if k == |chunks| {
      assert chunks[k..] == [] && session.stream + [] == session.stream;
    }
  }
}
