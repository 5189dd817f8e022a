/** From one server to the next: what senders queue on one session is what the receiver of the other
    end delivers, whatever the threads and the network do in between. */
module EndToEnd {
  import opened Words
  import opened Framing
  import SendPipeline

  predicate Deliverable(ms: seq<Message>) {
    forall i :: 0 <= i < |ms| ==> 2 <= |ms[i].body| <= MAX - HEAD
  }

  function Frames(ms: seq<Message>): (frames: seq<seq<byte>>)
    requires Deliverable(ms)
    ensures |frames| == |ms|
  {
    if ms == [] then [] else [MakeFrame(ms[0])] + Frames(ms[1..])
  }

  /** The greedy parse of framed messages gives the messages back and leaves nothing. */
  lemma {:induction false} ParseFrames(ms: seq<Message>)
    requires Deliverable(ms)
    ensures Parse(Flatten(Frames(ms))) == Parsed(ms, Reading, [])
  {
    hide LengthField, OpenFrame, MakeFrame, Parse;
    var data := Flatten(Frames(ms));
    ParseStep(data);
    if ms != [] {
      var frame := MakeFrame(ms[0]);
      var later := Flatten(Frames(ms[1..]));
      assert data == frame + later;
      assert data[..|frame|] == frame && data[|frame|..] == later;
      OpenMadeFrame(ms[0]);
      SameLength(frame, later);
      ParseFrames(ms[1..]);
      assert ms == [ms[0]] + ms[1..];
    }
  }

  /** A beginning of the framed messages never ends the session and delivers a beginning of the messages. */
  lemma ParseFramesPrefix(ms: seq<Message>, received: seq<byte>)
    requires Deliverable(ms) && received <= Flatten(Frames(ms))
    ensures Parse(received).messages <= ms && Parse(received).outcome == Reading
  {
    hide Parse;
    var all := Flatten(Frames(ms));
    assert all == received + all[|received|..];
    ParseMore(received, all[|received|..]);
    ParseFrames(ms);
  }

  /** Every interleaving, every chunking: the messages delivered are the messages queued, in order and
      without loss, as far as their bytes have arrived; all of them once the sender is at rest. */
  lemma Delivery(states: seq<SendPipeline.Send>, steps: seq<SendPipeline.Step>, ms: seq<Message>, received: seq<byte>)
    requires SendPipeline.Run(states, steps)
    requires Deliverable(ms) && states[|steps|].accepted == Frames(ms)
    requires received <= states[|steps|].wire
    ensures Parse(received).messages <= ms && Parse(received).outcome == Reading
    ensures SendPipeline.AtRest(states[|steps|]) && received == states[|steps|].wire ==> Parse(received).messages == ms
  {
    var s := states[|steps|];
    hide Parse, SendPipeline.Inv;
    SendPipeline.EveryRunKeepsInv(states, steps);
    SendPipeline.AtRestEverythingIsSent(states, steps);
    SendPipeline.WireIsPrefix(s);
    ParseFramesPrefix(ms, received);
    ParseFrames(ms);
  }

  /** A message that does not survive framing, after any number that do: those are delivered, and the session
      ends with an illegal length, whatever follows. */
  lemma UndeliverableEndsStream(ms: seq<Message>, m: Message, more: seq<byte>)
    requires Deliverable(ms) && 1 <= |m.body| && |m.body| + HEAD < 0x1_0000_0000 && !(2 <= |m.body| <= MAX - HEAD)
    ensures var p := Parse(Flatten(Frames(ms)) + (MakeFrame(m) + more));
      p.messages == ms && p.outcome == Illegal
  {
    hide Parse, MakeFrame, LengthField, OpenFrame;
    var frame := MakeFrame(m);
    ParseFrames(ms);
    ParseMore(Flatten(Frames(ms)), frame + more);
    assert [] + (frame + more) == frame + more;
    DeliverableIff(m);
    SameLength(frame, more);
    ParseStep(frame + more);
  }

  /** A message damaged in at most four consecutive bytes of its body, after any number that are not: those are
      delivered, and the session ends, whatever follows. */
  lemma DamageEndsStream(ms: seq<Message>, m: Message, before: seq<byte>, x: seq<byte>, y: seq<byte>, after: seq<byte>, more: seq<byte>)
    requires Deliverable(ms) && 2 <= |m.body| <= MAX - HEAD && m.body == before + x + after && |x| == |y| <= 4 && x != y
    ensures var p := Parse(Flatten(Frames(ms)) + (MakeFrame(m)[..HEAD] + before + y + after + more));
      p.messages == ms && p.outcome == Rejected
  {
    hide Parse, MakeFrame, LengthField, OpenFrame;
    var frame := MakeFrame(m);
    var bad := frame[..HEAD] + before + y + after;
    ParseFrames(ms);
    ParseMore(Flatten(Frames(ms)), bad + more);
    assert [] + (bad + more) == bad + more;
    OpenMadeFrame(m);
    DamagedBodyRejected(m, before, x, y, after);
    HeadDecides(frame, bad);
    SameLength(bad, more);
    ParseStep(bad + more);
    assert (bad + more)[..|bad|] == bad;
  }

  lemma HeadDecides(a: seq<byte>, b: seq<byte>)
    requires |a| >= HEAD && |b| >= HEAD && a[..HEAD] == b[..HEAD]
    ensures LengthField(a) == LengthField(b)
  {
    assert a[..4] == a[..HEAD][..4] && b[..4] == b[..HEAD][..4];
  }
}
