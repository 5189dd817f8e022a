/** The send side of a session (common/tcpsession.cpp): senders on any thread queue messages, one
    asynchronous write at a time drains the queue. A state machine over the atomic sections, the
    class that carries them out, and what holds over every interleaving. */
module SendPipeline {
  import opened Words

  const MAX := MAX_MESSAGE_LEN
  const QUEUE_LIMIT := MAX * 30

  datatype Send = Send(
    /** The session's own fields. */
    queue: seq<seq<byte>>,
    notSent: int,
    sending: bool,
    connected: bool,
    /** Writes handed to the socket and not completed yet. */
    inflight: seq<seq<byte>>,
    /** Senders that have queued a message and not posted `_write_message` yet; calls of it that are
        posted; completions that have cleared the flag and not accounted for their size yet. */
    queued: nat,
    posted: nat,
    completed: seq<nat>,
    /** A sender found the queue over the limit and asked for the session to be closed. */
    overLimit: bool,
    /** History: every message queued, every message written, every byte handed to the socket. */
    accepted: seq<seq<byte>>,
    written: seq<seq<byte>>,
    wire: seq<byte>)

  const START := Send([], 0, false, true, [], 0, 0, [], false, [], [], [])

  // -------------------------------------------------------------------------------------------
  // The atomic sections
  // -------------------------------------------------------------------------------------------

  /** How many messages at the front of `q` still fit after `len` bytes. */
  function BatchSize(q: seq<seq<byte>>, len: nat): (n: nat)
    ensures n <= |q|
  {
    if q != [] && len + |q[0]| <= MAX then 1 + BatchSize(q[1..], len + |q[0]|) else 0
  }

  /** The locked part of `_send_message`. */
  function Queue(s: Send, m: seq<byte>, limited: bool): Send {
    var s1 := s.(queue := s.queue + [m], notSent := s.notSent + |m|, accepted := s.accepted + [m]);
    if limited && s1.notSent >= QUEUE_LIMIT then s1.(overLimit := true) else s1.(queued := s1.queued + 1)
  }

  /** `_write_message`. */
  function Write(s: Send, size: nat): Send {
    var s1 := s.(notSent := s.notSent - size);
    if !s1.connected || s1.sending || s1.queue == [] then s1
    else
      var n := BatchSize(s1.queue, 0);
      var data := Flatten(s1.queue[..n]);
      s1.(queue := s1.queue[n..], sending := true, inflight := s1.inflight + [data],
          written := s1.written + s1.queue[..n], wire := s1.wire + data)
  }

  /** `_on_close`: the queue is thrown away, the counter and the flag are left as they are. */
  function OnClose(s: Send): Send {
    s.(queue := [], connected := false)
  }

  datatype Step =
    | Accept(m: seq<byte>, limited: bool)
    | Post
    | RunPosted
    | Complete(k: nat)
    | Account(k: nat)
    | FailWrite(k: nat)
    | HandleClose
    | ReadError

  predicate Enabled(s: Send, step: Step) {
    match step
    case Accept(m, _) => 1 <= |m|
    case Post => s.queued > 0
    case RunPosted => s.posted > 0
    case Complete(k) => k < |s.inflight|
    case Account(k) => k < |s.completed|
    case FailWrite(k) => k < |s.inflight|
    case HandleClose => true
    case ReadError => true
  }

  function Remove<T>(q: seq<T>, k: nat): seq<T>
    requires k < |q|
  {
    q[..k] + q[k + 1..]
  }

  function Next(s: Send, step: Step): Send
    requires Enabled(s, step)
  {
    match step
    case Accept(m, limited) => Queue(s, m, limited)
    case Post => s.(queued := s.queued - 1, posted := s.posted + 1)
    case RunPosted => Write(s.(posted := s.posted - 1), 0)
    // the two critical sections of `handle_write`, between which any other step may come
    case Complete(k) =>
      s.(inflight := Remove(s.inflight, k), sending := false, completed := s.completed + [|s.inflight[k]|])
    case Account(k) => Write(s.(completed := Remove(s.completed, k)), s.completed[k])
    case FailWrite(k) => OnClose(s.(inflight := Remove(s.inflight, k)))
    case HandleClose => s.(connected := false)
    case ReadError => OnClose(s)
  }

  ghost predicate Run(states: seq<Send>, steps: seq<Step>) {
    && |states| == |steps| + 1
    && states[0] == START
    && forall i :: 0 <= i < |steps| ==> Enabled(states[i], steps[i]) && states[i + 1] == Next(states[i], steps[i])
  }

  // -------------------------------------------------------------------------------------------
  // What every step keeps
  // -------------------------------------------------------------------------------------------

  function Total(sizes: seq<nat>): nat {
    if sizes == [] then 0 else sizes[0] + Total(sizes[1..])
  }

  predicate NoneEmpty(q: seq<seq<byte>>) {
    forall i :: 0 <= i < |q| ==> 1 <= |q[i]|
  }

  ghost predicate Inv(s: Send) {
    && NoneEmpty(s.queue)
    && s.wire == Flatten(s.written)
    && s.written <= s.accepted
    && |s.inflight| <= 1
    && (forall i :: 0 <= i < |s.inflight| ==> |s.inflight[i]| <= MAX)
    && (s.connected ==>
          && s.accepted == s.written + s.queue
          && s.sending == (s.inflight != [])
          && s.notSent == |Flatten(s.queue)| + |Flatten(s.inflight)| + Total(s.completed)
          && (s.queue != [] && !s.overLimit ==> s.sending || s.queued > 0 || s.posted > 0 || s.completed != []))
    && (s.inflight != [] ==> s.sending)
  }

  lemma {:induction false} TotalConcat(a: seq<nat>, b: seq<nat>)
    ensures Total(a + b) == Total(a) + Total(b)
  {
    if a == [] {
      assert a + b == b;
    } else {
      assert (a + b)[1..] == a[1..] + b;
      TotalConcat(a[1..], b);
    }
  }

  lemma TotalOne(n: nat)
    ensures Total([n]) == n
  {
  }

  lemma {:induction false} TotalRemove(a: seq<nat>, k: nat)
    requires k < |a|
    ensures Total(Remove(a, k)) == Total(a) - a[k]
  {
    if k == 0 {
      assert Remove(a, k) == a[1..];
    } else {
      TotalRemove(a[1..], k - 1);
      var r := Remove(a, k);
      assert r[0] == a[0] && r[1..] == Remove(a[1..], k - 1);
    }
  }

  /** A batch never exceeds the buffer, and is not empty if the first message fits. */
  lemma {:induction false} BatchFits(q: seq<seq<byte>>, len: nat)
    requires len <= MAX
    ensures var n := BatchSize(q, len);
            && len + |Flatten(q[..n])| <= MAX
            && (n < |q| ==> len + |Flatten(q[..n])| + |q[n]| > MAX)
    decreases |q|
  {
    if q != [] && len + |q[0]| <= MAX {
      var n := BatchSize(q[1..], len + |q[0]|);
      BatchFits(q[1..], len + |q[0]|);
      assert q[..n + 1][0] == q[0] && q[..n + 1][1..] == q[1..][..n];
    }
  }

  /** The lists of messages, and their bytes, when `n` of them are taken off the queue. */
  lemma BatchTaken(s: Send, n: nat)
    requires n <= |s.queue| && NoneEmpty(s.queue) && s.wire == Flatten(s.written) && s.accepted == s.written + s.queue
    ensures NoneEmpty(s.queue[n..]) && s.wire + Flatten(s.queue[..n]) == Flatten(s.written + s.queue[..n])
    ensures s.accepted == (s.written + s.queue[..n]) + s.queue[n..]
    ensures |Flatten(s.queue)| == |Flatten(s.queue[..n])| + |Flatten(s.queue[n..])|
  {
    hide Flatten;
    assert s.queue == s.queue[..n] + s.queue[n..];
    FlattenConcat(s.queue[..n], s.queue[n..]);
    FlattenConcat(s.written, s.queue[..n]);
  }

  lemma WriteKeepsInv(s: Send, size: nat)
    requires NoneEmpty(s.queue) && s.wire == Flatten(s.written) && s.written <= s.accepted
    requires |s.inflight| <= 1 && (s.inflight != [] ==> s.sending)
    requires forall i :: 0 <= i < |s.inflight| ==> |s.inflight[i]| <= MAX
    requires s.connected ==>
               && s.accepted == s.written + s.queue
               && s.sending == (s.inflight != [])
               && s.notSent == |Flatten(s.queue)| + |Flatten(s.inflight)| + Total(s.completed) + size
    ensures Inv(Write(s, size))
  {
    hide Total, Flatten, BatchSize, NoneEmpty;
    if s.connected && !s.sending && s.queue != [] {
      var n := BatchSize(s.queue, 0);
      var data := Flatten(s.queue[..n]);
      BatchFits(s.queue, 0);
      BatchTaken(s, n);
      FlattenOne(data);
      assert s.inflight == [] && s.inflight + [data] == [data];
    }
  }

  lemma NothingFilled(q: seq<seq<byte>>)
    ensures Flatten(q[..0]) == []
  {
  }

  lemma AcceptKeepsInv(s: Send, m: seq<byte>, limited: bool)
    requires Inv(s) && 1 <= |m|
    ensures Inv(Queue(s, m, limited))
  {
    hide Total;
    FlattenConcat(s.queue, [m]);
    FlattenOne(m);
    hide Flatten;
    assert s.written + (s.queue + [m]) == (s.written + s.queue) + [m];
  }

  lemma CompleteKeepsInv(s: Send, k: nat)
    requires Inv(s) && k < |s.inflight|
    ensures Inv(Next(s, Complete(k)))
  {
    TotalConcat(s.completed, [|s.inflight[k]|]);
    TotalOne(|s.inflight[k]|);
    assert s.inflight == [s.inflight[0]];
    FlattenOne(s.inflight[0]);
    assert Remove(s.inflight, k) == [];
    hide Total, Flatten;
  }

  lemma StepKeepsInv(s: Send, step: Step)
    requires Inv(s) && Enabled(s, step)
    ensures Inv(Next(s, step))
  {
    hide Write, Queue, Total, Flatten, NoneEmpty;
    match step
    case Accept(m, limited) => AcceptKeepsInv(s, m, limited);
    case RunPosted => WriteKeepsInv(s.(posted := s.posted - 1), 0);
    case Complete(k) => CompleteKeepsInv(s, k);
    case Account(k) =>
      TotalRemove(s.completed, k);
      WriteKeepsInv(s.(completed := Remove(s.completed, k)), s.completed[k]);
    case FailWrite(k) =>
      assert Remove(s.inflight, k) == [];
      assert NoneEmpty([]) by { NoMessages(); }
    case ReadError => assert NoneEmpty([]) by { NoMessages(); }
    case _ =>
  }

  lemma NoMessages()
    ensures NoneEmpty([])
  {
  }

  lemma StartInv()
    ensures Inv(START)
  {
  }

  /** Over every interleaving: at most one write is outstanding, of at most MAX bytes; the bytes handed to
      the socket are the messages in the order in which they were queued, none twice and none skipped;
      the counter is what is queued, outstanding or completed but not accounted for. */
  lemma {:induction false} EveryRunKeepsInv(states: seq<Send>, steps: seq<Step>)
    requires Run(states, steps)
    ensures forall i :: 0 <= i < |states| ==> Inv(states[i])
  {
    hide Inv, Next, Enabled;
    StartInv();
    for i := 0 to |steps|
      invariant forall j :: 0 <= j <= i ==> Inv(states[j])
    {
      StepKeepsInv(states[i], steps[i]);
    }
  }

  /** Connected, within the limit, and nothing pending on any thread. */
  predicate AtRest(s: Send) {
    s.connected && !s.overLimit && s.queued == s.posted == 0 && s.completed == [] && s.inflight == []
  }

  lemma WireIsPrefix(s: Send)
    requires Inv(s)
    ensures s.wire <= Flatten(s.accepted)
  {
    hide Flatten, NoneEmpty, Total;
    assert s.accepted == s.written + s.accepted[|s.written|..];
    FlattenConcat(s.written, s.accepted[|s.written|..]);
  }

  /** When a connected session has come to rest, everything queued has been handed to the socket. */
  lemma AtRestEverythingIsSent(states: seq<Send>, steps: seq<Step>)
    requires Run(states, steps)
    ensures var s := states[|steps|];
            AtRest(s) ==> s.queue == [] && s.wire == Flatten(s.accepted) && s.notSent == 0
  {
    EveryRunKeepsInv(states, steps);
    var s := states[|steps|];
    assert Inv(s);
    assert s.written + [] == s.written;
  }

  /** A sender closes the session exactly when the limit is on and the bytes queued, outstanding, and written but
      not accounted for, with the new message, are thirty times the longest message or more. */
  lemma LimitIsHitIff(s: Send, m: seq<byte>, limited: bool)
    requires Inv(s) && s.connected && !s.overLimit
    ensures Queue(s, m, limited).overLimit <==>
      limited && |Flatten(s.queue)| + |Flatten(s.inflight)| + Total(s.completed) + |m| >= 1_950_000
    ensures Queue(s, m, limited).queued == s.queued + if Queue(s, m, limited).overLimit then 0 else 1
  {
    hide Flatten, Total;
  }

  lemma StepAfterClose(s: Send, step: Step)
    requires Enabled(s, step) && (!s.connected || step.FailWrite? || step.HandleClose? || step.ReadError?)
    ensures !Next(s, step).connected && Next(s, step).wire == s.wire && Next(s, step).written == s.written
  {
    hide BatchSize, Flatten;
  }

  /** In every run: once a write has failed, a read has failed, or the session has been closed, nothing more is
      handed to the socket. */
  lemma ClosedSendsNothing(states: seq<Send>, steps: seq<Step>, i: nat, j: nat)
    requires Run(states, steps) && i < j < |states|
    requires steps[i].FailWrite? || steps[i].HandleClose? || steps[i].ReadError?
    ensures !states[j].connected && states[j].wire == states[i].wire && states[j].written == states[i].written
  {
    hide Next, Enabled;
    StepAfterClose(states[i], steps[i]);
    for k := i + 1 to j
      invariant !states[k].connected && states[k].wire == states[i].wire && states[k].written == states[i].written
    {
      StepAfterClose(states[k], steps[k]);
    }
  }

  /** With the limit switched off no session is ever over it. */
  lemma {:induction false} UnlimitedNeverOverLimit(states: seq<Send>, steps: seq<Step>)
    requires Run(states, steps)
    requires forall i :: 0 <= i < |steps| && steps[i].Accept? ==> !steps[i].limited
    ensures forall i :: 0 <= i < |states| ==> !states[i].overLimit
  {
    for i := 0 to |steps|
      invariant forall j :: 0 <= j <= i ==> !states[j].overLimit
    {
      assert states[i + 1] == Next(states[i], steps[i]);
      hide BatchSize, Flatten;
    }
  }

  /** A write takes nothing off the queue exactly when the message at its head is larger than the buffer. */
  lemma NothingWrittenIff(s: Send, size: nat)
    requires s.connected && !s.sending && s.queue != []
    ensures Write(s, size).queue == s.queue <==> |s.queue[0]| > MAX
  {
  }

  /** Every message written fits the buffer. */
  ghost predicate WrittenFit(s: Send) {
    forall i :: 0 <= i < |s.written| ==> |s.written[i]| <= MAX
  }

  lemma {:induction false} BatchElementsFit(q: seq<seq<byte>>, len: nat)
    ensures forall i :: 0 <= i < BatchSize(q, len) ==> |q[i]| <= MAX
  {
    if q != [] && len + |q[0]| <= MAX {
      BatchElementsFit(q[1..], len + |q[0]|);
      assert forall i :: 0 < i < |q| ==> q[i] == q[1..][i - 1];
    }
  }

  lemma StepKeepsWrittenFit(s: Send, step: Step)
    requires WrittenFit(s) && Enabled(s, step)
    ensures WrittenFit(Next(s, step))
  {
    hide Flatten, BatchSize;
    BatchElementsFit(s.queue, 0);
  }

  lemma {:induction false} EveryRunWritesFit(states: seq<Send>, steps: seq<Step>)
    requires Run(states, steps)
    ensures forall i :: 0 <= i < |states| ==> WrittenFit(states[i])
  {
    hide Next, Enabled, WrittenFit;
    assert WrittenFit(START) by { NothingWritten(); }
    for i := 0 to |steps|
      invariant forall j :: 0 <= j <= i ==> WrittenFit(states[j])
    {
      StepKeepsWrittenFit(states[i], steps[i]);
    }
  }

  lemma NothingWritten()
    ensures WrittenFit(START)
  {
  }

  lemma AcceptedGrows(s: Send, step: Step)
    requires Enabled(s, step)
    ensures s.accepted <= Next(s, step).accepted
  {
    hide Flatten, BatchSize;
  }

  lemma {:induction false} AcceptedStays(states: seq<Send>, steps: seq<Step>, i: nat, j: nat)
    requires Run(states, steps) && i <= j < |states|
    ensures states[i].accepted <= states[j].accepted
  {
    hide Next, Enabled;
    for m := i to j
      invariant states[i].accepted <= states[m].accepted
    {
      AcceptedGrows(states[m], steps[m]);
    }
  }

  /** In every run: once a message longer than the buffer has been queued, neither it nor any message queued
      after it is ever handed to the socket. `send_message` lets messages through that are up to nine bytes
      too long with their header. */
  lemma OversizedMessageBlocks(states: seq<Send>, steps: seq<Step>, i: nat, j: nat, k: nat)
    requires Run(states, steps) && i <= j < |states|
    requires k < |states[i].accepted| && |states[i].accepted[k]| > MAX
    ensures |states[j].written| <= k
    ensures states[j].wire <= Flatten(states[i].accepted[..k])
  {
    hide Inv, WrittenFit, Next, Enabled, Flatten;
    EveryRunKeepsInv(states, steps);
    EveryRunWritesFit(states, steps);
    AcceptedStays(states, steps, i, j);
    WrittenBefore(states[i].accepted, states[j], k);
  }

  lemma WrittenBefore(accepted: seq<seq<byte>>, s: Send, k: nat)
    requires Inv(s) && WrittenFit(s) && accepted <= s.accepted && k < |accepted| && |accepted[k]| > MAX
    ensures |s.written| <= k && s.wire <= Flatten(accepted[..k])
  {
    hide Flatten;
    assert s.accepted[k] == accepted[k];
    assert forall i :: 0 <= i < |s.written| ==> s.written[i] == s.accepted[i];
    var n := |s.written|;
    assert s.written == s.accepted[..n] == accepted[..n];
    assert accepted[..k] == accepted[..n] + accepted[n..k];
    FlattenConcat(accepted[..n], accepted[n..k]);
  }

  /** Such a message, of 65001 bytes, followed by one of a single byte: however the run goes on, not a byte is
      ever handed to the socket. */
  lemma OversizedRun(big: seq<byte>, small: seq<byte>)
    requires |big| == MAX + 1 && |small| == 1
    ensures
      var s1 := Next(START, Accept(big, false));
      var s2 := Next(s1, Accept(small, false));
      Run([START, s1, s2], [Accept(big, false), Accept(small, false)]) && s2.accepted == [big, small] &&
      forall states: seq<Send>, steps: seq<Step> :: Run(states, steps) && [START, s1, s2] <= states ==>
        forall j :: 2 <= j < |states| ==> states[j].wire == []
  {
    hide Flatten;
    var s1 := Next(START, Accept(big, false));
    var s2 := Next(s1, Accept(small, false));
    assert s2.accepted == [big, small];
    forall states: seq<Send>, steps: seq<Step> | Run(states, steps) && [START, s1, s2] <= states
      ensures forall j :: 2 <= j < |states| ==> states[j].wire == []
    {
      NothingGetsPast(states, steps, s2, big);
    }
  }

  lemma NothingGetsPast(states: seq<Send>, steps: seq<Step>, blocked: Send, big: seq<byte>)
    requires Run(states, steps) && |states| >= 3 && states[2] == blocked
    requires blocked.accepted != [] && blocked.accepted[0] == big && |big| > MAX
    ensures forall j :: 2 <= j < |states| ==> states[j].wire == []
  {
    hide Run, Flatten;
    forall j | 2 <= j < |states|
      ensures states[j].wire == []
    {
      OversizedMessageBlocks(states, steps, 2, j, 0);
      assert Flatten(blocked.accepted[..0]) == [] by { FlattenNone(blocked.accepted[..0]); }
    }
  }

  lemma FlattenNone(parts: seq<seq<byte>>)
    requires parts == []
    ensures Flatten(parts) == []
  {
  }

  // -------------------------------------------------------------------------------------------
  // The session
  // -------------------------------------------------------------------------------------------

  class Session {
    var queue: seq<seq<byte>>
    var notSent: int
    var sending: bool
    var connected: bool
    /** m_sending_data: the bytes of the outstanding write. */
    var sendingData: array<byte>
    /** The io_service: the writes handed to the socket, the calls of `_write_message` posted to it. */
    var inflight: seq<seq<byte>>
    var posted: nat
    var overLimit: bool
    /** Threads between two critical sections: senders that are about to post, completions that are about
        to account for what was sent. */
    ghost var queued: nat
    ghost var completed: seq<nat>
    ghost var accepted: seq<seq<byte>>
    ghost var written: seq<seq<byte>>
    ghost var wire: seq<byte>

    ghost predicate Valid()
      reads this
    {
      sendingData.Length == MAX
    }

    ghost function State(): Send
      reads this
    {
      Send(queue, notSent, sending, connected, inflight, queued, posted, completed, overLimit, accepted, written, wire)
    }

    constructor ()
      ensures Valid() && State() == START && fresh(sendingData)
    {
      queue, notSent, sending, connected := [], 0, false, true;
      sendingData := new byte[MAX];
      inflight, posted, overLimit := [], 0, false;
      queued, completed := 0, [];
      accepted, written, wire := [], [], [];
    }

    /** The critical section of `_send_message`; false if the limit was hit. */
    method QueueMessage(m: seq<byte>, limited: bool) returns (ok: bool)
      requires Valid()
      modifies this`queue, this`notSent, this`accepted, this`overLimit, this`queued
      ensures State() == Queue(old(State()), m, limited) && ok == (queued == old(queued) + 1)
    {
      queue := queue + [m];
      notSent := notSent + |m|;
      accepted := accepted + [m];
      if limited && notSent >= QUEUE_LIMIT {
        overLimit := true;
        return false;
      }
      queued := queued + 1;
      return true;
    }

    /** The call of `_write_message` is posted after the lock is released. */
    method PostWrite()
      requires Valid() && queued > 0
      modifies this`queued, this`posted
      ensures State() == Next(old(State()), Post)
    {
      queued := queued - 1;
      posted := posted + 1;
    }

    method SendMessage(m: seq<byte>, limited: bool)
      requires Valid()
      modifies this
      ensures Valid() && sendingData == old(sendingData)
      ensures !old(connected) ==> State() == old(State())
      ensures old(connected) ==>
                var s := Queue(old(State()), m, limited);
                State() == if s.queued > old(queued) then Next(s, Post) else s
    {
      if !connected {
        return;
      }
      var ok := QueueMessage(m, limited);
      if ok {
        PostWrite();
      }
    }

    method WriteMessage(sentSize: nat)
      requires Valid()
      modifies this`queue, this`notSent, this`sending, this`inflight, this`written, this`wire, sendingData
      ensures Valid()
      ensures State() == Write(old(State()), sentSize)
      ensures |inflight| > |old(inflight)| ==>
                var data := inflight[|inflight| - 1];
                |data| <= MAX && sendingData[..|data|] == data
    {
      notSent := notSent - sentSize;
      if !connected || sending || queue == [] {
        return;
      }
      StartWrite();
    }

    /** What `_write_message` does when nothing keeps it from writing. */
    method StartWrite()
      requires Valid()
      modifies this`queue, this`sending, this`inflight, this`written, this`wire, sendingData
      ensures Valid() && sending
      ensures var q := old(queue);
              var n := BatchSize(q, 0);
              var data := Flatten(q[..n]);
              queue == q[n..] && inflight == old(inflight) + [data] && written == old(written) + q[..n] && wire == old(wire) + data
      ensures var data := inflight[|inflight| - 1];
              |data| <= MAX && sendingData[..|data|] == data
    {
      hide Flatten, BatchSize;
      ghost var n, q := BatchSize(queue, 0), queue;
      var len := FillBuffer();
      var data := sendingData[..len];
      inflight := inflight + [data];
      sending := true;
      written := written + q[..n];
      wire := wire + data;
    }

    /** The loop of `_write_message`: moves messages into the buffer while they fit. */
    method FillBuffer() returns (len: nat)
      requires Valid()
      modifies this`queue, sendingData
      ensures Valid() && len <= MAX
      ensures var n := BatchSize(old(queue), 0);
              queue == old(queue)[n..] && sendingData[..len] == Flatten(old(queue)[..n])
    {
      hide Flatten;
      len := 0;
      ghost var n, q := 0, queue;
      NothingFilled(q);
      while queue != []
        invariant sendingData.Length == MAX && len <= MAX
        invariant n <= |q| && queue == q[n..]
        invariant sendingData[..len] == Flatten(q[..n])
        invariant BatchSize(q, 0) == n + BatchSize(queue, len)
      {
        var m := queue[0];
        if len + |m| <= MAX {
          forall k | 0 <= k < |m| {
            sendingData[len + k] := m[k];
          }
          FlattenLast(q, n);
          assert sendingData[..len + |m|] == Flatten(q[..n]) + m;
          assert queue[1..] == q[n + 1..];
          len := len + |m|;
          queue := queue[1..];
          n := n + 1;
        } else {
          break;
        }
      }
    }

    /** A posted call of `_write_message`. */
    method RunPosted()
      requires Valid() && posted > 0
      modifies this, sendingData
      ensures Valid() && sendingData == old(sendingData)
      ensures State() == Next(old(State()), Step.RunPosted)
    {
      posted := posted - 1;
      WriteMessage(0);
    }

    /** The first critical section of `handle_write`, without error: write `k` has completed. */
    method ClearSending(k: nat) returns (size: nat)
      requires Valid() && k < |inflight|
      modifies this`inflight, this`sending, this`completed
      ensures State() == Next(old(State()), Complete(k)) && size == |old(inflight[k])|
    {
      size := |inflight[k]|;
      completed := completed + [size];
      inflight := inflight[..k] + inflight[k + 1..];
      sending := false;
    }

    /** The second one: the size is accounted for, and the next write begins. */
    method AccountFor(ghost k: nat, size: nat)
      requires Valid() && k < |completed| && completed[k] == size
      modifies this, sendingData
      ensures Valid() && sendingData == old(sendingData)
      ensures State() == Next(old(State()), Account(k))
    {
      completed := Remove(completed, k);
      WriteMessage(size);
    }

    /** `handle_write` when no other thread comes between the two. */
    method HandleWrite(k: nat)
      requires Valid() && k < |inflight|
      modifies this, sendingData
      ensures Valid() && sendingData == old(sendingData)
      ensures State() == Next(Next(old(State()), Complete(k)), Account(|old(completed)|))
    {
      var size := ClearSending(k);
      AccountFor(|completed| - 1, size);
    }
  }
}
