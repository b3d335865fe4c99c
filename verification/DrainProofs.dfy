/**
 What the chardev drain relay keeps in every reachable state: streams without
 gaps or stale chunks, a reader no client can stall, and every chunk accounted
 for.
 */
module DrainProofs {
  import opened Common
  import opened Drain

  // ---- The invariant ----

  ghost predicate SentOk(h: Hub, t: Session) {
    forall x :: x in t.sent ==> x.count <= |x.chunk.data| && x.conn == x.chunk.epoch && x.conn <= h.epoch
  }

  // While the accept loop flushes, nothing yet carries the new epoch.
  predicate EpochOk(h: Hub, c: Chunk, flushing: bool) {
    c.epoch <= h.epoch && (flushing ==> c.epoch < h.epoch)
  }

  ghost predicate EpochsOk(h: Hub, t: Session, flushing: bool) {
    && (forall c :: c in t.stamped ==> EpochOk(h, c, flushing))
    && (forall c :: c in t.queue ==> EpochOk(h, c, flushing))
    && (t.writer.Holding? || t.writer.Writing? ==> EpochOk(h, t.writer.chunk, flushing))
    && (t.reader.Stamped? || t.reader.Overflowed? || t.reader.Clearing? ==> EpochOk(h, t.reader.chunk, flushing))
  }

  // The chunk epoch e can still reach its connection.
  ghost predicate Live(h: Hub, t: Session, e: nat) {
    h.client == Some(e) && t.writer != WriteFailed(e)
  }

  ghost predicate StreamsOk(h: Hub, t: Session) {
    && (forall e: nat :: Delivered(t.sent, e) <= Stream(t.stamped, e))
    && (t.writer.Writing? ==>
          var e := t.writer.chunk.epoch;
          t.writer.conn == e && Delivered(t.sent, e) + t.writer.chunk.data <= Stream(t.stamped, e))
    && (forall e: nat :: Live(h, t, e) ==> For(t.stamped, e) == To(t.sent, e) + Flight(t, e))
    && (forall x :: x in t.sent && x.count < |x.chunk.data| ==> !Live(h, t, x.conn))
  }

  ghost predicate ReaderOk(h: Hub, t: Session) {
    t.reader.Clearing? ==>
      t.reader.conn <= h.epoch && (t.reader.conn == t.reader.chunk.epoch || t.reader.chunk.epoch < h.epoch)
  }

  ghost predicate BoundsOk(h: Hub, t: Session, flushing: bool) {
    && (h.client.Some? ==> h.client.value == h.epoch)
    && |t.queue| <= QUEUE_DEPTH
    && SentOk(h, t)
    && EpochsOk(h, t, flushing)
    && ReaderOk(h, t)
  }

  ghost predicate SessionInv(h: Hub, t: Session, flushing: bool) {
    BoundsOk(h, t, flushing) && StreamsOk(h, t)
  }

  ghost predicate Inv(s: Relay) {
    && (s.hub.client.Some? ==> s.hub.client.value == s.hub.epoch)
    && (s.hub.toClient.Some? ==> s.hub.toClient.value < |s.sessions|)
    && forall i :: 0 <= i < |s.sessions| ==> SessionInv(s.hub, s.sessions[i], s.acceptor.Flushing?)
  }

  // ---- Streams ----

  lemma StreamSnoc(cs: seq<Chunk>, c: Chunk, e: nat)
    ensures Stream(cs + [c], e) == Stream(cs, e) + Piece(c, e)
  {
    assert (cs + [c])[..|cs + [c]| - 1] == cs;
  }

  lemma DeliveredSnoc(sent: seq<Sent>, x: Sent, c: nat)
    ensures Delivered(sent + [x], c) == Delivered(sent, c) + Arrived(x, c)
  {
    assert (sent + [x])[..|sent + [x]| - 1] == sent;
  }

  // ---- Streams as chunks ----

  lemma ForSnoc(cs: seq<Chunk>, c: Chunk, e: nat)
    ensures For(cs + [c], e) == For(cs, e) + Single(c, e)
  {
    assert (cs + [c])[..|cs + [c]| - 1] == cs;
  }

  lemma {:induction false} ForHead(cs: seq<Chunk>, e: nat)
    requires cs != []
    ensures For(cs, e) == Single(cs[0], e) + For(cs[1..], e)
  {
    var n := |cs| - 1;
    if n > 0 {
      ForHead(cs[..n], e);
      assert cs[..n][1..] == cs[1..][..n - 1];
      Associates(Single(cs[0], e), For(cs[1..][..n - 1], e), Single(cs[n], e));
    }
  }

  lemma {:induction false} ForNone(cs: seq<Chunk>, e: nat)
    requires forall c :: c in cs ==> c.epoch != e
    ensures For(cs, e) == []
  {
    if cs != [] {
      ForNone(cs[..|cs| - 1], e);
    }
  }

  lemma ToSnoc(sent: seq<Sent>, x: Sent, c: nat)
    ensures To(sent + [x], c) == To(sent, c) + if x.conn == c then [x.chunk] else []
  {
    assert (sent + [x])[..|sent + [x]| - 1] == sent;
  }

  lemma {:induction false} ToNone(sent: seq<Sent>, c: nat)
    requires forall x :: x in sent ==> x.conn != c
    ensures To(sent, c) == []
  {
    if sent != [] {
      ToNone(sent[..|sent| - 1], c);
    }
  }

  function Data(cs: seq<Chunk>): Bytes {
    if cs == [] then [] else Data(cs[..|cs| - 1]) + cs[|cs| - 1].data
  }

  lemma {:induction false} DataConcat(a: seq<Chunk>, b: seq<Chunk>)
    ensures Data(a + b) == Data(a) + Data(b)
  {
    if b == [] {
      assert a + b == a;
    } else {
      var n := |b| - 1;
      assert (a + b)[..|a + b| - 1] == a + b[..n];
      DataConcat(a, b[..n]);
      Associates(Data(a), Data(b[..n]), b[n].data);
    }
  }

  lemma DataSingle(c: Chunk, e: nat)
    ensures Data(Single(c, e)) == Piece(c, e) && Data([c]) == c.data
  {
    assert [c][..0] == [] && [] + c.data == c.data;
  }

  lemma {:induction false} StreamIsData(cs: seq<Chunk>, e: nat)
    ensures Stream(cs, e) == Data(For(cs, e))
  {
    if cs != [] {
      var n := |cs| - 1;
      StreamIsData(cs[..n], e);
      DataConcat(For(cs[..n], e), Single(cs[n], e));
      DataSingle(cs[n], e);
    }
  }

  lemma {:induction false} DeliveredIsData(sent: seq<Sent>, c: nat)
    requires forall x :: x in sent && x.conn == c ==> x.count == |x.chunk.data|
    ensures Delivered(sent, c) == Data(To(sent, c))
  {
    if sent != [] {
      var n := |sent| - 1;
      DeliveredIsData(sent[..n], c);
      assert sent[n] in sent;
      DataConcat(To(sent[..n], c), if sent[n].conn == c then [sent[n].chunk] else []);
      DataSingle(sent[n].chunk, c);
    }
  }

  lemma InFlightIsData(t: Session, e: nat)
    ensures InFlight(t, e) == Data(Flight(t, e))
  {
    if t.writer.Holding? || t.writer.Writing? {
      DataSingle(t.writer.chunk, e);
    }
    if t.reader.Stamped? || t.reader.Overflowed? || t.reader.Clearing? {
      DataSingle(t.reader.chunk, e);
    }
    StreamIsData(t.queue, e);
    DataConcat(For(t.queue, e), Unanswered(t.reader, e));
    DataConcat(Held(t.writer, e), For(t.queue, e) + Unanswered(t.reader, e));
  }

  // What has not arrived of the attached client's stream is on its way.
  lemma LiveStream(h: Hub, t: Session, e: nat)
    requires StreamsOk(h, t) && SentOk(h, t) && Live(h, t, e)
    ensures Stream(t.stamped, e) == Delivered(t.sent, e) + InFlight(t, e)
  {
    StreamIsData(t.stamped, e);
    DeliveredIsData(t.sent, e);
    InFlightIsData(t, e);
    DataConcat(To(t.sent, e), Flight(t, e));
  }

  // ---- Each action keeps the session's streams ----

  // Moving chunks along the pipeline, or away from every live stream.
  lemma StreamsStay(h: Hub, t: Session, h': Hub, t': Session)
    requires StreamsOk(h, t)
    requires t'.sent == t.sent && t'.stamped == t.stamped && (t'.writer.Writing? ==> t'.writer == t.writer)
    requires forall e: nat :: Live(h', t', e) ==> Live(h, t, e) && Flight(t', e) == Flight(t, e)
    ensures StreamsOk(h', t')
  {
  }

  lemma StampStreams(h: Hub, t: Session)
    requires StreamsOk(h, t) && t.reader.HasData?
    ensures StreamsOk(h, ActSession(h, t, Stamp))
  {
    var t' := ActSession(h, t, Stamp);
    var chunk := t'.reader.chunk;
    forall e: nat
      ensures Stream(t.stamped, e) <= Stream(t'.stamped, e)
      ensures Delivered(t.sent, e) <= Stream(t'.stamped, e)
    {
      StreamSnoc(t.stamped, chunk, e);
      PrefixOfSum(Stream(t.stamped, e), Piece(chunk, e));
      PrefixTrans(Delivered(t.sent, e), Stream(t.stamped, e), Stream(t'.stamped, e));
    }
    if t.writer.Writing? {
      var e := t.writer.chunk.epoch;
      PrefixTrans(Delivered(t.sent, e) + t.writer.chunk.data, Stream(t.stamped, e), Stream(t'.stamped, e));
    }
    assert forall e: nat :: Live(h, t', e) ==> Live(h, t, e);
    forall e: nat | Live(h, t', e) ensures For(t'.stamped, e) == To(t'.sent, e) + Flight(t', e) {
      assert Live(h, t, e);
      ForSnoc(t.stamped, chunk, e);
      FlightSnoc(t, t', chunk, e);
      Associates(To(t.sent, e), Flight(t, e), Single(chunk, e));
    }
  }

  lemma FlightSnoc(t: Session, t': Session, chunk: Chunk, e: nat)
    requires t.reader.HasData? && t'.reader == Stamped(chunk) && t'.writer == t.writer && t'.queue == t.queue
    ensures Flight(t', e) == Flight(t, e) + Single(chunk, e)
  {
    Associates(Held(t.writer, e), For(t.queue, e), Single(chunk, e));
  }

  // An accepted chunk moves along; a refused one stays behind the queue.
  lemma EnqueueStreams(h: Hub, t: Session)
    requires StreamsOk(h, t) && t.reader.Stamped?
    ensures StreamsOk(h, ActSession(h, t, Enqueue))
  {
    var t' := ActSession(h, t, Enqueue);
    forall e: nat ensures Flight(t', e) == Flight(t, e) {
      ForSnoc(t.queue, t.reader.chunk, e);
    }
    assert forall e: nat :: Live(h, t', e) ==> Live(h, t, e);
    StreamsStay(h, t, h, t');
  }

  lemma TakeStreams(h: Hub, t: Session)
    requires StreamsOk(h, t) && t.writer.Waiting? && t.queue != []
    ensures StreamsOk(h, ActSession(h, t, Take))
  {
    var t' := ActSession(h, t, Take);
    forall e: nat ensures Flight(t', e) == Flight(t, e) {
      ForHead(t.queue, e);
      Associates(Single(t.queue[0], e), For(t'.queue, e), Unanswered(t.reader, e));
    }
    assert forall e: nat :: Live(h, t', e) ==> Live(h, t, e);
    StreamsStay(h, t, h, t');
  }

  // The reader gives up a refused chunk only when that chunk's connection is
  // no longer the client.
  lemma OverflowStreams(h: Hub, t: Session, a: Action)
    requires StreamsOk(h, t) && BoundsOk(h, t, false) && Ready(h, t, a)
    requires a.OverflowGetClient? || a.OverflowClear?
    ensures StreamsOk(ActHub(h, t, a), ActSession(h, t, a))
  {
    var h', t' := ActHub(h, t, a), ActSession(h, t, a);
    forall e: nat | Live(h', t', e) ensures Live(h, t, e) && Flight(t', e) == Flight(t, e) {
      assert Unanswered(t'.reader, e) == Unanswered(t.reader, e);
    }
    StreamsStay(h, t, h', t');
  }

  // A chunk that is dropped carries another epoch than the client's.
  lemma SnapshotDropStreams(h: Hub, t: Session)
    requires StreamsOk(h, t) && BoundsOk(h, t, false) && t.writer.Holding?
    requires t.writer.chunk.epoch != h.epoch || h.client.None?
    ensures StreamsOk(h, ActSession(h, t, Snapshot))
  {
    var t' := ActSession(h, t, Snapshot);
    forall e: nat | Live(h, t', e) ensures Live(h, t, e) && Flight(t', e) == Flight(t, e) {
      assert Held(t'.writer, e) == [] == Held(t.writer, e);
    }
    StreamsStay(h, t, h, t');
  }

  // A chunk whose epoch is the attached client's is next in that stream.
  lemma SnapshotPassStreams(h: Hub, t: Session)
    requires StreamsOk(h, t) && BoundsOk(h, t, false) && t.writer.Holding?
    requires t.writer.chunk.epoch == h.epoch && h.client.Some?
    ensures StreamsOk(h, ActSession(h, t, Snapshot))
  {
    var t' := ActSession(h, t, Snapshot);
    var e := h.epoch;
    var rest := Stream(t.queue, e) + ReaderBytes(t.reader, e);
    assert Live(h, t, e);
    LiveStream(h, t, e);
    Associates(Delivered(t.sent, e), t.writer.chunk.data, rest);
    PrefixOfSum(Delivered(t.sent, e) + t.writer.chunk.data, rest);
    forall e: nat | Live(h, t', e) ensures Live(h, t, e) && Flight(t', e) == Flight(t, e) {
      assert Held(t'.writer, e) == Held(t.writer, e);
    }
  }

  // The bytes a write delivers, whole or cut short, keep every prefix.
  lemma WritePrefix(t: Session, x: Sent, e: nat)
    requires t.writer.Writing? && x.chunk == t.writer.chunk && x.conn == t.writer.conn == x.chunk.epoch
    requires x.count <= |x.chunk.data|
    requires Delivered(t.sent, e) <= Stream(t.stamped, e)
    requires Delivered(t.sent, x.conn) + x.chunk.data <= Stream(t.stamped, x.conn)
    ensures Delivered(t.sent + [x], e) <= Stream(t.stamped, e)
  {
    DeliveredSnoc(t.sent, x, e);
    if e == x.conn {
      PrefixCut(Delivered(t.sent, e), x.chunk.data, x.count, Stream(t.stamped, e));
    }
  }

  // What a write that is over has taken from the pipeline is with the written.
  lemma WriteMoves(t: Session, x: Sent, t': Session, e: nat)
    requires t.writer.Writing? && x.chunk == t.writer.chunk && x.conn == x.chunk.epoch && t'.sent == t.sent + [x]
    requires t'.queue == t.queue && t'.reader == t.reader && (t'.writer.Waiting? || t'.writer.WriteFailed?)
    ensures To(t'.sent, e) + Flight(t', e) == To(t.sent, e) + Flight(t, e)
  {
    ToSnoc(t.sent, x, e);
    Associates(To(t.sent, e), Single(x.chunk, e), Flight(t', e));
  }

  lemma WriteStreams(h: Hub, t: Session, x: Sent, t': Session)
    requires StreamsOk(h, t) && t.writer.Writing?
    requires x.chunk == t.writer.chunk && x.conn == t.writer.conn && x.count <= |x.chunk.data|
    requires t'.sent == t.sent + [x] && t'.stamped == t.stamped && t'.queue == t.queue && t'.reader == t.reader
    requires t'.writer == if x.count == |x.chunk.data| then Waiting else WriteFailed(x.conn)
    ensures StreamsOk(h, t')
  {
    forall e: nat ensures Delivered(t'.sent, e) <= Stream(t'.stamped, e) {
      WritePrefix(t, x, e);
    }
    assert forall e: nat :: Live(h, t', e) ==> Live(h, t, e);
    forall e: nat | Live(h, t', e) ensures For(t'.stamped, e) == To(t'.sent, e) + Flight(t', e) {
      assert Live(h, t, e);
      WriteMoves(t, x, t', e);
    }
  }

  // Actions that take nothing from a live stream.
  lemma QuietStreams(h: Hub, t: Session, a: Action)
    requires StreamsOk(h, t) && Ready(h, t, a)
    requires a.ReadData? || a.ReadError? || a.OverflowClose? || a.ClearFailed? || a.CloseFailed? || a.StopWriter?
    ensures StreamsOk(ActHub(h, t, a), ActSession(h, t, a))
  {
    var h', t' := ActHub(h, t, a), ActSession(h, t, a);
    forall e: nat | Live(h', t', e) ensures Live(h, t, e) && Flight(t', e) == Flight(t, e) {
      assert Held(t'.writer, e) == Held(t.writer, e) && Unanswered(t'.reader, e) == Unanswered(t.reader, e);
    }
    StreamsStay(h, t, h', t');
  }

  lemma ActStreams(h: Hub, t: Session, a: Action)
    requires StreamsOk(h, t) && Ready(h, t, a) && (NeedsMutex(a) ==> BoundsOk(h, t, false))
    ensures StreamsOk(ActHub(h, t, a), ActSession(h, t, a))
  {
    match a
    case Stamp => StampStreams(h, t);
    case Enqueue => EnqueueStreams(h, t);
    case OverflowGetClient => OverflowStreams(h, t, a);
    case OverflowClear => OverflowStreams(h, t, a);
    case Take => TakeStreams(h, t);
    case Snapshot =>
      if t.writer.chunk.epoch != h.epoch || h.client.None? {
        SnapshotDropStreams(h, t);
      } else {
        SnapshotPassStreams(h, t);
      }
    case WriteOk => WriteStreams(h, t, Sent(t.writer.conn, t.writer.chunk, |t.writer.chunk.data|), ActSession(h, t, a));
    case WriteError(n) => WriteStreams(h, t, Sent(t.writer.conn, t.writer.chunk, n), ActSession(h, t, a));
    case _ => QuietStreams(h, t, a);
  }

  lemma ActEpochs(h: Hub, t: Session, a: Action, flushing: bool)
    requires EpochsOk(h, t, flushing) && Ready(h, t, a) && (NeedsMutex(a) ==> !flushing)
    ensures EpochsOk(h, ActSession(h, t, a), flushing)
  {
    if a.Take? {
      assert t.queue[0] in t.queue;
    }
  }

  lemma ActSent(h: Hub, t: Session, a: Action)
    requires SentOk(h, t) && Ready(h, t, a)
    requires t.writer.Writing? ==> t.writer.conn == t.writer.chunk.epoch <= h.epoch
    ensures SentOk(h, ActSession(h, t, a))
  {
  }

  lemma ActBounds(h: Hub, t: Session, a: Action, flushing: bool)
    requires BoundsOk(h, t, flushing) && Ready(h, t, a) && (NeedsMutex(a) ==> !flushing)
    requires t.writer.Writing? ==> t.writer.conn == t.writer.chunk.epoch
    ensures BoundsOk(ActHub(h, t, a), ActSession(h, t, a), flushing)
  {
    var h', t' := ActHub(h, t, a), ActSession(h, t, a);
    ActEpochs(h, t, a, flushing);
    ActSent(h, t, a);
    assert h'.epoch == h.epoch;
    assert SentOk(h', t') && EpochsOk(h', t', flushing);
  }

  lemma ActKeeps(h: Hub, t: Session, a: Action, flushing: bool)
    requires SessionInv(h, t, flushing) && Ready(h, t, a) && (NeedsMutex(a) ==> !flushing)
    ensures SessionInv(ActHub(h, t, a), ActSession(h, t, a), flushing)
  {
    ActBounds(h, t, a, flushing);
    ActStreams(h, t, a);
  }

  // ---- Hub changes seen by a session that did not act ----

  // The client left, a connection was closed, or the flush is over.
  lemma BystanderKeeps(h: Hub, h': Hub, t: Session, flushing: bool)
    requires SessionInv(h, t, flushing)
    requires h'.epoch == h.epoch && (h'.client == h.client || h'.client.None?)
    ensures SessionInv(h', t, flushing) && SessionInv(h', t, false)
  {
    assert forall e: nat :: Live(h', t, e) ==> Live(h, t, e);
    StreamsStay(h, t, h', t);
  }

  // A swap: no session has a chunk of the new epoch yet.
  lemma InstallKeeps(h: Hub, t: Session)
    requires SessionInv(h, t, false)
    ensures SessionInv(Installed(h), t, true)
  {
    var e := h.epoch + 1;
    ForNone(t.stamped, e);
    ForNone(t.queue, e);
    ToNone(t.sent, e);
  }

  lemma FlushOneKeeps(h: Hub, t: Session)
    requires SessionInv(h, t, true) && t.queue != []
    ensures SessionInv(h, t.(queue := t.queue[1..], discarded := t.discarded + [t.queue[0]]), true)
  {
    var t' := t.(queue := t.queue[1..], discarded := t.discarded + [t.queue[0]]);
    assert t.queue[0] in t.queue;
    forall e: nat | Live(h, t', e) ensures Live(h, t, e) && Flight(t', e) == Flight(t, e) {
      ForHead(t.queue, e);
    }
    StreamsStay(h, t, h, t');
  }

  lemma ActStepKeeps(s: Relay, j: nat, a: Action, i: nat)
    requires Inv(s) && Enabled(s, Act(j, a)) && i < |s.sessions|
    ensures SessionInv(Next(s, Act(j, a)).hub, Next(s, Act(j, a)).sessions[i], s.acceptor.Flushing?)
  {
    var flushing := s.acceptor.Flushing?;
    if i == j {
      ActKeeps(s.hub, s.sessions[i], a, flushing);
    } else {
      BystanderKeeps(s.hub, ActHub(s.hub, s.sessions[j], a), s.sessions[i], flushing);
    }
  }

  // The steps of the accept loop, the pumps and drainChardev.
  lemma OtherStepKeeps(s: Relay, step: Step, i: nat)
    requires Inv(s) && Enabled(s, step) && !step.Act? && i < |s.sessions|
    ensures SessionInv(Next(s, step).hub, Next(s, step).sessions[i], Next(s, step).acceptor.Flushing?)
  {
    var t := s.sessions[i];
    if step.Install? {
      InstallKeeps(s.hub, t);
    } else if step.FlushOne? && i == s.hub.toClient.value {
      FlushOneKeeps(s.hub, t);
    } else {
      BystanderKeeps(s.hub, Next(s, step).hub, t, s.acceptor.Flushing?);
    }
  }

  lemma NextKeeps(s: Relay, step: Step)
    requires Inv(s) && Enabled(s, step)
    ensures Inv(Next(s, step))
  {
    var s' := Next(s, step);
    forall i | 0 <= i < |s'.sessions|
      ensures SessionInv(s'.hub, s'.sessions[i], s'.acceptor.Flushing?)
    {
      if i < |s.sessions| {
        if step.Act? {
          ActStepKeeps(s, step.session, step.action, i);
        } else {
          OtherStepKeeps(s, step, i);
        }
      }
    }
  }

  lemma {:induction false} ExecutionKeeps(states: seq<Relay>, steps: seq<Step>)
    requires Execution(states, steps)
    ensures forall s :: s in states ==> Inv(s)
  {
    if steps == [] {
      assert states == [INIT];
    } else {
      var n := |steps| - 1;
      ExecutionKeeps(states[..n + 1], steps[..n]);
      assert states[n] in states[..n + 1];
      NextKeeps(states[n], steps[n]);
      assert states == states[..n + 1] + [states[n + 1]];
    }
  }

  // ---- Main result: no gap, no reordering, no stale byte ----

  // In every reachable state, in every session, the bytes a connection received
  // are a prefix of the bytes the reader stamped with that connection's epoch,
  // and no write ever took a chunk to another connection. A write that is still
  // under way keeps the prefix.
  lemma GapFree(states: seq<Relay>, steps: seq<Step>, s: Relay, t: Session, e: nat)
    requires Execution(states, steps) && s in states && t in s.sessions
    ensures forall x :: x in t.sent ==> x.count <= |x.chunk.data| && x.conn == x.chunk.epoch
    ensures Delivered(t.sent, e) <= Stream(t.stamped, e)
    ensures t.writer.Writing? ==> t.writer.conn == t.writer.chunk.epoch
    ensures t.writer.Writing? && t.writer.conn == e ==>
              Delivered(t.sent, e) + t.writer.chunk.data <= Stream(t.stamped, e)
  {
    ExecutionKeeps(states, steps);
    var i :| 0 <= i < |s.sessions| && s.sessions[i] == t;
    assert SessionInv(s.hub, s.sessions[i], s.acceptor.Flushing?);
  }

  // While a client stays attached nothing stamped for it is lost: what it has
  // not received is exactly what the pipeline still carries.
  lemma NothingLostWhileAttached(states: seq<Relay>, steps: seq<Step>, s: Relay, t: Session)
    requires Execution(states, steps) && s in states && t in s.sessions
    requires s.hub.client.Some? && t.writer != WriteFailed(s.hub.client.value)
    ensures s.hub.client.value == s.hub.epoch
    ensures Stream(t.stamped, s.hub.epoch) == Delivered(t.sent, s.hub.epoch) + InFlight(t, s.hub.epoch)
  {
    ExecutionKeeps(states, steps);
    var i :| 0 <= i < |s.sessions| && s.sessions[i] == t;
    assert SessionInv(s.hub, s.sessions[i], s.acceptor.Flushing?);
    LiveStream(s.hub, t, s.hub.epoch);
  }

  // ---- Conservation ----

  // In how many places the model finds the chunk with serial k.
  function Places(t: Session, k: nat): nat {
    AtReader(t.reader, k) + Count(t.queue, k) + AtWriter(t.writer, k) + CountWritten(t.sent, k) + Count(t.discarded, k)
  }

  ghost predicate Conserved(t: Session) {
    && (forall k :: 0 <= k < |t.stamped| ==> t.stamped[k].serial == k)
    && (forall k: nat :: Places(t, k) == if k < |t.stamped| then 1 else 0)
  }

  lemma CountSnoc(cs: seq<Chunk>, c: Chunk, k: nat)
    ensures Count(cs + [c], k) == Count(cs, k) + One(c, k)
  {
    assert (cs + [c])[..|cs + [c]| - 1] == cs;
  }

  lemma {:induction false} CountHead(cs: seq<Chunk>, k: nat)
    requires cs != []
    ensures Count(cs, k) == One(cs[0], k) + Count(cs[1..], k)
  {
    var n := |cs| - 1;
    if n > 0 {
      CountHead(cs[..n], k);
      assert cs[..n][1..] == cs[1..][..n - 1];
    }
  }

  lemma CountWrittenSnoc(sent: seq<Sent>, x: Sent, k: nat)
    ensures CountWritten(sent + [x], k) == CountWritten(sent, k) + Whole(x, k)
  {
    assert (sent + [x])[..|sent + [x]| - 1] == sent;
  }

  // A chunk changes place, or a fresh one appears at the reader.
  lemma ActMoves(h: Hub, t: Session, a: Action, k: nat)
    requires Ready(h, t, a)
    ensures Places(ActSession(h, t, a), k) == Places(t, k) + if a.Stamp? && k == |t.stamped| then 1 else 0
  {
    match a
    case Enqueue =>
      CountSnoc(t.queue, t.reader.chunk, k);
      CountSnoc(t.discarded, t.reader.chunk, k);
    case Take => CountHead(t.queue, k);
    case Snapshot => CountSnoc(t.discarded, t.writer.chunk, k);
    case WriteOk => CountWrittenSnoc(t.sent, Sent(t.writer.conn, t.writer.chunk, |t.writer.chunk.data|), k);
    case WriteError(n) =>
      CountWrittenSnoc(t.sent, Sent(t.writer.conn, t.writer.chunk, n), k);
      CountSnoc(t.discarded, t.writer.chunk, k);
    case _ =>
  }

  lemma ActConserves(h: Hub, t: Session, a: Action)
    requires Conserved(t) && Ready(h, t, a)
    ensures Conserved(ActSession(h, t, a))
  {
    var t' := ActSession(h, t, a);
    forall k: nat ensures Places(t', k) == if k < |t'.stamped| then 1 else 0 {
      ActMoves(h, t, a, k);
    }
  }

  lemma FlushConserves(t: Session)
    requires Conserved(t) && t.queue != []
    ensures Conserved(t.(queue := t.queue[1..], discarded := t.discarded + [t.queue[0]]))
  {
    var t' := t.(queue := t.queue[1..], discarded := t.discarded + [t.queue[0]]);
    forall k: nat ensures Places(t', k) == Places(t, k) {
      CountHead(t.queue, k);
      CountSnoc(t.discarded, t.queue[0], k);
    }
  }

  lemma NextConserves(s: Relay, step: Step)
    requires Enabled(s, step) && forall t :: t in s.sessions ==> Conserved(t)
    ensures forall t :: t in Next(s, step).sessions ==> Conserved(t)
  {
    if step.Act? {
      ActConserves(s.hub, s.sessions[step.session], step.action);
    } else if step.FlushOne? {
      var t := s.sessions[s.hub.toClient.value];
      assert t in s.sessions;
      FlushConserves(t);
    } else if step.OpenSession? {
      assert Conserved(EMPTY_SESSION);
    }
  }

  lemma {:induction false} ExecutionConserves(states: seq<Relay>, steps: seq<Step>)
    requires Execution(states, steps)
    ensures forall s, t :: s in states && t in s.sessions ==> Conserved(t)
  {
    if steps == [] {
      assert states == [INIT];
    } else {
      var n := |steps| - 1;
      ExecutionConserves(states[..n + 1], steps[..n]);
      assert states[n] in states[..n + 1];
      NextConserves(states[n], steps[n]);
      assert states == states[..n + 1] + [states[n + 1]];
    }
  }

  // Every chunk the reader stamped is in exactly one place: with the reader
  // between stamping and sending, queued, held by the writer, written whole, or
  // discarded. Nothing else is anywhere, and the queue never exceeds its depth.
  lemma EveryChunkInOnePlace(states: seq<Relay>, steps: seq<Step>, s: Relay, t: Session, k: nat)
    requires Execution(states, steps) && s in states && t in s.sessions
    ensures AtReader(t.reader, k) + Count(t.queue, k) + AtWriter(t.writer, k)
            + CountWritten(t.sent, k) + Count(t.discarded, k) == if k < |t.stamped| then 1 else 0
    ensures k < |t.stamped| ==> t.stamped[k].serial == k
    ensures |t.queue| <= QUEUE_DEPTH
  {
    ExecutionConserves(states, steps);
    assert Conserved(t);
    assert Places(t, k) == if k < |t.stamped| then 1 else 0;
    ExecutionKeeps(states, steps);
    var i :| 0 <= i < |s.sessions| && s.sessions[i] == t;
    assert SessionInv(s.hub, s.sessions[i], s.acceptor.Flushing?);
  }

  // ---- The reader is never stalled by a client ----

  // The reader's only possible action where it stands.
  function ReaderAction(r: Reader): Action
    requires !r.Reading? && !r.Ended?
  {
    match r
    case HasData(_) => Stamp
    case Stamped(_) => Enqueue
    case Overflowed(_) => OverflowGetClient
    case Clearing(_, _) => OverflowClear
    case Closing(_) => OverflowClose
  }

  // How many actions are left until the reader is back at the chardev.
  function ReaderRank(r: Reader): nat {
    match r
    case HasData(_) => 5
    case Stamped(_) => 4
    case Overflowed(_) => 3
    case Clearing(_, _) => 2
    case Closing(_) => 1
    case _ => 0
  }

  // Once it has read, the reader can always take its next action, whatever the
  // client and the writer do, unless the accept loop is flushing; then the
  // flush can take its next step. No step outside the reader moves it, and each
  // of its own steps brings it nearer to the next read.
  lemma ReaderNeverStalls(states: seq<Relay>, steps: seq<Step>, s: Relay, i: nat, step: Step)
    requires Execution(states, steps) && s in states && i < |s.sessions|
    requires !s.sessions[i].reader.Reading? && !s.sessions[i].reader.Ended?
    ensures Enabled(s, Act(i, ReaderAction(s.sessions[i].reader)))
            || (s.acceptor.Flushing? && (Enabled(s, FlushOne) || Enabled(s, FlushEnd)))
    ensures Enabled(s, step) ==>
              var r := Next(s, step).sessions[i].reader;
              if step == Act(i, ReaderAction(s.sessions[i].reader))
              then ReaderRank(r) < ReaderRank(s.sessions[i].reader)
              else r == s.sessions[i].reader
  {
    ExecutionKeeps(states, steps);
  }

  // What the flush may still receive: the queue, and one chunk the reader had
  // stamped before the swap took the mutex.
  function FlushBudget(t: Session): nat {
    |t.queue| + if t.reader.Stamped? then 1 else 0
  }

  function CountFlushes(steps: seq<Step>): nat {
    if steps == [] then 0
    else CountFlushes(steps[..|steps| - 1]) + if steps[|steps| - 1].FlushOne? then 1 else 0
  }

  // For as long as setClient holds the mutex, under any interleaving, it
  // receives at most the queue it found plus one chunk.
  lemma {:induction false} FlushIsBounded(states: seq<Relay>, steps: seq<Step>, i: nat)
    requires Segment(states, steps) && states[0].hub.toClient == Some(i) && i < |states[0].sessions|
    requires forall s :: s in states ==> s.acceptor.Flushing?
    ensures states[|steps|].hub.toClient == Some(i) && i < |states[|steps|].sessions|
    ensures CountFlushes(steps) + FlushBudget(states[|steps|].sessions[i]) <= FlushBudget(states[0].sessions[i])
  {
    if steps != [] {
      var n := |steps| - 1;
      FlushIsBounded(states[..n + 1], steps[..n], i);
      assert states[n] in states && states[n + 1] in states;
      FlushStepSpends(states[n], steps[n], i);
    }
  }

  lemma FlushStepSpends(s: Relay, step: Step, i: nat)
    requires Enabled(s, step) && s.hub.toClient == Some(i) && i < |s.sessions| && s.acceptor.Flushing?
    ensures Next(s, step).hub.toClient == Some(i) && i < |Next(s, step).sessions|
    ensures FlushBudget(Next(s, step).sessions[i]) + (if step.FlushOne? then 1 else 0) <= FlushBudget(s.sessions[i])
  {
  }

  // ---- What each step does to the hub ----

  // The step is a clear that names connection c: the pump's own, the client the
  // reader found when the queue was full, or the one the writer failed to write to.
  predicate ClearsByName(s: Relay, step: Step, c: nat) {
    || step == PumpClear(c)
    || (step.Act? && step.session < |s.sessions|
        && ((step.action.OverflowClear? && s.sessions[step.session].reader.Clearing?
             && s.sessions[step.session].reader.conn == c)
            || (step.action.ClearFailed? && s.sessions[step.session].writer == WriteFailed(c))))
  }

  // The same for closing a connection; the accept loop closes the replaced one.
  predicate ClosesByName(s: Relay, step: Step, c: nat) {
    || step == PumpClose(c)
    || (step.CloseOld? && s.acceptor == ClosingOld(c))
    || (step.Act? && step.session < |s.sessions|
        && ((step.action.OverflowClose? && s.sessions[step.session].reader == Closing(c))
            || (step.action.CloseFailed? && s.sessions[step.session].writer == ClosingFailed(c))))
  }

  // In every execution an attached client stays attached until it is replaced by
  // the next one or a clear names it, and then it goes. With no client, only a
  // swap attaches one. Only a swap takes a new epoch, the next one. A connection
  // is closed when a close names it, and stays closed.
  lemma HubMovesByName(states: seq<Relay>, steps: seq<Step>, k: nat, c: nat)
    requires Execution(states, steps) && k < |steps|
    ensures var s, s', step := states[k], states[k + 1], steps[k];
            && (s.hub.client == Some(c) ==>
                  (s'.hub.client != Some(c) <==> step.Install? || ClearsByName(s, step, c)))
            && (s.hub.client == Some(c) && ClearsByName(s, step, c) ==> s'.hub.client == None)
            && (step.Install? ==> s'.hub.client == Some(s.hub.epoch + 1) && s'.hub.epoch == s.hub.epoch + 1)
            && (!step.Install? ==> s'.hub.epoch == s.hub.epoch && (s'.hub.client == s.hub.client || s'.hub.client == None))
            && (c in s'.hub.closed <==> c in s.hub.closed || ClosesByName(s, step, c))
  {
    ExecutionKeeps(states, steps);
    assert states[k] in states;
  }

  // A client that a swap replaced is closed by the time the accept loop accepts
  // again; until then the loop holds it.
  lemma {:induction false} ReplacedIsClosed(states: seq<Relay>, steps: seq<Step>, k: nat, m: nat, c: nat)
    requires Execution(states, steps) && k < m <= |steps|
    requires steps[k].Install? && states[k].hub.client == Some(c)
    ensures c in states[m].hub.closed || states[m].acceptor == Flushing(Some(c)) || states[m].acceptor == ClosingOld(c)
    decreases m
  {
    if m > k + 1 {
      ReplacedIsClosed(states, steps, k, m - 1, c);
      assert Enabled(states[m - 1], steps[m - 1]);
    }
  }

  // When setClient lets go of the mutex the queue of the open session is empty, so
  // whatever is in it from then on was sent under the new epoch or was stamped
  // before the swap and is dropped.
  lemma FlushEmpties(states: seq<Relay>, steps: seq<Step>, k: nat)
    requires Execution(states, steps) && k < |steps| && states[k].acceptor.Flushing? && !states[k + 1].acceptor.Flushing?
    ensures var s := states[k + 1];
            s.hub.toClient.Some? ==> s.hub.toClient.value < |s.sessions| && s.sessions[s.hub.toClient.value].queue == []
  {
    assert Enabled(states[k], steps[k]);
  }
}
