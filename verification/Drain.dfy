/**
 The chardev drain relay as an interleaved state machine.

 One step is one critical section of the hub's mutex, one channel operation, or
 one call on a connection, so every interleaving of the reader, the writer, the
 accept loop and the client pumps is a sequence of steps. A connection is named
 by the epoch its swap installed. Sessions are never removed: an old session's
 writer may outlive its drainChardev call.
 */
module Drain {
  import opened Common

  // drainQueueDepth
  const QUEUE_DEPTH: nat := 256

  // A stamped chunk. `serial` is its position in the session's stamping order;
  // the source has no such field, it only lets the model tell chunks apart.
  datatype Chunk = Chunk(data: Bytes, epoch: nat, serial: nat)

  // Where chardevReadLoop is. `chunk` in the last three overflow states is the
  // chunk the full queue refused.
  datatype Reader =
    | Reading
    | HasData(data: Bytes)
    | Stamped(chunk: Chunk)
    | Overflowed(chunk: Chunk)
    | Clearing(chunk: Chunk, conn: nat)
    | Closing(conn: nat)
    | Ended

  // Where chardevWriteLoop is.
  datatype Writer =
    | Waiting
    | Holding(chunk: Chunk)
    | Writing(chunk: Chunk, conn: nat)
    | WriteFailed(conn: nat)
    | ClosingFailed(conn: nat)
    | Stopped

  // One Write call that returned: `count` bytes of the chunk reached `conn`.
  datatype Sent = Sent(conn: nat, chunk: Chunk, count: nat)

  // One drainChardev call. `stamped`, `sent` and `discarded` are histories.
  datatype Session = Session(
    reader: Reader,
    writer: Writer,
    queue: seq<Chunk>,
    stamped: seq<Chunk>,
    sent: seq<Sent>,
    discarded: seq<Chunk>)

  // toClient is the index of the session whose queue the hub points to.
  datatype Hub = Hub(client: Option<nat>, epoch: nat, toClient: Option<nat>, closed: set<nat>)

  // The accept loop holds the mutex exactly while it flushes.
  datatype Acceptor = Accepting | Flushing(prior: Option<nat>) | ClosingOld(conn: nat)

  // A write that returned, with the session whose writer made it.
  datatype Write = Write(session: nat, sent: Sent)

  // `log` is a history: every write, in the order they returned.
  datatype Relay = Relay(hub: Hub, acceptor: Acceptor, sessions: seq<Session>, log: seq<Write>)

  // Steps of one session's reader and writer goroutines. The writer may stop
  // whenever it waits, as it does when the context is done.
  datatype Action =
    | ReadData(data: Bytes)
    | ReadError
    | Stamp
    | Enqueue
    | OverflowGetClient
    | OverflowClear
    | OverflowClose
    | Take
    | Snapshot
    | WriteOk
    | WriteError(count: nat)
    | ClearFailed
    | CloseFailed
    | StopWriter

  // EndSession is a return of drainChardev: the chardev failed, or the context is
  // done and the reader goes on.
  datatype Step =
    | Act(session: nat, action: Action)
    | Install
    | FlushOne
    | FlushEnd
    | CloseOld
    | PumpClear(conn: nat)
    | PumpClose(conn: nat)
    | OpenSession
    | EndSession

  const EMPTY_SESSION := Session(Reading, Waiting, [], [], [], [])

  const INIT := Relay(Hub(None, 0, None, {}), Accepting, [], [])

  // ---- Hub operations shared by the step machine and the DrainHub class ----

  // setClient's assignments: a fresh connection, named by the new epoch.
  function Installed(h: Hub): Hub {
    h.(client := Some(h.epoch + 1), epoch := h.epoch + 1)
  }

  function Cleared(h: Hub, conn: nat): Hub {
    if h.client == Some(conn) then h.(client := None) else h
  }

  function Closed(h: Hub, conn: nat): Hub {
    h.(closed := h.closed + {conn})
  }

  // ---- The step machine ----

  // Steps that enter a critical section wait while the accept loop flushes.
  predicate NeedsMutex(a: Action) {
    a.Stamp? || a.OverflowGetClient? || a.OverflowClear? || a.Snapshot? || a.ClearFailed?
  }

  // Whether the goroutine's position and the channel allow the action; the
  // mutex is checked separately.
  predicate Ready(h: Hub, t: Session, a: Action) {
    match a
    case ReadData(data) => t.reader.Reading? && data != []
    case ReadError => t.reader.Reading?
    case Stamp => t.reader.HasData?
    case Enqueue => t.reader.Stamped?
    case OverflowGetClient => t.reader.Overflowed?
    case OverflowClear => t.reader.Clearing?
    case OverflowClose => t.reader.Closing?
    case Take => t.writer.Waiting? && t.queue != []
    case Snapshot => t.writer.Holding?
    case WriteOk => t.writer.Writing? && t.writer.conn !in h.closed
    case WriteError(count) =>
      t.writer.Writing? && count < |t.writer.chunk.data| && (t.writer.conn in h.closed ==> count == 0)
    case ClearFailed => t.writer.WriteFailed?
    case CloseFailed => t.writer.ClosingFailed?
    case StopWriter => t.writer.Waiting?
  }

  function ActHub(h: Hub, t: Session, a: Action): Hub
    requires Ready(h, t, a)
  {
    match a
    case OverflowClear => Cleared(h, t.reader.conn)
    case OverflowClose => Closed(h, t.reader.conn)
    case ClearFailed => Cleared(h, t.writer.conn)
    case CloseFailed => Closed(h, t.writer.conn)
    case _ => h
  }

  function ActSession(h: Hub, t: Session, a: Action): Session
    requires Ready(h, t, a)
  {
    match a
    case ReadData(data) => t.(reader := HasData(data))
    case ReadError => t.(reader := Ended)
    case Stamp =>
      var chunk := Chunk(t.reader.data, h.epoch, |t.stamped|);
      t.(reader := Stamped(chunk), stamped := t.stamped + [chunk])
    case Enqueue =>
      if |t.queue| < QUEUE_DEPTH then t.(reader := Reading, queue := t.queue + [t.reader.chunk])
      else t.(reader := Overflowed(t.reader.chunk), discarded := t.discarded + [t.reader.chunk])
    case OverflowGetClient =>
      (match h.client
       case None => t.(reader := Reading)
       case Some(c) => t.(reader := Clearing(t.reader.chunk, c)))
    case OverflowClear => t.(reader := Closing(t.reader.conn))
    case OverflowClose => t.(reader := Reading)
    case Take => t.(writer := Holding(t.queue[0]), queue := t.queue[1..])
    case Snapshot =>
      if t.writer.chunk.epoch != h.epoch || h.client.None?
      then t.(writer := Waiting, discarded := t.discarded + [t.writer.chunk])
      else t.(writer := Writing(t.writer.chunk, h.client.value))
    case WriteOk =>
      t.(writer := Waiting, sent := t.sent + [Sent(t.writer.conn, t.writer.chunk, |t.writer.chunk.data|)])
    case WriteError(count) =>
      t.(writer := WriteFailed(t.writer.conn),
         sent := t.sent + [Sent(t.writer.conn, t.writer.chunk, count)],
         discarded := t.discarded + [t.writer.chunk])
    case ClearFailed => t.(writer := ClosingFailed(t.writer.conn))
    case CloseFailed => t.(writer := Waiting)
    case StopWriter => t.(writer := Stopped)
  }

  // The write an action completes, if it does.
  function Returned(i: nat, t: Session, a: Action): seq<Write> {
    if !t.writer.Writing? then []
    else match a
         case WriteOk => [Write(i, Sent(t.writer.conn, t.writer.chunk, |t.writer.chunk.data|))]
         case WriteError(count) => [Write(i, Sent(t.writer.conn, t.writer.chunk, count))]
         case _ => []
  }

  predicate FlushDone(s: Relay)
    requires s.hub.toClient.Some? ==> s.hub.toClient.value < |s.sessions|
  {
    s.hub.toClient.None? || s.sessions[s.hub.toClient.value].queue == []
  }

  predicate Enabled(s: Relay, step: Step) {
    && (s.hub.toClient.Some? ==> s.hub.toClient.value < |s.sessions|)
    && match step
       case Act(i, a) =>
         && i < |s.sessions|
         && Ready(s.hub, s.sessions[i], a)
         && (NeedsMutex(a) ==> !s.acceptor.Flushing?)
       case Install => s.acceptor.Accepting?
       case FlushOne => s.acceptor.Flushing? && !FlushDone(s)
       case FlushEnd => s.acceptor.Flushing? && FlushDone(s)
       case CloseOld => s.acceptor.ClosingOld?
       case PumpClear(c) => !s.acceptor.Flushing? && 0 < c <= s.hub.epoch
       case PumpClose(c) => 0 < c <= s.hub.epoch
       case OpenSession => !s.acceptor.Flushing? && s.hub.toClient.None?
       case EndSession => !s.acceptor.Flushing? && s.hub.toClient.Some?
  }

  function Next(s: Relay, step: Step): Relay
    requires Enabled(s, step)
  {
    match step
    case Act(i, a) =>
      s.(hub := ActHub(s.hub, s.sessions[i], a),
         sessions := s.sessions[i := ActSession(s.hub, s.sessions[i], a)],
         log := s.log + Returned(i, s.sessions[i], a))
    case Install => s.(hub := Installed(s.hub), acceptor := Flushing(s.hub.client))
    case FlushOne =>
      var i := s.hub.toClient.value;
      var t := s.sessions[i];
      s.(sessions := s.sessions[i := t.(queue := t.queue[1..], discarded := t.discarded + [t.queue[0]])])
    case FlushEnd =>
      s.(acceptor := match s.acceptor.prior case None => Accepting case Some(c) => ClosingOld(c))
    case CloseOld => s.(hub := Closed(s.hub, s.acceptor.conn), acceptor := Accepting)
    case PumpClear(c) => s.(hub := Cleared(s.hub, c))
    case PumpClose(c) => s.(hub := Closed(s.hub, c))
    case OpenSession =>
      s.(hub := s.hub.(toClient := Some(|s.sessions|)), sessions := s.sessions + [EMPTY_SESSION])
    case EndSession => s.(hub := s.hub.(toClient := None))
  }

  // A run: states[0] is the start, and step k leads from states[k] to states[k+1].
  ghost predicate Segment(states: seq<Relay>, steps: seq<Step>) {
    && |states| == |steps| + 1
    && forall k :: 0 <= k < |steps| ==> Enabled(states[k], steps[k]) && states[k + 1] == Next(states[k], steps[k])
  }

  ghost predicate Execution(states: seq<Relay>, steps: seq<Step>) {
    Segment(states, steps) && states[0] == INIT
  }

  // ---- What the relay promises ----

  // The bytes of the chunks stamped e, in order.
  function Stream(chunks: seq<Chunk>, e: nat): Bytes {
    if chunks == [] then []
    else Stream(chunks[..|chunks| - 1], e) + Piece(chunks[|chunks| - 1], e)
  }

  function Piece(chunk: Chunk, e: nat): Bytes {
    if chunk.epoch == e then chunk.data else []
  }

  // The bytes that reached connection c, in order.
  function Delivered(sent: seq<Sent>, c: nat): Bytes {
    if sent == [] then []
    else Delivered(sent[..|sent| - 1], c) + Arrived(sent[|sent| - 1], c)
  }

  function Arrived(x: Sent, c: nat): Bytes {
    if x.conn == c && x.count <= |x.chunk.data| then x.chunk.data[..x.count] else []
  }

  function WriterBytes(w: Writer, e: nat): Bytes {
    if w.Holding? || w.Writing? then Piece(w.chunk, e) else []
  }

  // The chunk the reader has not yet answered for: stamped, or refused by the
  // full queue while its client is still to be cleared.
  function ReaderBytes(r: Reader, e: nat): Bytes {
    if r.Stamped? || r.Overflowed? || r.Clearing? then Piece(r.chunk, e) else []
  }

  // The bytes stamped e that are still on their way, in order.
  function InFlight(t: Session, e: nat): Bytes {
    WriterBytes(t.writer, e) + (Stream(t.queue, e) + ReaderBytes(t.reader, e))
  }

  // The same as chunks: those stamped e, those whose write to c returned, and
  // those stamped e that are still on their way.
  function For(chunks: seq<Chunk>, e: nat): seq<Chunk> {
    if chunks == [] then []
    else For(chunks[..|chunks| - 1], e) + Single(chunks[|chunks| - 1], e)
  }

  function Single(chunk: Chunk, e: nat): seq<Chunk> {
    if chunk.epoch == e then [chunk] else []
  }

  function To(sent: seq<Sent>, c: nat): seq<Chunk> {
    if sent == [] then []
    else To(sent[..|sent| - 1], c) + if sent[|sent| - 1].conn == c then [sent[|sent| - 1].chunk] else []
  }

  function Held(w: Writer, e: nat): seq<Chunk> {
    if w.Holding? || w.Writing? then Single(w.chunk, e) else []
  }

  function Unanswered(r: Reader, e: nat): seq<Chunk> {
    if r.Stamped? || r.Overflowed? || r.Clearing? then Single(r.chunk, e) else []
  }

  function Flight(t: Session, e: nat): seq<Chunk> {
    Held(t.writer, e) + (For(t.queue, e) + Unanswered(t.reader, e))
  }

  // How many chunks of a history or a queue carry serial k.
  function Count(chunks: seq<Chunk>, k: nat): nat {
    if chunks == [] then 0
    else Count(chunks[..|chunks| - 1], k) + One(chunks[|chunks| - 1], k)
  }

  function One(chunk: Chunk, k: nat): nat {
    if chunk.serial == k then 1 else 0
  }

  // How many writes that returned without error took a chunk with serial k.
  function CountWritten(sent: seq<Sent>, k: nat): nat {
    if sent == [] then 0
    else CountWritten(sent[..|sent| - 1], k) + Whole(sent[|sent| - 1], k)
  }

  function Whole(x: Sent, k: nat): nat {
    if x.count == |x.chunk.data| then One(x.chunk, k) else 0
  }

  function AtReader(r: Reader, k: nat): nat {
    if r.Stamped? then One(r.chunk, k) else 0
  }

  function AtWriter(w: Writer, k: nat): nat {
    if w.Holding? || w.Writing? then One(w.chunk, k) else 0
  }
}
