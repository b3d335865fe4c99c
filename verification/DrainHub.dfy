/**
 The hub object and one turn of each relay loop, as the source writes them.

 A turn run without interruption is proved to be the step machine's actions in
 the order the loop body takes them; the machine then interleaves them.
 */
module DrainHub {
  import opened Common
  import opened Drain

  // The bounded channel between reader and writer, with the two select forms
  // the relay uses.
  class Channel {
    var items: seq<Chunk>

    constructor ()
      ensures items == []
    {
      items := [];
    }

    method TrySend(chunk: Chunk) returns (sent: bool)
      modifies this
      ensures sent <==> |old(items)| < 256
      ensures items == if sent then old(items) + [chunk] else old(items)
    {
      sent := |items| < QUEUE_DEPTH;
      if sent {
        items := items + [chunk];
      }
    }

    method TryReceive() returns (got: Option<Chunk>)
      modifies this
      ensures got.None? <==> old(items) == []
      ensures got.Some? ==> old(items) == [got.value] + items
      ensures got.None? ==> items == []
    {
      if items == [] {
        got := None;
      } else {
        got := Some(items[0]);
        items := items[1..];
      }
    }
  }

  class DrainHub {
    var client: Option<nat>
    var epoch: nat
    var toClient: Channel?
    var closed: set<nat>

    constructor ()
      ensures View() == INIT.hub && toClient == null
    {
      client, epoch, toClient, closed := None, 0, null, {};
    }

    function View(): Hub
      reads this
    {
      Hub(client, epoch, None, closed)
    }

    // setClient: swap, then flush what the dead client never read, then close
    // it. The new connection is named by the new epoch.
    method SetClient() returns (ghost flushed: seq<Chunk>)
      modifies this`client, this`epoch, this`closed, toClient
      ensures client == Some(epoch) && epoch == old(epoch) + 1
      ensures closed == old(closed) + if old(client).Some? then {old(client).value} else {}
      ensures View() == match old(client)
                        case None => Installed(old(View()))
                        case Some(c) => Closed(Installed(old(View())), c)
      ensures toClient != null ==> toClient.items == [] && flushed == old(toClient.items)
      ensures toClient == null ==> flushed == []
    {
      var prior := client;
      client := Some(epoch + 1);
      epoch := epoch + 1;
      flushed := [];
      var more := toClient != null;
      while more
        invariant client == Some(old(epoch) + 1) && epoch == old(epoch) + 1 && closed == old(closed)
        invariant more ==> toClient != null
        invariant toClient != null ==> flushed + toClient.items == old(toClient.items)
        invariant !more && toClient != null ==> toClient.items == []
        invariant toClient == null ==> flushed == []
        decreases more, if toClient == null then 0 else |toClient.items|
      {
        var got := toClient.TryReceive();
        match got
        case None => more := false;
        case Some(chunk) => flushed := flushed + [chunk];
      }
      if prior.Some? {
        closed := closed + {prior.value};
      }
    }

    method GetClient() returns (c: Option<nat>)
      ensures c == client
    {
      c := client;
    }

    method ClearClient(conn: nat)
      modifies this`client
      ensures client == if old(client) == Some(conn) then None else old(client)
      ensures View() == Cleared(old(View()), conn)
    {
      if client == Some(conn) {
        client := None;
      }
    }

    method CloseConn(conn: nat)
      modifies this`closed
      ensures closed == old(closed) + {conn}
      ensures View() == Closed(old(View()), conn)
    {
      closed := closed + {conn};
    }
  }

  // A session's actions in order, with nothing in between; None when one of
  // them is not ready.
  function Turn(h: Hub, t: Session, actions: seq<Action>): Option<(Hub, Session)>
    decreases actions
  {
    if actions == [] then Some((h, t))
    else if !Ready(h, t, actions[0]) then None
    else Turn(ActHub(h, t, actions[0]), ActSession(h, t, actions[0]), actions[1..])
  }

  lemma TurnStep(h: Hub, t: Session, a: Action, rest: seq<Action>)
    requires Ready(h, t, a)
    ensures Turn(h, t, [a] + rest) == Turn(ActHub(h, t, a), ActSession(h, t, a), rest)
  {
    assert ([a] + rest)[1..] == rest;
  }

  // ---- One turn of chardevReadLoop ----

  // The actions after the send: none, a look for a client, or dropping it.
  function AfterSend(h: Hub, t: Session): seq<Action> {
    if |t.queue| < QUEUE_DEPTH then []
    else [OverflowGetClient] + if h.client.None? then [] else [OverflowClear] + [OverflowClose]
  }

  function ReaderTurn(h: Hub, t: Session, data: Bytes): seq<Action> {
    [ReadData(data)] + ([Stamp] + ([Enqueue] + AfterSend(h, t)))
  }

  // Where one undisturbed read leaves the hub and the session.
  lemma ReaderTurnEnds(h: Hub, t: Session, data: Bytes) returns (h': Hub, t': Session)
    requires data != [] && t.reader.Reading?
    ensures Turn(h, t, ReaderTurn(h, t, data)) == Some((h', t')) && t'.reader.Reading?
    ensures t'.stamped == t.stamped + [Chunk(data, h.epoch, |t.stamped|)]
    ensures |t.queue| < QUEUE_DEPTH ==> h' == h && t'.queue == t.queue + [Chunk(data, h.epoch, |t.stamped|)]
    ensures |t.queue| >= QUEUE_DEPTH ==>
              && t'.queue == t.queue
              && h'.client == None && h'.epoch == h.epoch
              && h'.closed == (h.closed + if h.client.Some? then {h.client.value} else {})
              && h' == if h.client.None? then h else Closed(Cleared(h, h.client.value), h.client.value)
  {
    h', t' := h, t;
    TurnStep(h', t', ReadData(data), [Stamp] + ([Enqueue] + AfterSend(h, t)));
    t' := ActSession(h', t', ReadData(data));
    TurnStep(h', t', Stamp, [Enqueue] + AfterSend(h, t));
    t' := ActSession(h', t', Stamp);
    TurnStep(h', t', Enqueue, AfterSend(h, t));
    t' := ActSession(h', t', Enqueue);
    if |t.queue| >= QUEUE_DEPTH {
      TurnStep(h', t', OverflowGetClient, if h.client.None? then [] else [OverflowClear] + [OverflowClose]);
      t' := ActSession(h', t', OverflowGetClient);
      if h.client.Some? {
        TurnStep(h', t', OverflowClear, [OverflowClose]);
        h', t' := ActHub(h', t', OverflowClear), ActSession(h', t', OverflowClear);
        assert [OverflowClose] == [OverflowClose] + [];
        TurnStep(h', t', OverflowClose, []);
        h', t' := ActHub(h', t', OverflowClose), ActSession(h', t', OverflowClose);
      }
    }
  }

  // `serial` only numbers the chunk for the model.
  method RelayData(hub: DrainHub, q: Channel, data: Bytes, serial: nat, ghost t: Session) returns (ghost t': Session)
    requires data != [] && t.reader.Reading? && t.queue == q.items && serial == |t.stamped|
    modifies hub, q
    ensures Turn(old(hub.View()), t, ReaderTurn(old(hub.View()), t, data)) == Some((hub.View(), t'))
    ensures t'.reader.Reading? && t'.queue == q.items
  {
    ghost var h := hub.View();
    ghost var h';
    h', t' := ReaderTurnEnds(h, t, data);
    var ep := hub.epoch;
    var sent := q.TrySend(Chunk(data, ep, serial));
    if !sent {
      var c := hub.GetClient();
      if c.Some? {
        hub.ClearClient(c.value);
        hub.CloseConn(c.value);
      }
    }
  }

  // ---- One turn of chardevWriteLoop ----

  // The actions after the snapshot, when the connection accepts `count` bytes.
  function AfterSnapshot(h: Hub, chunk: Chunk, count: nat): seq<Action> {
    if chunk.epoch != h.epoch || h.client.None? then []
    else if count == |chunk.data| then [WriteOk]
    else [WriteError(count)] + ([ClearFailed] + [CloseFailed])
  }

  function WriterTurn(h: Hub, t: Session, count: nat): seq<Action>
    requires t.queue != []
  {
    [Take] + ([Snapshot] + AfterSnapshot(h, t.queue[0], count))
  }

  // Where one undisturbed turn of the writer leaves the hub and the session:
  // the bytes go to the client only when the chunk carries its epoch.
  lemma WriterTurnEnds(h: Hub, t: Session, count: nat) returns (h': Hub, t': Session)
    requires t.writer.Waiting? && t.queue != [] && count <= |t.queue[0].data|
    requires h.client.Some? && h.client.value in h.closed ==> count == 0 && t.queue[0].data != []
    ensures Turn(h, t, WriterTurn(h, t, count)) == Some((h', t'))
    ensures t'.writer.Waiting? && t'.queue == t.queue[1..] && t'.reader == t.reader
    ensures t'.sent == t.sent + if t.queue[0].epoch == h.epoch && h.client.Some?
                                then [Sent(h.client.value, t.queue[0], count)] else []
    ensures h' == if t.queue[0].epoch == h.epoch && h.client.Some? && count < |t.queue[0].data|
                  then Closed(Cleared(h, h.client.value), h.client.value) else h
    ensures t.queue[0].epoch == h.epoch && h.client.Some? && count < |t.queue[0].data| ==>
              h'.client == None && h'.epoch == h.epoch && h'.closed == h.closed + {h.client.value}
  {
    var chunk := t.queue[0];
    h', t' := h, t;
    TurnStep(h', t', Take, [Snapshot] + AfterSnapshot(h, chunk, count));
    t' := ActSession(h', t', Take);
    TurnStep(h', t', Snapshot, AfterSnapshot(h, chunk, count));
    t' := ActSession(h', t', Snapshot);
    if chunk.epoch == h.epoch && h.client.Some? {
      if count == |chunk.data| {
        assert [WriteOk] == [WriteOk] + [];
        TurnStep(h', t', WriteOk, []);
        t' := ActSession(h', t', WriteOk);
      } else {
        h', t' := FailedWriteEnds(h', t', count);
      }
    }
  }

  // A write that fails leaves its client detached and closed.
  lemma FailedWriteEnds(h: Hub, t: Session, count: nat) returns (h': Hub, t': Session)
    requires t.writer.Writing? && Ready(h, t, WriteError(count))
    ensures Turn(h, t, [WriteError(count)] + ([ClearFailed] + [CloseFailed])) == Some((h', t'))
    ensures h' == Closed(Cleared(h, t.writer.conn), t.writer.conn)
    ensures t'.writer.Waiting? && t'.queue == t.queue && t'.reader == t.reader
    ensures t'.sent == t.sent + [Sent(t.writer.conn, t.writer.chunk, count)]
  {
    TurnStep(h, t, WriteError(count), [ClearFailed] + [CloseFailed]);
    h', t' := h, ActSession(h, t, WriteError(count));
    TurnStep(h', t', ClearFailed, [CloseFailed]);
    h', t' := ActHub(h', t', ClearFailed), ActSession(h', t', ClearFailed);
    assert [CloseFailed] == [CloseFailed] + [];
    TurnStep(h', t', CloseFailed, []);
    h', t' := ActHub(h', t', CloseFailed), ActSession(h', t', CloseFailed);
  }

  // `count` is how many bytes the connection accepts; a closed one takes none.
  method ForwardOne(hub: DrainHub, q: Channel, count: nat, ghost t: Session) returns (sent: Option<nat>, ghost t': Session)
    requires t.writer.Waiting? && t.queue == q.items && q.items != [] && count <= |q.items[0].data|
    requires hub.client.Some? && hub.client.value in hub.closed ==> count == 0 && q.items[0].data != []
    modifies hub, q
    ensures Turn(old(hub.View()), t, WriterTurn(old(hub.View()), t, count)) == Some((hub.View(), t'))
    ensures t'.writer.Waiting? && t'.queue == q.items
    ensures t'.sent == t.sent + if sent.Some? then [Sent(sent.value, t.queue[0], count)] else []
  {
    ghost var h';
    h', t' := WriterTurnEnds(hub.View(), t, count);
    var got := q.TryReceive();
    var chunk := got.value;
    var cur := hub.epoch;
    var c := hub.client;
    sent := None;
    if chunk.epoch == cur && c.Some? {
      sent := c;
      if count < |chunk.data| {
        hub.ClearClient(c.value);
        hub.CloseConn(c.value);
      }
    }
  }
}
