/**
 The client's side of an upload: uploadChunks, which sends one chunk and waits
 for its acknowledgement before the next, and streamUpload around it. The stream
 between the two is a call on the server whose answer may be lost.
 */
module UploadClient {
  import opened Common
  import U = Upload
  import opened UploadProofs
  import opened UploadServer

  // What happens to the k-th exchange: whether the client's send and receive
  // work, and how the server's own calls end.
  datatype Link = Link(sends: nat -> bool, receives: nat -> bool, written: nat -> bool, partial: nat -> nat, synced: nat -> bool,
                       save: nat -> U.Save, acks: nat -> bool, tidy: U.Tidy)

  ghost predicate Flawless(link: Link) {
    forall k: nat :: link.sends(k) && link.receives(k) && link.written(k) && link.synced(k) && link.save(k).Saved? && link.acks(k)
  }

  function Request(link: Link, k: nat, offset: nat, segment: Bytes): U.ChunkIn {
    U.ChunkIn(offset, segment, link.written(k), link.partial(k), link.synced(k), link.save(k), link.acks(k), link.tidy)
  }

  // `s` describes the server and what this client has sent it.
  ghost predicate Describes(s: U.Sys, server: WriteTransfer)
    reads server
  {
    && server.Valid() && Good(server.hash, s)
    && s.disk == server.disk && s.live == server.Stream()
    && s.begun
  }

  // An acknowledged chunk moves no file.
  lemma ChunkStays(hash: Bytes -> string, s: U.Sys, x: U.ChunkIn)
    requires Good(hash, s) && s.live.Some? && U.WriteChunk(s.live.value, x).reply.DataAck?
    ensures U.Where(U.Next(hash, s, U.Done(U.Chunk(x))).disk) == U.Where(s.disk)
    ensures U.Next(hash, s, U.Done(U.Chunk(x))).sent == s.sent + x.data
    ensures U.Next(hash, s, U.Done(U.Chunk(x))).disk.target == s.disk.target
    ensures U.Next(hash, s, U.Done(U.Chunk(x))).disk.staged == s.disk.staged
  {
    WritingOk(hash, s.disk, s.live.value, s.sent + x.data, x);
  }

  // The server never writes more than one chunk's size at a time.
  ghost predicate Portioned(effects: seq<U.Effect>, chunk: int) {
    forall e :: e in effects && e.Appended? ==> |e.data| <= chunk
  }

  lemma LogGrows(start: seq<U.Effect>, logged: seq<U.Effect>, effects: seq<U.Effect>, chunk: int)
    requires start <= logged && Portioned(logged[|start|..], chunk) && Portioned(effects, chunk)
    ensures start <= logged + effects && Portioned((logged + effects)[|start|..], chunk)
  {
    assert (logged + effects)[|start|..] == logged[|start|..] + effects;
  }

  lemma ChunkIsPortioned(m: U.Live, x: U.ChunkIn, chunk: int)
    requires |x.data| <= chunk
    ensures Portioned(U.WriteChunk(m, x).effects, chunk)
  {
    assert Portioned(U.Writing(m, x), chunk);
  }

  // At every loop head the client's offset is the server's committed offset and
  // both have hashed exactly data[..offset]. The loop ends; when it reports
  // success everything is sent, and it does when nothing fails.
  method UploadChunks(server: WriteTransfer, data: Bytes, chunk: int, link: Link, ghost before: U.Sys)
    returns (hasher: Bytes, ok: bool, ghost s: U.Sys)
    requires chunk > 0
    requires Describes(before, server) && before.live.Some? && before.sent == []
    modifies server
    ensures ok ==>
              && Describes(s, server) && s.live.Some?
              && s.sent == hasher == data && server.committed == |data|
              && U.Where(s.disk) == U.Where(before.disk)
              && s.disk.target == before.disk.target && s.disk.staged == before.disk.staged
    ensures Flawless(link) ==> ok
    ensures old(server.log) <= server.log && Portioned(server.log[|old(server.log)|..], chunk)
  {
    var offset, k := 0, 0;
    hasher, s := [], before;
    while offset < |data|
      invariant 0 <= offset <= |data| && offset == server.committed
      invariant server.hasher == hasher == data[..offset] == s.sent
      invariant old(server.log) <= server.log && Portioned(server.log[|old(server.log)|..], chunk)
      invariant Describes(s, server) && s.live.Some?
      invariant U.Where(s.disk) == U.Where(before.disk)
      invariant s.disk.target == before.disk.target && s.disk.staged == before.disk.staged
      decreases |data| - offset
    {
      var end := Min(offset + chunk, |data|);
      var segment := data[offset..end];
      hasher := hasher + segment;
      if !link.sends(k) {
        return hasher, false, s;
      }
      var x := Request(link, k, offset, segment);
      ghost var logged, effects := server.log, U.WriteChunk(server.Stream().value, x).effects;
      ChunkIsPortioned(server.Stream().value, x, chunk);
      var reply := server.ServeChunk(x);
      LogGrows(old(server.log), logged, effects, chunk);
      if !link.receives(k) || !reply.DataAck? || reply.offset != end {
        return hasher, false, s;
      }
      ChunkStays(server.hash, s, x);
      DoneKeeps(server.hash, s, U.Chunk(x));
      s := U.Next(server.hash, s, U.Done(U.Chunk(x)));
      assert data[..offset] + segment == data[..end];
      offset := end;
      k := k + 1;
    }
    assert data[..|data|] == data;
    return hasher, true, s;
  }

  predicate FinishFlawless(x: U.FinishIn) {
    x.synced && x.closes && x.readable && x.backs.Saved? && x.renames && x.dirSynced && x.sends && !x.step.Unspecified?
  }

  // The terminal reports `data`, and the path the upload finishes into holds it.
  ghost predicate Delivered(server: WriteTransfer, was: U.Disk, data: Bytes, staged: bool, reply: U.Reply)
    reads server
  {
    && reply.Terminal? && reply.total == |data| && reply.sum == server.hash(data)
    && U.Content(server.disk, staged) == Some(data)
    && U.Content(server.disk, !staged) == U.Content(was, !staged)
  }

  // The Final, with the checksum of what the client hashed, and the terminal.
  method SendFinal(server: WriteTransfer, hasher: Bytes, finish: U.FinishIn, sends: bool, receives: bool, ghost s: U.Sys)
    returns (term: Option<U.Reply>)
    requires Describes(s, server) && s.live.Some? && s.sent == hasher
    modifies server
    ensures term.Some? ==> Delivered(server, old(server.disk), hasher, finish.step.Stage?, term.value)
    ensures FinishFlawless(finish) && sends && receives && U.Where(old(server.disk)).AtTemp? ==> term.Some?
  {
    if !sends {
      return None;
    }
    var x := finish.(sum := server.hash(hasher));
    FinishInstalls(server.hash, s, x);
    var reply := server.FinalizeWrite(x);
    if !receives || !reply.Terminal? {
      return None;
    }
    return Some(reply);
  }

  // The header and its acknowledgement.
  method SendHeader(server: WriteTransfer, creates: bool, save: U.Save, acks: bool, tidy: U.Tidy)
    returns (ok: bool, ghost s: U.Sys)
    requires server.Valid() && !server.alive
    requires server.disk == U.Fresh(server.disk.binds, server.disk.target, server.disk.staged).disk
    modifies server
    ensures ok == (creates && save.Saved? && acks)
    ensures ok ==>
              && Describes(s, server) && s.live.Some? && s.sent == [] && U.Where(s.disk).AtTemp?
              && (forall staged :: U.Content(server.disk, staged) == old(U.Content(server.disk, staged)))
  {
    var start := U.Fresh(server.disk.binds, server.disk.target, server.disk.staged);
    var open := U.Open(creates, save, acks, tidy);
    DoneKeeps(server.hash, start, open);
    s := U.Next(server.hash, start, U.Done(open));
    OpensAt(server.hash, start, tidy);
    var reply := server.OpenWriteState(creates, save, acks, tidy);
    ok := reply.Ack?;
  }

  // On success the path the upload finishes into holds `data`, the other one is
  // as it was, and the terminal has its length and hash. It succeeds when nothing
  // fails.
  method StreamUpload(server: WriteTransfer, data: Bytes, chunk: int, creates: bool, save: U.Save, acks: bool, link: Link,
                      finish: U.FinishIn, sends: bool, receives: bool) returns (term: Option<U.Reply>)
    requires chunk > 0
    requires server.Valid() && !server.alive
    requires server.disk == U.Fresh(server.disk.binds, server.disk.target, server.disk.staged).disk
    modifies server
    ensures term.Some? ==> Delivered(server, old(server.disk), data, finish.step.Stage?, term.value)
    ensures (creates && save.Saved? && acks && Flawless(link) && FinishFlawless(finish) && sends && receives) ==> term.Some?
  {
    var ok, hasher;
    ghost var empty, sent;
    ok, empty := SendHeader(server, creates, save, acks, link.tidy);
    if !ok {
      return None;
    }
    hasher, ok, sent := UploadChunks(server, data, chunk, link, empty);
    if !ok {
      return None;
    }
    term := SendFinal(server, hasher, finish, sends, receives, sent);
  }
}
