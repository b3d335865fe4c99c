/**
 The upload as the source writes it: the server's writeTransfer, whose offset,
 hasher and temp file change with every chunk, and the client's stop-and-wait
 loop. The server's methods are proved to perform exactly the operations of
 their specification in Upload; the client's loop to run in lockstep with them.
 */
module UploadServer {
  import opened Common
  import opened Text
  import U = Upload
  import opened UploadProofs

  type Effect = U.Effect
  type Disk = U.Disk

  // writeChunk's operations before any cleanup, and whether it returns no error.
  ghost function WriteEffects(m: U.Live, x: U.ChunkIn): seq<Effect> {
    if x.offset != m.committed then []
    else if !x.written then [U.Appended(x.data[..Min(x.partial, |x.data|)])] else U.Writing(m, x)
  }

  predicate WriteWorks(m: U.Live, x: U.ChunkIn) {
    x.offset == m.committed && x.written && (U.Due(m, x) ==> x.synced && x.save.Saved?)
  }

  class WriteTransfer {
    var disk: Disk
    var alive: bool
    var committed: nat
    var lastChkpt: nat
    var hasher: Bytes
    const hash: Bytes -> string
    ghost const start: Disk
    ghost var log: seq<Effect>

    ghost predicate Valid()
      reads this
    {
      disk == U.Replay(start, log)
    }

    // The effects of this call, given the log and the disk when it began.
    ghost predicate Did(logged: seq<Effect>, was: Disk, effects: seq<Effect>)
      reads this
    {
      Valid() && log == logged + effects && disk == U.Replay(was, effects)
    }

    function Stream(): Option<U.Live>
      reads this
    {
      if alive then Some(U.Live(committed, lastChkpt, hasher)) else None
    }

    // The call did what its specification says and left the stream it says.
    ghost predicate Ended(logged: seq<Effect>, was: Disk, r: U.Outcome)
      reads this
    {
      Did(logged, was, r.effects) && Stream() == r.live
    }

    constructor (hash: Bytes -> string, d: Disk)
      ensures Did([], d, []) && Stream() == None && this.hash == hash
    {
      this.hash := hash;
      disk, alive, committed, lastChkpt, hasher := d, false, 0, 0, [];
      start, log := d, [];
    }

    // ---- File operations ----

    method Perform(e: Effect)
      requires Valid()
      modifies this`disk, this`log
      ensures Did(old(log), old(disk), [e])
    {
      ReplayConcat(hash, start, [], log, [e]);
      ReplayOne(hash, disk, [], e);
      disk := U.Apply(disk, e);
      log := log + [e];
    }

    lemma Both(logged: seq<Effect>, was: Disk, first: seq<Effect>, second: seq<Effect>)
      requires Valid() && log == (logged + first) + second && disk == U.Replay(U.Replay(was, first), second)
      ensures Did(logged, was, first + second)
    {
      Associates(logged, first, second);
      ReplayConcat(hash, was, [], first, second);
    }

    // AtomicWriteFile on the state file.
    method SaveState(save: U.Save) returns (ok: bool)
      requires Valid()
      modifies this`disk, this`log
      ensures Did(old(log), old(disk), U.Saving(committed, save)) && ok == save.Saved?
    {
      if save.Unsaved? {
        return false;
      }
      Perform(U.StateSet(committed));
      if save.Unsynced? {
        return false;
      }
      Perform(U.StateDirSynced);
      Both(old(log), old(disk), [U.StateSet(committed)], [U.StateDirSynced]);
      return true;
    }

    method Persist(synced: bool, save: U.Save) returns (ok: bool)
      requires Valid()
      modifies this`disk, this`log
      ensures Did(old(log), old(disk), U.Persist(committed, synced, save)) && ok == (synced && save.Saved?)
    {
      if !synced {
        return false;
      }
      Perform(U.TempSynced);
      ok := SaveState(save);
      Both(old(log), old(disk), [U.TempSynced], U.Saving(committed, save));
    }

    method CleanUp(tidy: U.Tidy)
      requires Valid()
      modifies this`disk, this`log, this`alive
      ensures Did(old(log), old(disk), U.Cleanup(tidy)) && !alive
    {
      alive := false;
      ghost var unlinking: seq<Effect> := if tidy.unlinks then [U.TempUnlinked] else [];
      ghost var removing: seq<Effect> := if tidy.removes then [U.StateRemoved] else [];
      if tidy.unlinks {
        Perform(U.TempUnlinked);
      }
      assert Did(old(log), old(disk), unlinking);
      if tidy.removes {
        Perform(U.StateRemoved);
      }
      Both(old(log), old(disk), unlinking, removing);
    }

    // ---- openWriteState and resumeWriteState, and the header ack ----

    method OpenWriteState(creates: bool, save: U.Save, acks: bool, tidy: U.Tidy) returns (reply: U.Reply)
      requires Valid() && !alive
      modifies this
      ensures Ended(old(log), old(disk), U.OpenWrite(creates, save, acks, tidy))
      ensures reply == U.OpenWrite(creates, save, acks, tidy).reply
    {
      if !creates {
        return U.Failed;
      }
      Perform(U.TempCreated);
      committed, lastChkpt, hasher := 0, 0, [];
      var saved := SaveState(save);
      ghost var made := [U.TempCreated] + U.Saving(0, save);
      Both(old(log), old(disk), [U.TempCreated], U.Saving(0, save));
      if !saved {
        if tidy.unlinks {
          Perform(U.TempUnlinked);
        }
        Both(old(log), old(disk), made, if tidy.unlinks then [U.TempUnlinked] else []);
        return U.Failed;
      }
      if !acks {
        CleanUp(tidy);
        Both(old(log), old(disk), made, U.Cleanup(tidy));
        return U.Failed;
      }
      alive := true;
      return U.Ack(false, 0);
    }

    // The hash state is rebuilt from the file up to the offset in the state file.
    method ResumeWriteState(x: U.ResumeIn) returns (reply: U.Reply)
      requires Valid() && !alive
      modifies this
      ensures Ended(old(log), old(disk), U.ResumeWrite(old(disk), x))
      ensures reply == U.ResumeWrite(old(disk), x).reply
    {
      var state := U.Offset(disk);
      if !x.ready || state.None? || U.Where(disk) != U.AtTemp || !x.opens || !x.truncates {
        return U.Failed;
      }
      Perform(U.Truncated(state.value));
      ReplayOne(hash, old(disk), [], U.Truncated(state.value));
      if state.value > 0 && !x.rehashes {
        return U.Failed;
      }
      if !x.acks {
        CleanUp(x.tidy);
        Both(old(log), old(disk), [U.Truncated(state.value)], U.Cleanup(x.tidy));
        return U.Failed;
      }
      committed, lastChkpt, hasher := state.value, state.value, disk.content[..state.value];
      alive := true;
      return U.Ack(true, committed);
    }

    // ---- writeChunk and the data ack ----

    // Persists when the offset is an interval past the last checkpoint.
    method Checkpoint(synced: bool, save: U.Save) returns (ok: bool)
      requires Valid()
      modifies this`disk, this`log, this`lastChkpt
      ensures var due := committed - old(lastChkpt) >= U.CHECKPOINT_INTERVAL;
              && Did(old(log), old(disk), if due then U.Persist(committed, synced, save) else [])
              && ok == (due ==> synced && save.Saved?)
              && lastChkpt == if due && ok then committed else old(lastChkpt)
    {
      if committed - lastChkpt < U.CHECKPOINT_INTERVAL {
        return true;
      }
      ok := Persist(synced, save);
      if ok {
        lastChkpt := committed;
      }
    }

    method WriteChunk(x: U.ChunkIn) returns (ok: bool)
      requires Valid() && alive
      modifies this
      ensures alive && Did(old(log), old(disk), WriteEffects(old(Stream()).value, x))
      ensures ok == WriteWorks(old(Stream()).value, x)
      ensures ok && x.acks ==> Stream() == U.WriteChunk(old(Stream()).value, x).live
    {
      ghost var m := Stream().value;
      if x.offset != committed {
        return false;
      }
      if !x.written {
        Perform(U.Appended(x.data[..Min(x.partial, |x.data|)]));
        return false;
      }
      Perform(U.Appended(x.data));
      hasher := hasher + x.data;
      committed := committed + |x.data|;
      ok := Checkpoint(x.synced, x.save);
      Both(old(log), old(disk), [U.Appended(x.data)], if U.Due(m, x) then U.Persist(committed, x.synced, x.save) else []);
    }

    // serveWrite's part: an error cleans up, success is acknowledged.
    method ServeChunk(x: U.ChunkIn) returns (reply: U.Reply)
      requires Valid() && alive
      modifies this
      ensures Ended(old(log), old(disk), U.WriteChunk(old(Stream()).value, x))
      ensures reply == U.WriteChunk(old(Stream()).value, x).reply
    {
      ghost var effects := WriteEffects(Stream().value, x);
      var ok := WriteChunk(x);
      if !ok || !x.acks {
        CleanUp(x.tidy);
        Both(old(log), old(disk), effects, U.Cleanup(x.tidy));
        return U.Failed;
      }
      return U.DataAck(committed);
    }

    // A receive error: what there is is saved, whether or not that works.
    method RecvFails(synced: bool, save: U.Save)
      requires Valid() && alive
      modifies this
      ensures Did(old(log), old(disk), U.Persist(old(committed), synced, save)) && !alive
    {
      var _ := Persist(synced, save);
      alive := false;
    }

    // ---- finalizeWrite ----

    // AtomicRenameFile.
    method RenameInto(place: U.Place, x: U.FinishIn) returns (ok: bool)
      requires Valid()
      modifies this`disk, this`log
      ensures Did(old(log), old(disk), if U.Where(old(disk)).AtTemp? then U.Renaming(place, x) else [])
      ensures ok == (U.Where(old(disk)).AtTemp? && x.renames && x.dirSynced)
    {
      if U.Where(disk) != U.AtTemp || !x.renames {
        return false;
      }
      Perform(U.RenamedTo(place));
      if !x.dirSynced {
        assert U.Renaming(place, x) == [U.RenamedTo(place)];
        return false;
      }
      Perform(U.DirSynced);
      Both(old(log), old(disk), [U.RenamedTo(place)], [U.DirSynced]);
      return true;
    }

    // The backup comes first; without a target there is none.
    method SnapshotThenReplace(x: U.FinishIn) returns (backedUp: bool, ok: bool)
      requires Valid() && x.step.SnapshotThenReplace?
      modifies this`disk, this`log
      ensures Did(old(log), old(disk), U.Finishing(old(disk), x)) && ok == U.FinishWorks(old(disk), x)
      ensures ok ==> backedUp == (U.BackingUp(old(disk), x) != [])
    {
      if !x.readable {
        return false, false;
      }
      var current := U.Content(disk, false);
      ghost var backing := U.BackingUp(disk, x);
      backedUp := false;
      if current.Some? {
        if x.backs.Unsaved? {
          return false, false;
        }
        Perform(U.BackedUp(current.value));
        if x.backs.Unsynced? {
          return false, false;
        }
        backedUp := true;
        ReplayOne(hash, old(disk), [], U.BackedUp(current.value));
      }
      var place := U.Installed(false, x.sum);
      ok := RenameInto(place, x);
      Both(old(log), old(disk), backing, if U.Where(old(disk)).AtTemp? then U.Renaming(place, x) else []);
    }

    method FinishStep(x: U.FinishIn) returns (backedUp: bool, ok: bool)
      requires Valid()
      modifies this`disk, this`log
      ensures Did(old(log), old(disk), U.Finishing(old(disk), x)) && ok == U.FinishWorks(old(disk), x)
      ensures ok ==> backedUp == (U.BackingUp(old(disk), x) != [])
    {
      backedUp := false;
      ghost var renaming := if U.Where(disk).AtTemp? then U.Renaming(U.Installed(x.step.Stage?, x.sum), x) else [];
      assert [] + renaming == renaming;
      match x.step {
        case Replace => ok := RenameInto(U.Installed(false, x.sum), x);
        case SnapshotThenReplace => backedUp, ok := SnapshotThenReplace(x);
        case Stage => ok := RenameInto(U.Installed(true, x.sum), x);
        case Unspecified => ok := false;
      }
    }

    // A sum other than the hash is refused, and cleaning up touches neither path.
    lemma Mismatch(x: U.FinishIn)
      ensures LowerHashes(hash) && NoUpper(x.sum) && hash(hasher) != x.sum ==>
                && !EqualFold(hash(hasher), x.sum)
                && forall staged :: U.Content(U.Replay(disk, U.Cleanup(x.tidy)), staged) == U.Content(disk, staged)
    {
      if LowerHashes(hash) && NoUpper(x.sum) {
        assert NoUpper(hash(hasher));
        FoldIsEqual(hash(hasher), x.sum);
      }
      TidyingUp(disk, x.tidy);
    }

    method FinalizeWrite(x: U.FinishIn) returns (reply: U.Reply)
      requires Valid() && alive
      modifies this
      ensures Ended(old(log), old(disk), U.FinalizeWrite(hash, old(disk), old(Stream()).value, x))
      ensures reply == U.FinalizeWrite(hash, old(disk), old(Stream()).value, x).reply
      ensures LowerHashes(hash) && NoUpper(x.sum) && hash(old(hasher)) != x.sum ==>
                reply == U.Failed && !alive && forall staged :: U.Content(disk, staged) == old(U.Content(disk, staged))
    {
      Mismatch(x);
      var got := hash(hasher);
      if !EqualFold(got, x.sum) || !x.synced {
        CleanUp(x.tidy);
        Both(old(log), old(disk), [], U.Cleanup(x.tidy));
        return U.Failed;
      }
      Perform(U.TempSynced);
      if !x.closes {
        CleanUp(x.tidy);
        Both(old(log), old(disk), [U.TempSynced], U.Cleanup(x.tidy));
        return U.Failed;
      }
      ReplayOne(hash, old(disk), [], U.TempSynced);
      SyncedFinishes(old(disk), x);
      ghost var rest := Ending(disk, x);
      reply := FinishClosed(got, x);
      Both(old(log), old(disk), [U.TempSynced], U.Finishing(old(disk), x) + rest);
      Associates([U.TempSynced], U.Finishing(old(disk), x), rest);
    }

    // What follows the finish step: the state's removal, or a cleanup.
    ghost function Ending(d: Disk, x: U.FinishIn): seq<Effect> {
      if U.FinishWorks(d, x) then (if x.tidy.removes then [U.StateRemoved] else []) else U.Cleanup(x.tidy)
    }

    // The finish step on the synced and closed file, and what follows it.
    method FinishClosed(got: string, x: U.FinishIn) returns (reply: U.Reply)
      requires Valid() && alive
      modifies this`disk, this`log, this`alive
      ensures Did(old(log), old(disk), U.Finishing(old(disk), x) + Ending(old(disk), x)) && !alive
      ensures reply == if U.FinishWorks(old(disk), x) && x.sends
                       then U.Terminal(got, committed, U.BackingUp(old(disk), x) != []) else U.Failed
    {
      ghost var finishing, rest := U.Finishing(disk, x), Ending(disk, x);
      var backedUp, ok := FinishStep(x);
      if !ok {
        CleanUp(x.tidy);
        Both(old(log), old(disk), finishing, rest);
        return U.Failed;
      }
      alive := false;
      if x.tidy.removes {
        Perform(U.StateRemoved);
      }
      Both(old(log), old(disk), finishing, rest);
      return if x.sends then U.Terminal(got, committed, backedUp) else U.Failed;
    }
  }
}
