/** Each command of an upload from its inputs: when it is acknowledged, and what it writes. */
module UploadExact {
  import opened Common
  import opened Text
  import opened Upload
  import opened UploadProofs
  import opened UploadTrace

  // The chunk would put the offset 16 MiB or more past the last checkpoint.
  predicate AtCheckpoint(s: Sys, x: ChunkIn)
    requires s.live.Some?
  {
    |s.sent| + |x.data| - s.live.value.lastChkpt >= 16_777_216
  }

  // A chunk is acknowledged exactly when it is at the offset of what was sent, is
  // written and, at a checkpoint, fsynced and saved. The acknowledgement is the
  // new length. The state file is written at a checkpoint and at no other chunk.
  lemma ChunkIsExact(hash: Bytes -> string, s: Sys, x: ChunkIn)
    requires Good(hash, s) && s.live.Some?
    ensures var r, next := Run(hash, s, Chunk(x)), Next(hash, s, Done(Chunk(x)));
            var n := |s.sent| + |x.data|;
            && (r.reply.DataAck? <==>
                  x.offset == |s.sent| && x.written && x.acks && (AtCheckpoint(s, x) ==> x.synced && x.save.Saved?))
            && (r.reply.DataAck? ==>
                  && r.reply.offset == n && next.sent == s.sent + x.data && next.disk.content == s.disk.content + x.data
                  && next.live.Some?
                  && Offset(next.disk) == if AtCheckpoint(s, x) then Some(n) else Offset(s.disk))
            && (!r.reply.DataAck? ==> r.reply == Failed && next.live.None?)
            && ((exists e :: e in r.effects && e.StateSet?) <==>
                  x.offset == |s.sent| && x.written && AtCheckpoint(s, x) && x.synced && !x.save.Unsaved?)
            && (forall e :: e in r.effects && e.StateSet? ==> e.offset == n)
  {
    var m := s.live.value;
    CommandStates(hash, s, Chunk(x));
    ChunkSets(m, x);
    if WriteChunk(m, x).live.Some? {
      ChunkLives(hash, s, x);
      WritingOk(hash, s.disk, m, s.sent + x.data, x);
    }
  }

  // The offsets a chunk writes to the state file.
  lemma ChunkSets(m: Live, x: ChunkIn)
    ensures var effects, n := WriteChunk(m, x).effects, m.committed + |x.data|;
            && (forall e :: e in effects && e.StateSet? ==> e.offset == n)
            && ((exists e :: e in effects && e.StateSet?) <==>
                  x.offset == m.committed && x.written && Due(m, x) && x.synced && !x.save.Unsaved?)
  {
    var n := m.committed + |x.data|;
    var effects := WriteChunk(m, x).effects;
    if x.offset == m.committed && x.written {
      WritingSets(m, x);
      assert effects == Writing(m, x) || effects == Writing(m, x) + Cleanup(x.tidy);
      if Due(m, x) && x.synced && !x.save.Unsaved? {
        assert StateSet(n) in Writing(m, x);
        assert StateSet(n) in effects;
      }
    }
  }

  lemma WritingSets(m: Live, x: ChunkIn)
    ensures var n := m.committed + |x.data|;
            && (forall e :: e in Writing(m, x) && e.StateSet? ==>
                  e.offset == n && Due(m, x) && x.synced && !x.save.Unsaved?)
            && (Due(m, x) && x.synced && !x.save.Unsaved? ==> StateSet(n) in Writing(m, x))
  {
    var n := m.committed + |x.data|;
    if Due(m, x) && x.synced && !x.save.Unsaved? {
      assert Writing(m, x)[2] == StateSet(n);
    }
  }

  // An upload is opened exactly when its file can be made and its state is saved
  // and synced. It starts with an empty file and the offset zero on record.
  lemma OpenIsExact(hash: Bytes -> string, s: Sys, creates: bool, save: Save, acks: bool, tidy: Tidy)
    requires Good(hash, s) && !s.begun
    ensures var c := Open(creates, save, acks, tidy);
            var r, next := Run(hash, s, c), Next(hash, s, Done(c));
            && (r.reply.Ack? <==> creates && save.Saved? && acks)
            && (r.reply.Ack? ==>
                  && r.reply == Ack(false, 0) && next.live.Some?
                  && Offset(next.disk) == Some(0) && next.sent == [] && next.disk.content == [] && Where(next.disk).AtTemp?)
            && (!creates ==> r.effects == [])
  {
    OpensAt(hash, s, tidy);
  }

  // A resume is accepted exactly when the state file and the temp file are there
  // and every call works; it goes on from the offset in the state file. One that
  // is refused before its acknowledgement removes nothing.
  lemma ResumeIsExact(hash: Bytes -> string, s: Sys, x: ResumeIn)
    requires Good(hash, s) && s.live.None? && s.begun
    ensures var r, next := Run(hash, s, Resume(x)), Next(hash, s, Done(Resume(x)));
            var gets := x.ready && Offset(s.disk).Some? && Where(s.disk).AtTemp? && x.opens && x.truncates
                        && (Offset(s.disk).value > 0 ==> x.rehashes);
            && (r.reply.Ack? <==> gets && x.acks)
            && (r.reply.Ack? ==>
                  && r.reply == Ack(true, Offset(s.disk).value) && next.live.Some? && Offset(next.disk) == Offset(s.disk)
                  && r.reply.committed <= |s.disk.content| && next.disk.content == s.disk.content[..r.reply.committed])
            && (!gets ==> TempUnlinked !in r.effects && StateRemoved !in r.effects)
            && (gets && !x.acks ==>
                  (TempUnlinked in r.effects <==> x.tidy.unlinks) && (StateRemoved in r.effects <==> x.tidy.removes))
  {
    if Offset(s.disk).Some? {
      CleanupHas([Truncated(Offset(s.disk).value)], x.tidy);
      if Run(hash, s, Resume(x)).reply.Ack? {
        ResumeCuts(hash, s, x);
      }
    }
  }

  // An accepted resume cuts the file at the offset in the state file.
  lemma ResumeCuts(hash: Bytes -> string, s: Sys, x: ResumeIn)
    requires Good(hash, s) && s.live.None? && s.begun && Offset(s.disk).Some? && Run(hash, s, Resume(x)).reply.Ack?
    ensures var k, next := Offset(s.disk).value, Next(hash, s, Done(Resume(x)));
            && k <= |s.disk.content| && next.disk.content == s.disk.content[..k] && Offset(next.disk) == Some(k)
  {
    var k := Offset(s.disk).value;
    TruncateOk(hash, s.disk, s.sent, k);
    ReplayOne(hash, s.disk, s.sent, Truncated(k));
  }

  // Giving up removes the file and its state, as far as those calls work.
  lemma CleanupHas(before: seq<Effect>, t: Tidy)
    requires TempUnlinked !in before && StateRemoved !in before
    ensures TempUnlinked in GivingUp(before, t).effects <==> t.unlinks
    ensures StateRemoved in GivingUp(before, t).effects <==> t.removes
  {
    if t.unlinks {
      assert GivingUp(before, t).effects[|before|] == TempUnlinked;
    }
    if t.removes {
      assert GivingUp(before, t).effects[|before| + if t.unlinks then 1 else 0] == StateRemoved;
    }
  }
}
