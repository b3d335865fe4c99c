/**
 What a resumable upload keeps over every run of streams, checkpoints, errors,
 crashes and resumes.
 */
module UploadProofs {
  import opened Common
  import opened Text
  import opened Upload

  // ---- What every file operation keeps ----

  /**
   No offset in the state file, nor any a crash may bring back, is past the bytes
   a crash cannot take; those bytes are the ones the client sent; and a file that
   has reached its final name is whole, durable and has the Final's checksum.
   */
  predicate Sound(hash: Bytes -> string, d: Disk, sent: Bytes) {
    && d.places != [] && d.states != []
    && d.floor <= d.content && d.floor <= sent
    && (d.clean ==> d.floor == d.content)
    && (forall v :: v in d.states && v.Some? ==> v.value <= |d.floor| && (Offset(d).Some? ==> v.value <= Offset(d).value))
    && (forall p :: p in d.places && p.Installed? ==>
          Where(d).Installed? && d.clean && d.content == sent && EqualFold(hash(sent), p.sum))
  }

  predicate EffectOk(hash: Bytes -> string, d: Disk, sent: Bytes, e: Effect) {
    match e
    case TempCreated => !Where(d).Installed? && forall v :: v in d.states ==> v.None?
    case Appended(_) => !Where(d).Installed?
    case TempSynced => !Where(d).Installed? && d.content <= sent
    case Truncated(n) => !Where(d).Installed? && Offset(d) == Some(n)
    case StateSet(k) => k <= |d.floor| && forall v :: v in d.states && v.Some? ==> v.value <= k
    case RenamedTo(p) =>
      Where(d).AtTemp? ==> p.Installed? && d.clean && d.content == sent && EqualFold(hash(sent), p.sum)
    case _ => true
  }

  // What no operation of the transfer changes.
  predicate SamePrior(d: Disk, was: Disk) {
    d.target == was.target && d.staged == was.staged && d.binds == was.binds
  }

  lemma EffectKeeps(hash: Bytes -> string, d: Disk, sent: Bytes, e: Effect)
    requires Sound(hash, d, sent) && EffectOk(hash, d, sent, e)
    ensures Sound(hash, Apply(d, e), sent)
    ensures SamePrior(Apply(d, e), d)
  {
    match e
    case Truncated(n) => TruncatedKeeps(hash, d, sent, n);
    case StateSet(_) => OffsetKeeps(hash, d, sent, e);
    case StateDirSynced => OffsetKeeps(hash, d, sent, e);
    case StateRemoved => OffsetKeeps(hash, d, sent, e);
    case TempUnlinked => NameKeeps(hash, d, sent, e);
    case DirSynced => NameKeeps(hash, d, sent, e);
    case RenamedTo(_) => NameKeeps(hash, d, sent, e);
    case _ =>
  }

  lemma TruncatedKeeps(hash: Bytes -> string, d: Disk, sent: Bytes, n: nat)
    requires Sound(hash, d, sent) && EffectOk(hash, d, sent, Truncated(n))
    ensures Sound(hash, Apply(d, Truncated(n)), sent) && SamePrior(Apply(d, Truncated(n)), d)
  {
    assert d.content[..n][..n] == d.floor[..n];
    PrefixTrans(d.floor[..n], d.floor, sent);
  }

  lemma OffsetKeeps(hash: Bytes -> string, d: Disk, sent: Bytes, e: Effect)
    requires Sound(hash, d, sent) && EffectOk(hash, d, sent, e) && (e.StateSet? || e.StateDirSynced? || e.StateRemoved?)
    ensures Sound(hash, Apply(d, e), sent) && SamePrior(Apply(d, e), d)
  {
    assert Offset(d) in d.states;
  }

  lemma NameKeeps(hash: Bytes -> string, d: Disk, sent: Bytes, e: Effect)
    requires Sound(hash, d, sent) && EffectOk(hash, d, sent, e) && (e.TempUnlinked? || e.DirSynced? || e.RenamedTo?)
    ensures Sound(hash, Apply(d, e), sent) && SamePrior(Apply(d, e), d)
  {
    assert Where(d) in d.places;
    if e.RenamedTo? && Where(d).AtTemp? {
      assert forall q :: q in d.places ==> !q.Installed?;
    }
  }

  predicate OkFrom(hash: Bytes -> string, d: Disk, sent: Bytes, effects: seq<Effect>)
    decreases effects
  {
    effects == [] || (EffectOk(hash, d, sent, effects[0]) && OkFrom(hash, Apply(d, effects[0]), sent, effects[1..]))
  }

  lemma {:induction false} SoundKept(hash: Bytes -> string, d: Disk, sent: Bytes, effects: seq<Effect>)
    requires Sound(hash, d, sent) && OkFrom(hash, d, sent, effects)
    ensures Sound(hash, Replay(d, effects), sent)
    ensures SamePrior(Replay(d, effects), d)
    decreases effects
  {
    if effects != [] {
      EffectKeeps(hash, d, sent, effects[0]);
      SoundKept(hash, Apply(d, effects[0]), sent, effects[1..]);
    }
  }

  lemma {:induction false} ReplayConcat(hash: Bytes -> string, d: Disk, sent: Bytes, a: seq<Effect>, b: seq<Effect>)
    ensures Replay(d, a + b) == Replay(Replay(d, a), b)
    ensures OkFrom(hash, d, sent, a + b) <==> OkFrom(hash, d, sent, a) && OkFrom(hash, Replay(d, a), sent, b)
    decreases a
  {
    if a == [] {
      assert a + b == b;
    } else {
      assert (a + b)[1..] == a[1..] + b;
      ReplayConcat(hash, Apply(d, a[0]), sent, a[1..], b);
    }
  }

  lemma ReplayOne(hash: Bytes -> string, d: Disk, sent: Bytes, e: Effect)
    ensures Replay(d, [e]) == Apply(d, e)
    ensures OkFrom(hash, d, sent, [e]) <==> EffectOk(hash, d, sent, e)
  {
    assert [e][1..] == [];
  }

  lemma ReplayTwo(hash: Bytes -> string, d: Disk, sent: Bytes, e: Effect, f: Effect)
    ensures Replay(d, [e, f]) == Apply(Apply(d, e), f)
    ensures OkFrom(hash, d, sent, [e, f]) <==> EffectOk(hash, d, sent, e) && EffectOk(hash, Apply(d, e), sent, f)
  {
    assert [e, f][1..] == [f];
    ReplayOne(hash, Apply(d, e), sent, f);
  }

  lemma OkPrefix(hash: Bytes -> string, d: Disk, sent: Bytes, effects: seq<Effect>, n: nat)
    requires OkFrom(hash, d, sent, effects) && n <= |effects|
    ensures OkFrom(hash, d, sent, effects[..n])
  {
    assert effects == effects[..n] + effects[n..];
    ReplayConcat(hash, d, sent, effects[..n], effects[n..]);
  }

  // ---- What every command keeps ----

  predicate LiveOk(s: Sys, m: Live) {
    && m.absorbed == s.disk.content == s.sent
    && m.committed == |s.sent| == s.acked
    && m.lastChkpt <= m.committed < m.lastChkpt + CHECKPOINT_INTERVAL
    && (forall v :: v in s.disk.states && v.Some? ==> v.value <= m.lastChkpt)
    && (Offset(s.disk).Some? ==> Offset(s.disk).value == m.lastChkpt)
    && !Where(s.disk).Installed?
  }

  predicate Good(hash: Bytes -> string, s: Sys) {
    && Sound(hash, s.disk, s.sent)
    && (s.live.Some? ==> s.begun && LiveOk(s, s.live.value))
    && (!s.begun ==> s == Fresh(s.disk.binds, s.disk.target, s.disk.staged))
  }

  // Cleanup, wherever it happens, is allowed and leaves the content alone.
  lemma CleanupOk(hash: Bytes -> string, d: Disk, sent: Bytes, t: Tidy)
    ensures OkFrom(hash, d, sent, Cleanup(t))
  {
    var unlinking := if t.unlinks then [TempUnlinked] else [];
    var removing := if t.removes then [StateRemoved] else [];
    ReplayConcat(hash, d, sent, unlinking, removing);
    ReplayOne(hash, d, sent, TempUnlinked);
    ReplayOne(hash, Replay(d, unlinking), sent, StateRemoved);
  }

  lemma GivingUpOk(hash: Bytes -> string, d: Disk, sent: Bytes, effects: seq<Effect>, t: Tidy)
    requires OkFrom(hash, d, sent, effects)
    ensures OkFrom(hash, d, sent, GivingUp(effects, t).effects)
  {
    ReplayConcat(hash, d, sent, effects, Cleanup(t));
    CleanupOk(hash, Replay(d, effects), sent, t);
  }

  lemma SavingOk(hash: Bytes -> string, d: Disk, sent: Bytes, k: nat, save: Save)
    requires EffectOk(hash, d, sent, StateSet(k))
    ensures OkFrom(hash, d, sent, Saving(k, save))
    ensures var after := Replay(d, Saving(k, save));
            && after == d.(states := after.states)
            && (save.Saved? ==> after.states == [Some(k)])
            && (save.Unsaved? ==> after.states == d.states)
  {
    ReplayOne(hash, d, sent, StateSet(k));
    ReplayTwo(hash, d, sent, StateSet(k), StateDirSynced);
  }

  lemma PersistOk(hash: Bytes -> string, d: Disk, sent: Bytes, k: nat, synced: bool, save: Save)
    requires !Where(d).Installed? && d.content == sent && k == |sent|
    requires forall v :: v in d.states && v.Some? ==> v.value <= k
    ensures OkFrom(hash, d, sent, Persist(k, synced, save))
    ensures synced && save.Saved? ==>
              Replay(d, Persist(k, synced, save)) == d.(floor := sent, clean := true, places := Bound(d), states := [Some(k)])
  {
    if synced {
      ReplayConcat(hash, d, sent, [TempSynced], Saving(k, save));
      ReplayOne(hash, d, sent, TempSynced);
      SavingOk(hash, Apply(d, TempSynced), sent, k, save);
    }
  }

  lemma OpenOk(hash: Bytes -> string, s: Sys, creates: bool, save: Save, acks: bool, tidy: Tidy)
    requires Good(hash, s) && !s.begun
    ensures OkFrom(hash, s.disk, s.sent, OpenWrite(creates, save, acks, tidy).effects)
    ensures OpenWrite(creates, save, acks, tidy).live.Some? ==>
              LiveOk(Next(hash, s, Done(Open(creates, save, acks, tidy))), Live(0, 0, []))
  {
    if creates {
      var made := [TempCreated] + Saving(0, save);
      ReplayOne(hash, s.disk, s.sent, TempCreated);
      ReplayConcat(hash, s.disk, s.sent, [TempCreated], Saving(0, save));
      var d := Apply(s.disk, TempCreated);
      SavingOk(hash, d, s.sent, 0, save);
      GivingUpOk(hash, s.disk, s.sent, made, tidy);
      var unlinking := if tidy.unlinks then [TempUnlinked] else [];
      ReplayConcat(hash, s.disk, s.sent, made, unlinking);
      ReplayOne(hash, Replay(s.disk, made), s.sent, TempUnlinked);
    }
  }

  // Cutting the file at the offset in the state file never makes it longer, and
  // leaves what was sent up to there, all of it out of a crash's reach.
  lemma TruncateOk(hash: Bytes -> string, d: Disk, sent: Bytes, k: nat)
    requires Sound(hash, d, sent) && !Where(d).Installed? && Offset(d) == Some(k)
    ensures k <= |d.content| && k <= |sent|
    ensures var after := Apply(d, Truncated(k));
            after == d.(content := sent[..k], floor := sent[..k], clean := false)
    ensures Sound(hash, Apply(d, Truncated(k)), sent[..k])
  {
    assert Offset(d) in d.states;
    assert d.content[..k] == d.floor[..k] == sent[..k];
  }

  // Resume truncates to the offset the state file gives.
  lemma ResumeOk(hash: Bytes -> string, s: Sys, x: ResumeIn)
    requires Good(hash, s) && s.live.None? && s.begun
    ensures OkFrom(hash, s.disk, s.sent, ResumeWrite(s.disk, x).effects)
    ensures forall e :: e in ResumeWrite(s.disk, x).effects && e.Truncated? ==> e.size <= |s.disk.content|
  {
    var r := ResumeWrite(s.disk, x);
    if r.effects != [] {
      var k := Offset(s.disk).value;
      TruncateOk(hash, s.disk, s.sent, k);
      ReplayOne(hash, s.disk, s.sent, Truncated(k));
      GivingUpOk(hash, s.disk, s.sent, [Truncated(k)], x.tidy);
    }
  }

  lemma ResumeLives(hash: Bytes -> string, s: Sys, x: ResumeIn)
    requires Good(hash, s) && s.live.None? && s.begun && ResumeWrite(s.disk, x).live.Some?
    ensures Good(hash, Next(hash, s, Done(Resume(x))))
  {
    var k := Offset(s.disk).value;
    TruncateOk(hash, s.disk, s.sent, k);
    ReplayOne(hash, s.disk, s.sent, Truncated(k));
    var after := Next(hash, s, Done(Resume(x)));
    assert after.disk == Apply(s.disk, Truncated(k)) && after.sent == s.sent[..k];
    assert s.sent[..k][..k] == s.sent[..k];
    assert after.live == Some(Live(k, k, s.sent[..k])) && after.acked == k;
  }

  lemma WritingOk(hash: Bytes -> string, d: Disk, m: Live, sent: Bytes, x: ChunkIn)
    requires !Where(d).Installed? && d.content + x.data == sent && m.committed + |x.data| == |sent|
    requires forall v :: v in d.states && v.Some? ==> v.value <= |sent|
    ensures OkFrom(hash, d, sent, Writing(m, x))
    ensures !Due(m, x) ==> Replay(d, Writing(m, x)) == d.(content := sent, clean := false)
    ensures Due(m, x) && x.synced && x.save.Saved? ==>
              Replay(d, Writing(m, x)) == d.(content := sent, floor := sent, clean := true, places := Bound(d), states := [Some(|sent|)])
  {
    var written := d.(content := sent, clean := false);
    ReplayOne(hash, d, sent, Appended(x.data));
    if Due(m, x) {
      PersistOk(hash, written, sent, |sent|, x.synced, x.save);
      ReplayConcat(hash, d, sent, [Appended(x.data)], Persist(|sent|, x.synced, x.save));
    } else {
      assert Writing(m, x) == [Appended(x.data)];
    }
  }

  lemma ChunkOk(hash: Bytes -> string, s: Sys, x: ChunkIn)
    requires Good(hash, s) && s.live.Some?
    ensures OkFrom(hash, s.disk, Sending(s, Chunk(x)), WriteChunk(s.live.value, x).effects)
  {
    var sent := Sending(s, Chunk(x));
    var partial := Appended(x.data[..Min(x.partial, |x.data|)]);
    ReplayOne(hash, s.disk, sent, partial);
    GivingUpOk(hash, s.disk, sent, [], x.tidy);
    GivingUpOk(hash, s.disk, sent, [partial], x.tidy);
    if x.offset == s.live.value.committed && x.written {
      WritingOk(hash, s.disk, s.live.value, sent, x);
      GivingUpOk(hash, s.disk, sent, Writing(s.live.value, x), x.tidy);
    }
  }

  lemma ChunkLives(hash: Bytes -> string, s: Sys, x: ChunkIn)
    requires Good(hash, s) && s.live.Some? && WriteChunk(s.live.value, x).live.Some?
    ensures LiveOk(Next(hash, s, Done(Chunk(x))), WriteChunk(s.live.value, x).live.value)
  {
    WritingOk(hash, s.disk, s.live.value, Sending(s, Chunk(x)), x);
  }

  lemma OnlyBackups(hash: Bytes -> string, d: Disk, sent: Bytes, x: FinishIn)
    ensures OkFrom(hash, d, sent, BackingUp(d, x))
    ensures Replay(d, BackingUp(d, x)) == d.(backup := if BackingUp(d, x) == [] then d.backup else Content(d, false))
  {
    if BackingUp(d, x) != [] {
      ReplayOne(hash, d, sent, BackingUp(d, x)[0]);
    }
  }

  lemma FinishingOk(hash: Bytes -> string, d: Disk, sent: Bytes, x: FinishIn)
    requires d.clean && d.content == sent && EqualFold(hash(sent), x.sum)
    ensures OkFrom(hash, d, sent, Finishing(d, x))
    ensures FinishWorks(d, x) ==>
              Replay(d, Finishing(d, x)) == d.(backup := if BackingUp(d, x) == [] then d.backup else Content(d, false),
                                               places := [Installed(x.step.Stage?, x.sum)])
  {
    var place := Installed(x.step.Stage?, x.sum);
    var backing, renaming := BackingUp(d, x), if Where(d).AtTemp? then Renaming(place, x) else [];
    OnlyBackups(hash, d, sent, x);
    var b := Replay(d, backing);
    ReplayConcat(hash, d, sent, backing, renaming);
    ReplayOne(hash, b, sent, RenamedTo(place));
    ReplayTwo(hash, b, sent, RenamedTo(place), DirSynced);
  }

  // The first fsync of a Final changes nothing the finish step looks at.
  lemma SyncedFinishes(d: Disk, x: FinishIn)
    ensures var synced := Apply(d, TempSynced);
            && Where(synced) == Where(d) && (forall staged :: Content(synced, staged) == Content(d, staged))
            && Finishing(synced, x) == Finishing(d, x) && BackingUp(synced, x) == BackingUp(d, x)
            && (FinishWorks(synced, x) <==> FinishWorks(d, x)) && (BackupWorks(synced, x) <==> BackupWorks(d, x))
  {
  }

  lemma FinishOk(hash: Bytes -> string, d: Disk, m: Live, x: FinishIn)
    requires !Where(d).Installed? && d.content == m.absorbed
    ensures OkFrom(hash, d, m.absorbed, FinalizeWrite(hash, d, m, x).effects)
  {
    var sent := m.absorbed;
    if EqualFold(hash(sent), x.sum) && x.synced {
      var synced := Apply(d, TempSynced);
      ReplayOne(hash, d, sent, TempSynced);
      GivingUpOk(hash, d, sent, [TempSynced], x.tidy);
      FinishingOk(hash, synced, sent, x);
      SyncedFinishes(d, x);
      ReplayConcat(hash, d, sent, [TempSynced], Finishing(d, x));
      EndingOk(hash, d, sent, [TempSynced] + Finishing(d, x), x.tidy);
    } else {
      GivingUpOk(hash, d, sent, [], x.tidy);
    }
  }

  // Allowed operations may be followed by a cleanup, or by the state's removal.
  lemma EndingOk(hash: Bytes -> string, d: Disk, sent: Bytes, effects: seq<Effect>, t: Tidy)
    requires OkFrom(hash, d, sent, effects)
    ensures OkFrom(hash, d, sent, GivingUp(effects, t).effects)
    ensures OkFrom(hash, d, sent, effects + if t.removes then [StateRemoved] else [])
  {
    GivingUpOk(hash, d, sent, effects, t);
    ReplayConcat(hash, d, sent, effects, if t.removes then [StateRemoved] else []);
    ReplayOne(hash, Replay(d, effects), sent, StateRemoved);
  }

  // Cleanup takes the temp name and the state away, not the bytes, and no name
  // the file has been installed under.
  lemma TidyingUp(d: Disk, t: Tidy)
    ensures var after := Replay(d, Cleanup(t));
            && after == d.(places := after.places, states := after.states)
            && (Where(after) == Where(d) || (Where(d).AtTemp? && Where(after).Nowhere?))
            && (forall v :: v in after.states && v.Some? ==> v in d.states)
            && (Offset(after) == Offset(d) || Offset(after) == None)
  {
    var unlinking := if t.unlinks then [TempUnlinked] else [];
    var removing := if t.removes then [StateRemoved] else [];
    ReplayConcat(_ => "", d, [], unlinking, removing);
    ReplayOne(_ => "", d, [], TempUnlinked);
    ReplayOne(_ => "", Replay(d, unlinking), [], StateRemoved);
  }

  lemma EffectsOk(hash: Bytes -> string, s: Sys, c: Command)
    requires Good(hash, s)
    ensures OkFrom(hash, s.disk, Sending(s, c), Run(hash, s, c).effects)
  {
    match c {
      case Open(creates, save, acks, tidy) => if !s.begun { OpenOk(hash, s, creates, save, acks, tidy); }
      case Resume(x) => if s.live.None? && s.begun { ResumeOk(hash, s, x); }
      case Cancel(tidy) => CleanupOk(hash, s.disk, s.sent, tidy);
      case Chunk(x) => if s.live.Some? { ChunkOk(hash, s, x); }
      case RecvError(synced, save) =>
        if s.live.Some? { PersistOk(hash, s.disk, s.sent, s.live.value.committed, synced, save); }
      case Abort(tidy) => GivingUpOk(hash, s.disk, s.sent, [], tidy);
      case Finish(x) => if s.live.Some? { FinishOk(hash, s.disk, s.live.value, x); }
    }
  }

  // The stream that is there after the command, if any.
  lemma StreamOk(hash: Bytes -> string, s: Sys, c: Command)
    requires Good(hash, s) && Run(hash, s, c).live.Some?
    ensures LiveOk(Next(hash, s, Done(c)), Run(hash, s, c).live.value)
  {
    match c {
      case Open(creates, save, acks, tidy) => if !s.begun { OpenOk(hash, s, creates, save, acks, tidy); }
      case Resume(x) => if s.live.None? { ResumeLives(hash, s, x); }
      case Cancel(tidy) => TidyingUp(s.disk, tidy);
      case Chunk(x) => ChunkLives(hash, s, x);
      case _ =>
    }
  }

  lemma SendingIsSound(hash: Bytes -> string, s: Sys, c: Command)
    requires Good(hash, s)
    ensures Sound(hash, s.disk, Sending(s, c))
  {
  }

  // The disk after a command, against what the client has sent by then.
  lemma DoneIsSound(hash: Bytes -> string, s: Sys, c: Command)
    requires Good(hash, s)
    ensures Sound(hash, Replay(s.disk, Run(hash, s, c).effects), Sending(s, c))
    ensures SamePrior(Replay(s.disk, Run(hash, s, c).effects), s.disk)
  {
    SendingIsSound(hash, s, c);
    EffectsOk(hash, s, c);
    SoundKept(hash, s.disk, Sending(s, c), Run(hash, s, c).effects);
  }

  // Only a resume takes back what was sent; opening starts from nothing.
  lemma SentStays(hash: Bytes -> string, s: Sys, c: Command)
    requires Good(hash, s) && !(c.Resume? && Run(hash, s, c).reply.Ack?)
    ensures Sent(Sending(s, c), Run(hash, s, c).reply) == Sending(s, c)
  {
  }

  lemma DoneKeeps(hash: Bytes -> string, s: Sys, c: Command)
    requires Good(hash, s)
    ensures Good(hash, Next(hash, s, Done(c)))
    ensures SamePrior(Next(hash, s, Done(c)).disk, s.disk)
  {
    DoneIsSound(hash, s, c);
    if c.Resume? && Run(hash, s, c).reply.Ack? {
      ResumeLives(hash, s, c.resume);
    } else {
      SentStays(hash, s, c);
      OthersKeep(hash, s, c);
    }
  }

  lemma OthersKeep(hash: Bytes -> string, s: Sys, c: Command)
    requires Good(hash, s) && Sent(Sending(s, c), Run(hash, s, c).reply) == Sending(s, c)
    requires Sound(hash, Replay(s.disk, Run(hash, s, c).effects), Sending(s, c))
    ensures Good(hash, Next(hash, s, Done(c)))
  {
    var after := Next(hash, s, Done(c));
    assert after.disk == Replay(s.disk, Run(hash, s, c).effects) && after.sent == Sending(s, c);
    if after.live.Some? {
      StreamOk(hash, s, c);
      BegunBy(hash, s, c);
    }
  }

  lemma BegunBy(hash: Bytes -> string, s: Sys, c: Command)
    requires Good(hash, s) && Run(hash, s, c).live.Some?
    ensures s.begun || c.Open?
  {
  }

  // The disk a crash finds is as sound as one between two commands.
  lemma CrashOk(hash: Bytes -> string, s: Sys, c: Command, cut: nat)
    requires Good(hash, s)
    ensures Sound(hash, AtCrash(hash, s, c, cut), Sending(s, c))
    ensures SamePrior(AtCrash(hash, s, c, cut), s.disk)
    ensures !s.begun && !c.Open? ==> AtCrash(hash, s, c, cut) == s.disk
  {
    var sent, effects := Sending(s, c), Run(hash, s, c).effects;
    EffectsOk(hash, s, c);
    SendingIsSound(hash, s, c);
    OkPrefix(hash, s.disk, sent, effects, Min(cut, |effects|));
    SoundKept(hash, s.disk, sent, effects[..Min(cut, |effects|)]);
  }

  lemma RecoveredIsSound(hash: Bytes -> string, d: Disk, sent: Bytes, left: Recovery)
    requires Sound(hash, d, sent) && CanLeave(d, left)
    ensures Sound(hash, Recovered(d, left), sent)
  {
  }

  lemma NextKeeps(hash: Bytes -> string, s: Sys, e: Event)
    requires Good(hash, s) && Possible(hash, s, e)
    ensures Good(hash, Next(hash, s, e))
    ensures SamePrior(Next(hash, s, e).disk, s.disk)
  {
    match e
    case Done(c) => DoneKeeps(hash, s, c);
    case Crashed(c, cut, left) =>
      CrashOk(hash, s, c, cut);
      RecoveredIsSound(hash, AtCrash(hash, s, c, cut), Sending(s, c), left);
  }

  lemma {:induction false} RunKeeps(hash: Bytes -> string, s: Sys, events: seq<Event>)
    requires Good(hash, s) && Feasible(hash, s, events)
    ensures Good(hash, After(hash, s, events))
    ensures SamePrior(After(hash, s, events).disk, s.disk)
    decreases events
  {
    if events != [] {
      NextKeeps(hash, s, events[0]);
      RunKeeps(hash, Next(hash, s, events[0]), events[1..]);
    }
  }

  // ---- The hash state ----

  // In every run the live hasher has absorbed exactly the bytes the client has
  // sent, which are exactly the file, up to the committed offset.
  lemma HasherFollowsFile(hash: Bytes -> string, binds: bool, target: Option<Bytes>, staged: Option<Bytes>, events: seq<Event>)
    requires Feasible(hash, Fresh(binds, target, staged), events)
    ensures var s := After(hash, Fresh(binds, target, staged), events);
            s.live.Some? ==>
              && s.live.value.absorbed == s.disk.content == s.sent
              && s.live.value.committed == |s.sent|
  {
    RunKeeps(hash, Fresh(binds, target, staged), events);
  }

  // The chunk carries the bytes of `data` at its offset.
  predicate Carries(c: Command, data: Bytes) {
    c.Chunk? ==> c.chunk.data <= data[Min(c.chunk.offset, |data|)..]
  }

  lemma StepSends(hash: Bytes -> string, s: Sys, e: Event, data: Bytes)
    requires Good(hash, s) && s.sent <= data && Carries(e.command, data)
    ensures Next(hash, s, e).sent <= data
  {
    var sending := Sending(s, e.command);
    SendingFrom(hash, s, e.command, data);
    if e.Done? && Run(hash, s, e.command).reply.Ack? {
      var k := Min(Run(hash, s, e.command).reply.committed, |sending|);
      assert sending[..k] <= sending;
      PrefixTrans(sending[..k], sending, data);
    }
  }

  lemma {:induction false} SendsFrom(hash: Bytes -> string, s: Sys, events: seq<Event>, data: Bytes)
    requires Good(hash, s) && Feasible(hash, s, events) && s.sent <= data
    requires forall e :: e in events ==> Carries(e.command, data)
    ensures After(hash, s, events).sent <= data
    decreases events
  {
    if events != [] {
      var e := events[0];
      assert e in events;
      NextKeeps(hash, s, e);
      StepSends(hash, s, e, data);
      SendsFrom(hash, Next(hash, s, e), events[1..], data);
    }
  }

  lemma SendingFrom(hash: Bytes -> string, s: Sys, c: Command, data: Bytes)
    requires Good(hash, s) && s.sent <= data && Carries(c, data)
    ensures Sending(s, c) <= data
  {
    var sending := Sending(s, c);
    if sending != s.sent {
      var n := |s.sent|;
      assert data == data[..n] + data[n..];
      assert data[..n + |c.chunk.data|] == data[..n] + data[n..][..|c.chunk.data|];
    }
  }

  // However often the upload of `data` broke, crashed and resumed, the hasher is
  // in the state an uninterrupted upload has at the same offset.
  lemma SameHashAsUninterrupted(hash: Bytes -> string, binds: bool, target: Option<Bytes>, staged: Option<Bytes>,
                                events: seq<Event>, data: Bytes)
    requires Feasible(hash, Fresh(binds, target, staged), events)
    requires forall e :: e in events ==> Carries(e.command, data)
    ensures var s := After(hash, Fresh(binds, target, staged), events);
            s.live.Some? ==>
              && s.live.value.committed <= |data|
              && s.live.value.absorbed == data[..s.live.value.committed]
              && (s.live.value.committed == |data| ==> hash(s.live.value.absorbed) == hash(data))
  {
    SendsFrom(hash, Fresh(binds, target, staged), events, data);
    HasherFollowsFile(hash, binds, target, staged, events);
    assert data[..|data|] == data;
  }

  // ---- Crashes ----

  // Wherever a crash hits, an offset it may leave in the state file is covered
  // by the file's content it may leave, and the content agrees with what was sent
  // up to there. Whether the file still has a name is another matter: a crash may
  // leave the offset and take the name, see UploadLoss.
  lemma OffsetIsDurable(hash: Bytes -> string, binds: bool, target: Option<Bytes>, staged: Option<Bytes>, events: seq<Event>,
                        c: Command, cut: nat, left: Recovery)
    requires Feasible(hash, Fresh(binds, target, staged), events + [Crashed(c, cut, left)])
    ensures var s := After(hash, Fresh(binds, target, staged), events);
            left.state.Some? ==>
              && left.state.value <= |left.content| && left.state.value <= |Sending(s, c)|
              && left.content[..left.state.value] == Sending(s, c)[..left.state.value]
  {
    LastEvent(hash, Fresh(binds, target, staged), events, Crashed(c, cut, left));
    RunKeeps(hash, Fresh(binds, target, staged), events);
    var s := After(hash, Fresh(binds, target, staged), events);
    CrashOk(hash, s, c, cut);
    if left.state.Some? {
      var floor := AtCrash(hash, s, c, cut).floor;
      assert left.content[..left.state.value] == floor[..left.state.value];
    }
  }

  lemma {:induction false} LastEvent(hash: Bytes -> string, s: Sys, events: seq<Event>, e: Event)
    ensures Feasible(hash, s, events + [e]) <==> Feasible(hash, s, events) && Possible(hash, After(hash, s, events), e)
    ensures After(hash, s, events + [e]) == Next(hash, After(hash, s, events), e)
    decreases events
  {
    if events == [] {
      assert events + [e] == [e] && [e][1..] == [];
    } else {
      assert (events + [e])[1..] == events[1..] + [e];
      LastEvent(hash, Next(hash, s, events[0]), events[1..], e);
    }
  }

  // A resume never makes the file longer, so it never hashes bytes nobody sent.
  lemma ResumeNeverExtends(hash: Bytes -> string, binds: bool, target: Option<Bytes>, staged: Option<Bytes>, events: seq<Event>,
                           x: ResumeIn, n: nat)
    requires Feasible(hash, Fresh(binds, target, staged), events)
    requires Truncated(n) in Run(hash, After(hash, Fresh(binds, target, staged), events), Resume(x)).effects
    ensures n <= |After(hash, Fresh(binds, target, staged), events).disk.content|
  {
    RunKeeps(hash, Fresh(binds, target, staged), events);
    var s := After(hash, Fresh(binds, target, staged), events);
    if s.live.None? && s.begun {
      ResumeOk(hash, s, x);
    }
  }

  // ---- Installation ----

  // In every run and at every crash point each of the two paths an upload may
  // finish into holds what it held before, or everything that was sent, durable
  // and with the checksum of the Final that installed it.
  lemma InstalledIsWhole(hash: Bytes -> string, binds: bool, target: Option<Bytes>, staged: Option<Bytes>, events: seq<Event>,
                         inStaged: bool)
    requires Feasible(hash, Fresh(binds, target, staged), events)
    ensures var s := After(hash, Fresh(binds, target, staged), events);
            || Content(s.disk, inStaged) == (if inStaged then staged else target)
            || (&& Content(s.disk, inStaged) == Some(s.sent)
                && Where(s.disk).Installed? && EqualFold(hash(s.sent), Where(s.disk).sum)
                && s.disk.clean)
  {
    RunKeeps(hash, Fresh(binds, target, staged), events);
    assert Where(After(hash, Fresh(binds, target, staged), events).disk) in After(hash, Fresh(binds, target, staged), events).disk.places;
  }

  // The finish step renames exactly when what comes before it works.
  lemma FinishingLeaves(d: Disk, x: FinishIn)
    requires !Where(d).Installed?
    ensures var after := Replay(d, Finishing(d, x));
            && after == d.(places := after.places, backup := after.backup)
            && Where(after) == (if !x.step.Unspecified? && BackupWorks(d, x) && Where(d).AtTemp? && x.renames
                                then Installed(x.step.Stage?, x.sum) else Where(d))
            && (BackingUp(d, x) != [] ==> after.backup == Content(d, false))
  {
    var place := Installed(x.step.Stage?, x.sum);
    var backing, renaming := BackingUp(d, x), if Where(d).AtTemp? then Renaming(place, x) else [];
    OnlyBackups(_ => "", d, [], x);
    var b := Replay(d, backing);
    ReplayConcat(_ => "", d, [], backing, renaming);
    ReplayOne(_ => "", b, [], RenamedTo(place));
    ReplayTwo(_ => "", b, [], RenamedTo(place), DirSynced);
  }

  // The disk after a Final whose checksum matches and whose first fsync works.
  lemma FinishSteps(hash: Bytes -> string, d: Disk, m: Live, x: FinishIn)
    requires EqualFold(hash(m.absorbed), x.sum) && x.synced && !Where(d).Installed?
    ensures var after := Replay(d, FinalizeWrite(hash, d, m, x).effects);
            && after == d.(floor := d.content, clean := true, backup := after.backup, places := after.places, states := after.states)
            && (Where(after).Installed? <==>
                x.closes && !x.step.Unspecified? && BackupWorks(d, x) && Where(d).AtTemp? && x.renames)
            && (Where(after).Installed? ==> Where(after) == Installed(x.step.Stage?, x.sum))
            && (x.closes && BackingUp(d, x) != [] ==> after.backup == Content(d, false))
  {
    var first := [TempSynced] + if x.closes then Finishing(d, x) else [];
    var rest := if x.closes && FinishWorks(d, x) then (if x.tidy.removes then [StateRemoved] else []) else Cleanup(x.tidy);
    FinishSplits(hash, d, m, x);
    SyncThenFinish(hash, d, x);
    ReplayConcat(hash, d, [], first, rest);
    EndingLeaves(hash, Replay(d, first), x.tidy);
  }

  // What such a Final does: fsync and finish step, then cleanup or removal.
  lemma FinishSplits(hash: Bytes -> string, d: Disk, m: Live, x: FinishIn)
    requires EqualFold(hash(m.absorbed), x.sum) && x.synced
    ensures FinalizeWrite(hash, d, m, x).effects
         == ([TempSynced] + if x.closes then Finishing(d, x) else [])
            + if x.closes && FinishWorks(d, x) then (if x.tidy.removes then [StateRemoved] else []) else Cleanup(x.tidy)
  {
  }

  lemma SyncThenFinish(hash: Bytes -> string, d: Disk, x: FinishIn)
    requires !Where(d).Installed?
    ensures var after := Replay(d, [TempSynced] + if x.closes then Finishing(d, x) else []);
            && after == d.(floor := d.content, clean := true, backup := after.backup, places := after.places)
            && Where(after) == (if x.closes && !x.step.Unspecified? && BackupWorks(d, x) && Where(d).AtTemp? && x.renames
                                then Installed(x.step.Stage?, x.sum) else Where(d))
            && (x.closes && BackingUp(d, x) != [] ==> after.backup == Content(d, false))
  {
    var synced := Apply(d, TempSynced);
    SyncedFinishes(d, x);
    ReplayOne(hash, d, [], TempSynced);
    ReplayConcat(hash, d, [], [TempSynced], if x.closes then Finishing(d, x) else []);
    FinishingLeaves(synced, x);
  }

  // Neither a cleanup nor the state's removal touches an installed name.
  lemma EndingLeaves(hash: Bytes -> string, d: Disk, t: Tidy)
    ensures var after := Replay(d, Cleanup(t));
            && after == d.(places := after.places, states := after.states)
            && (Where(after) == Where(d) || (Where(d).AtTemp? && Where(after).Nowhere?))
    ensures var after := Replay(d, if t.removes then [StateRemoved] else []);
            after == d.(states := after.states)
  {
    TidyingUp(d, t);
    ReplayOne(hash, d, [], StateRemoved);
  }

  // Final installs exactly when the checksum matches and every call up to the
  // rename works. It reports a terminal exactly when the directory fsync and the
  // send work as well, and then with the length and the hash of what was sent
  // and, for SNAPSHOT_THEN_REPLACE, a backup of what the target held, if it held
  // anything.
  lemma FinishInstalls(hash: Bytes -> string, s: Sys, x: FinishIn)
    requires Good(hash, s) && s.live.Some?
    ensures var d := Next(hash, s, Done(Finish(x))).disk;
            && (Where(d).Installed? <==>
                  && EqualFold(hash(s.sent), x.sum) && x.synced && x.closes && !x.step.Unspecified?
                  && BackupWorks(s.disk, x) && Where(s.disk).AtTemp? && x.renames)
            && (Where(d).Installed? ==> Content(d, x.step.Stage?) == Some(s.sent) && Where(d).sum == x.sum)
            && (!Where(d).Installed? ==> Content(d, x.step.Stage?) == Content(s.disk, x.step.Stage?))
            && Content(d, !x.step.Stage?) == Content(s.disk, !x.step.Stage?)
    ensures var r, d := Run(hash, s, Finish(x)).reply, Next(hash, s, Done(Finish(x))).disk;
            && (r.Terminal? <==> Where(d).Installed? && x.dirSynced && x.sends)
            && (r.Terminal? ==>
                  && r.sum == hash(s.sent) && r.total == |s.sent|
                  && (r.backedUp <==> x.step.SnapshotThenReplace? && Content(s.disk, false).Some?)
                  && (r.backedUp ==> d.backup == Content(s.disk, false)))
  {
    var r := Run(hash, s, Finish(x));
    if EqualFold(hash(s.sent), x.sum) && x.synced {
      FinishSteps(hash, s.disk, s.live.value, x);
    } else {
      TidyingUp(s.disk, x.tidy);
      assert [] + Cleanup(x.tidy) == Cleanup(x.tidy);
    }
  }

  // A header that is acknowledged leaves an empty file at the temp path.
  lemma OpensAt(hash: Bytes -> string, s: Sys, tidy: Tidy)
    requires s == Fresh(s.disk.binds, s.disk.target, s.disk.staged)
    ensures var after := Next(hash, s, Done(Open(true, Saved, true, tidy)));
            && after.disk == Disk([], [], false, [Nowhere, AtTemp], [Some(0)], None, s.disk.target, s.disk.staged, s.disk.binds)
            && after.live == Some(Live(0, 0, [])) && after.sent == [] && after.acked == 0 && after.begun
  {
    ReplayConcat(hash, s.disk, [], [TempCreated], [StateSet(0), StateDirSynced]);
    ReplayOne(hash, s.disk, [], TempCreated);
    ReplayTwo(hash, Apply(s.disk, TempCreated), [], StateSet(0), StateDirSynced);
  }

  // ---- The checksum, where hashes are lower-case hex ----

  // Final installs only what has exactly the hash the client gave. With any other
  // one both paths stay as they were, there is no terminal and the stream is over.
  lemma ChecksumIsChecked(hash: Bytes -> string, s: Sys, x: FinishIn)
    requires Good(hash, s) && s.live.Some? && LowerHashes(hash) && NoUpper(x.sum)
    ensures var next := Next(hash, s, Done(Finish(x)));
            && (Where(next.disk).Installed? ==> hash(s.sent) == x.sum)
            && (hash(s.sent) != x.sum ==>
                  && (forall staged :: Content(next.disk, staged) == Content(s.disk, staged))
                  && !Run(hash, s, Finish(x)).reply.Terminal? && next.live.None?)
  {
    assert NoUpper(hash(s.sent));
    FoldIsEqual(hash(s.sent), x.sum);
    FinishInstalls(hash, s, x);
  }

  // So in every run, at every crash point, what a path holds beside its earlier
  // content has exactly the hash of the Final that installed it.
  lemma InstalledHasItsHash(hash: Bytes -> string, binds: bool, target: Option<Bytes>, staged: Option<Bytes>,
                            events: seq<Event>, inStaged: bool)
    requires Feasible(hash, Fresh(binds, target, staged), events) && LowerHashes(hash)
    ensures var d := After(hash, Fresh(binds, target, staged), events).disk;
            || Content(d, inStaged) == (if inStaged then staged else target)
            || (&& Content(d, inStaged).Some? && Where(d).Installed?
                && (NoUpper(Where(d).sum) ==> hash(Content(d, inStaged).value) == Where(d).sum))
  {
    var s := After(hash, Fresh(binds, target, staged), events);
    InstalledIsWhole(hash, binds, target, staged, events, inStaged);
    if Where(s.disk).Installed? && NoUpper(Where(s.disk).sum) {
      assert NoUpper(hash(s.sent));
      FoldIsEqual(hash(s.sent), Where(s.disk).sum);
    }
  }
}
