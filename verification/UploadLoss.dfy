/**
 How much of what it acknowledged an upload can lose in a crash, and exactly when
 that is less than one checkpoint interval.
 */
module UploadLoss {
  import opened Common
  import opened Upload
  import opened UploadProofs
  import opened UploadTrace

  // Between two commands of any run the state file is less than one checkpoint
  // interval behind a live stream.
  lemma CheckpointBound(hash: Bytes -> string, binds: bool, target: Option<Bytes>, staged: Option<Bytes>, events: seq<Event>)
    requires Feasible(hash, Fresh(binds, target, staged), events)
    ensures var s := After(hash, Fresh(binds, target, staged), events);
            s.live.Some? && Offset(s.disk).Some? ==>
              0 <= s.live.value.committed - Offset(s.disk).value < CHECKPOINT_INTERVAL
  {
    RunKeeps(hash, Fresh(binds, target, staged), events);
  }

  // No state file was renamed into place with its directory left unsynced.
  predicate NoLostSync(c: Command) {
    match c
    case Open(_, save, _, _) => !save.Unsynced?
    case Chunk(x) => !x.save.Unsynced?
    case RecvError(_, save) => !save.Unsynced?
    case _ => true
  }

  // Every offset a crash may bring back is near what has been acknowledged.
  predicate Near(states: seq<Option<nat>>, acked: nat) {
    forall v :: v in states && v.Some? ==> acked - v.value < CHECKPOINT_INTERVAL
  }

  // There is only one offset a crash may bring back.
  predicate Pinned(states: seq<Option<nat>>, k: nat) {
    forall v :: v in states && v.Some? ==> v.value == k
  }

  predicate Tight(s: Sys) {
    && Near(s.disk.states, s.acked)
    && (s.live.Some? || Offset(s.disk).Some? ==> Pinned(s.disk.states, Pin(s)))
  }

  function Pin(s: Sys): nat {
    if s.live.Some? then s.live.value.lastChkpt else if Offset(s.disk).Some? then Offset(s.disk).value else 0
  }

  predicate SetsFrom(effects: seq<Effect>, low: nat) {
    forall e :: e in effects && e.StateSet? ==> e.offset >= low
  }

  lemma {:induction false} NearKept(d: Disk, effects: seq<Effect>, acked: nat)
    requires Near(d.states, acked) && SetsFrom(effects, acked)
    ensures Near(Replay(d, effects).states, acked)
    decreases effects
  {
    if effects != [] {
      assert effects[0] in effects;
      assert Offset(d).Some? ==> Offset(d) in d.states;
      NearKept(Apply(d, effects[0]), effects[1..], acked);
    }
  }

  lemma SetsConcat(a: seq<Effect>, b: seq<Effect>, low: nat)
    ensures SetsFrom(a + b, low) <==> SetsFrom(a, low) && SetsFrom(b, low)
  {
    assert forall e :: e in a ==> e in a + b;
    assert forall e :: e in b ==> e in a + b;
  }

  lemma PersistSets(k: nat, synced: bool, save: Save, low: nat)
    requires low <= k
    ensures SetsFrom(Persist(k, synced, save), low) && SetsFrom(Saving(k, save), low)
  {
    SetsConcat([TempSynced], Saving(k, save), low);
  }

  lemma GivingUpSets(effects: seq<Effect>, t: Tidy, low: nat)
    requires SetsFrom(effects, low)
    ensures SetsFrom(GivingUp(effects, t).effects, low)
  {
    SetsConcat(effects, Cleanup(t), low);
  }

  lemma OpenSets(creates: bool, save: Save, acks: bool, tidy: Tidy)
    ensures SetsFrom(OpenWrite(creates, save, acks, tidy).effects, 0)
  {
  }

  lemma ChunkSets(m: Live, x: ChunkIn)
    ensures SetsFrom(WriteChunk(m, x).effects, m.committed)
  {
    var n := m.committed + |x.data|;
    PersistSets(n, x.synced, x.save, m.committed);
    SetsConcat([Appended(x.data)], if Due(m, x) then Persist(n, x.synced, x.save) else [], m.committed);
    GivingUpSets(Writing(m, x), x.tidy, m.committed);
  }

  lemma FinishSetsNothing(hash: Bytes -> string, d: Disk, m: Live, x: FinishIn)
    ensures NoSets(FinalizeWrite(hash, d, m, x).effects)
  {
    assert NoSets(Finishing(d, x));
    assert NoSets([TempSynced] + Finishing(d, x));
  }

  // A command sets no offset below the last acknowledged one.
  lemma SetsAhead(hash: Bytes -> string, s: Sys, c: Command)
    requires Good(hash, s)
    ensures SetsFrom(Run(hash, s, c).effects, s.acked)
  {
    match c {
      case Open(creates, save, acks, tidy) => OpenSets(creates, save, acks, tidy);
      case Chunk(x) => if s.live.Some? { ChunkSets(s.live.value, x); }
      case RecvError(synced, save) =>
        if s.live.Some? { PersistSets(s.live.value.committed, synced, save, s.acked); }
      case Finish(x) => if s.live.Some? { FinishSetsNothing(hash, s.disk, s.live.value, x); }
      case _ =>
    }
  }

  predicate NoSets(effects: seq<Effect>) {
    forall e :: e in effects ==> !e.StateSet?
  }

  lemma SavedIsSynced(hash: Bytes -> string, s: Sys, c: Command)
    requires Good(hash, s) && NoLostSync(c)
    ensures SaveTried(s, c).Some? ==> !SaveTried(s, c).value.1.Unsynced?
    ensures SaveTried(s, c).Some? && SaveTried(s, c).value.0 > 0 ==> Syncs(hash, s, c)
    ensures Creates(s, c) ==> s.disk.states == [None] && (SaveTried(s, c).Some? ==> SaveTried(s, c).value.0 == 0)
  {
  }

  // The one offset after a command: the one it saved, or the one from before.
  function PinAfter(s: Sys, c: Command): nat {
    match SaveTried(s, c)
    case None => Pin(s)
    case Some((offset, save)) => if save.Saved? then offset else Pin(s)
  }

  lemma SettlingPins(states: seq<Option<nat>>, tried: Option<(nat, Save)>, forgets: bool, k: nat)
    requires Pinned(states, k) && (tried.Some? ==> !tried.value.1.Unsynced?)
    ensures Pinned(Settling(states, tried, forgets), if tried.Some? && tried.value.1.Saved? then tried.value.0 else k)
  {
  }

  // A stream's last checkpoint is that offset, less than one interval back.
  lemma StreamPins(hash: Bytes -> string, s: Sys, c: Command)
    requires Good(hash, s)
    ensures var after := Next(hash, s, Done(c));
            match after.live
            case None => after.acked == s.acked
            case Some(m) => m.lastChkpt == PinAfter(s, c) && after.acked - m.lastChkpt < CHECKPOINT_INTERVAL
  {
    var r := Run(hash, s, c);
    if r.live.Some? {
      StreamOk(hash, s, c);
      ChkptIsPin(hash, s, c);
    } else {
      NoAck(hash, s, c);
    }
  }

  lemma ChkptIsPin(hash: Bytes -> string, s: Sys, c: Command)
    requires Good(hash, s) && Run(hash, s, c).live.Some?
    ensures Run(hash, s, c).live.value.lastChkpt == PinAfter(s, c)
  {
  }

  // A command that leaves no stream acknowledges nothing.
  lemma NoAck(hash: Bytes -> string, s: Sys, c: Command)
    requires Run(hash, s, c).live.None?
    ensures Acked(s.acked, Run(hash, s, c).reply) == s.acked
  {
  }

  lemma DoneIsTight(hash: Bytes -> string, s: Sys, c: Command)
    requires Good(hash, s) && Tight(s) && NoLostSync(c)
    ensures Tight(Next(hash, s, Done(c)))
  {
    var after := Next(hash, s, Done(c));
    SetsAhead(hash, s, c);
    NearKept(s.disk, Run(hash, s, c).effects, s.acked);
    EventStates(hash, s, Done(c));
    StreamPins(hash, s, c);
    SavedIsSynced(hash, s, c);
    if s.live.Some? || Offset(s.disk).Some? || !s.begun {
      SettlingPins(s.disk.states, SaveTried(s, c), Forgets(hash, s, c), Pin(s));
      assert Pinned(after.disk.states, PinAfter(s, c));
      assert Offset(after.disk).Some? ==> Offset(after.disk) in after.disk.states;
    }
  }

  lemma {:induction false} StaysTight(hash: Bytes -> string, s: Sys, events: seq<Event>)
    requires Good(hash, s) && Tight(s) && Feasible(hash, s, events)
    requires forall e :: e in events ==> NoLostSync(e.command)
    ensures Tight(After(hash, s, events))
    decreases events
  {
    if events != [] {
      var e := events[0];
      assert e in events;
      NextKeeps(hash, s, e);
      DoneIsTight(hash, s, e.command);
      if e.Crashed? {
        CrashIsNear(hash, s, e.command, e.cut);
      }
      StaysTight(hash, Next(hash, s, e), events[1..]);
    }
  }

  lemma CrashIsNear(hash: Bytes -> string, s: Sys, c: Command, cut: nat)
    requires Good(hash, s) && Near(s.disk.states, s.acked)
    ensures Near(AtCrash(hash, s, c, cut).states, s.acked)
  {
    SetsAhead(hash, s, c);
    var effects := Run(hash, s, c).effects;
    NearKept(s.disk, effects[..Min(cut, |effects|)], s.acked);
  }

  // ---- How much a crash leaves ----

  // How much of `acked` bytes is left: all of them where the file has been
  // installed, the offset a resume goes on from where the temp file and the state
  // file are both there, and otherwise nothing, because every resume is refused.
  function Kept(left: Recovery, acked: nat): nat {
    match left.place
    case Installed(_, _) => acked
    case AtTemp => if left.state.Some? then left.state.value else 0
    case Nowhere => 0
  }

  // That is what the next stream finds.
  lemma KeptIsWhatResumes(hash: Bytes -> string, s: Sys, c: Command, cut: nat, left: Recovery)
    requires Good(hash, s) && s.begun && Possible(hash, s, Crashed(c, cut, left))
    ensures var after := Next(hash, s, Crashed(c, cut, left));
            && (left.place.AtTemp? && left.state.Some? ==>
                  Run(hash, after, ResumesWell(Tidy(true, true))).reply == Ack(true, Kept(left, s.acked)))
            && (!left.place.AtTemp? || left.state.None? ==> forall x :: !Run(hash, after, Resume(x)).reply.Ack?)
            && (left.place.Installed? ==> Content(after.disk, left.place.staged) == Some(Sending(s, c)))
  {
    CrashOk(hash, s, c, cut);
  }

  ghost predicate LittleIsLost(hash: Bytes -> string, s: Sys, c: Command, cut: nat) {
    forall left :: CanLeave(AtCrash(hash, s, c, cut), left) ==> s.acked - Kept(left, s.acked) < CHECKPOINT_INTERVAL
  }

  // An entry of the state file that is missing or far.
  predicate Bad(v: Option<nat>, acked: nat) {
    v.None? || acked - v.value >= CHECKPOINT_INTERVAL
  }

  // Every name and every offset a crash may leave is good enough.
  predicate Safe(names: seq<Place>, states: seq<Option<nat>>, acked: nat) {
    forall p :: p in names ==>
      p.Installed? || (p.AtTemp? && forall v :: v in states ==> !Bad(v, acked))
  }

  lemma SafeLeaves(d: Disk, left: Recovery, acked: nat)
    requires Safe(d.places, d.states, acked) && CanLeave(d, left)
    ensures acked - Kept(left, acked) < CHECKPOINT_INTERVAL
  {
  }

  lemma UnsafeLeaves(d: Disk, acked: nat) returns (left: Recovery)
    requires !Safe(d.places, d.states, acked) && d.states != [] && d.floor <= d.content && acked >= CHECKPOINT_INTERVAL
    ensures CanLeave(d, left) && acked - Kept(left, acked) >= CHECKPOINT_INTERVAL
  {
    var p :| p in d.places && !p.Installed? && !(p.AtTemp? && forall v :: v in d.states ==> !Bad(v, acked));
    if p.Nowhere? {
      left := Recovery(d.content, p, d.states[0]);
    } else {
      var v :| v in d.states && Bad(v, acked);
      left := Recovery(d.content, p, v);
    }
  }

  lemma SafeAtCut(hash: Bytes -> string, s: Sys, c: Command, cut: nat)
    requires Good(hash, s)
    ensures var d := AtCrash(hash, s, c, cut);
            LittleIsLost(hash, s, c, cut) <==> s.acked < CHECKPOINT_INTERVAL || Safe(d.places, d.states, s.acked)
  {
    var d := AtCrash(hash, s, c, cut);
    CrashOk(hash, s, c, cut);
    if Safe(d.places, d.states, s.acked) {
      forall left | CanLeave(d, left) ensures s.acked - Kept(left, s.acked) < CHECKPOINT_INTERVAL {
        SafeLeaves(d, left, s.acked);
      }
    } else if s.acked >= CHECKPOINT_INTERVAL {
      var left := UnsafeLeaves(d, s.acked);
    }
  }

  // The command itself takes a name or the state away while it is needed.
  predicate TakesAway(hash: Bytes -> string, s: Sys, c: Command) {
    || (Unlinks(hash, s, c) && Renames(hash, s, c).None?)
    || (Forgets(hash, s, c) && !Finishes(hash, s, c))
  }

  // Operations that leave a safe disk safe.
  predicate Harmless(d: Disk, acked: nat, e: Effect) {
    match e
    case TempCreated => false
    case StateSet(k) => k >= acked
    case StateRemoved => forall p :: p in d.places ==> p.Installed?
    case TempUnlinked => !Where(d).AtTemp?
    case RenamedTo(p) => p.Installed?
    case _ => true
  }

  lemma HarmlessKeeps(d: Disk, acked: nat, e: Effect)
    requires d.places != [] && d.states != [] && Safe(d.places, d.states, acked) && Harmless(d, acked, e)
    ensures Safe(Apply(d, e).places, Apply(d, e).states, acked) && Apply(d, e).places != [] && Apply(d, e).states != []
  {
    assert Where(d) in d.places && Offset(d) in d.states;
  }

  predicate HarmlessFrom(d: Disk, acked: nat, effects: seq<Effect>)
    decreases effects
  {
    effects == [] || (Harmless(d, acked, effects[0]) && HarmlessFrom(Apply(d, effects[0]), acked, effects[1..]))
  }

  lemma {:induction false} StaysSafe(d: Disk, acked: nat, effects: seq<Effect>, n: nat)
    requires d.places != [] && d.states != [] && Safe(d.places, d.states, acked)
    requires HarmlessFrom(d, acked, effects) && n <= |effects|
    ensures Safe(Replay(d, effects[..n]).places, Replay(d, effects[..n]).states, acked)
    decreases effects
  {
    if n > 0 {
      HarmlessKeeps(d, acked, effects[0]);
      assert effects[..n][1..] == effects[1..][..n - 1];
      StaysSafe(Apply(d, effects[0]), acked, effects[1..], n - 1);
    }
  }

  lemma {:induction false} HarmlessConcat(d: Disk, acked: nat, a: seq<Effect>, b: seq<Effect>)
    requires HarmlessFrom(d, acked, a) && HarmlessFrom(Replay(d, a), acked, b)
    ensures HarmlessFrom(d, acked, a + b)
    decreases a
  {
    if a == [] {
      assert a + b == b;
    } else {
      assert (a + b)[1..] == a[1..] + b;
      HarmlessConcat(Apply(d, a[0]), acked, a[1..], b);
    }
  }

  // Operations that are harmless on any disk.
  predicate Mild(e: Effect, acked: nat) {
    match e
    case TempCreated => false
    case StateSet(k) => k >= acked
    case StateRemoved => false
    case TempUnlinked => false
    case RenamedTo(p) => p.Installed?
    case _ => true
  }

  predicate AllMild(effects: seq<Effect>, acked: nat) {
    forall e :: e in effects ==> Mild(e, acked)
  }

  lemma {:induction false} MildIsHarmless(d: Disk, acked: nat, effects: seq<Effect>)
    requires AllMild(effects, acked)
    ensures HarmlessFrom(d, acked, effects)
    decreases effects
  {
    if effects != [] {
      assert effects[0] in effects;
      MildIsHarmless(Apply(d, effects[0]), acked, effects[1..]);
    }
  }

  lemma MildConcat(a: seq<Effect>, b: seq<Effect>, acked: nat)
    requires AllMild(a, acked) && AllMild(b, acked)
    ensures AllMild(a + b, acked)
  {
  }

  lemma MildPersist(k: nat, synced: bool, save: Save, acked: nat)
    requires k >= acked
    ensures AllMild(Persist(k, synced, save), acked)
  {
    MildConcat([TempSynced], Saving(k, save), acked);
  }

  lemma NothingTidied(t: Tidy)
    requires !t.unlinks && !t.removes
    ensures Cleanup(t) == []
  {
  }

  lemma ChunkIsHarmless(hash: Bytes -> string, s: Sys, x: ChunkIn)
    requires Good(hash, s) && s.live.Some? && !TakesAway(hash, s, Chunk(x))
    ensures HarmlessFrom(s.disk, s.acked, WriteChunk(s.live.value, x).effects)
  {
    var m, r := s.live.value, WriteChunk(s.live.value, x);
    var n := m.committed + |x.data|;
    var partial := [Appended(x.data[..Min(x.partial, |x.data|)])];
    MildPersist(n, x.synced, x.save, s.acked);
    MildConcat([Appended(x.data)], if Due(m, x) then Persist(n, x.synced, x.save) else [], s.acked);
    if r.live.None? {
      NothingTidied(x.tidy);
      assert r.effects == [] || r.effects == partial || r.effects == Writing(m, x);
    }
    MildIsHarmless(s.disk, s.acked, r.effects);
  }

  // A finish step that renames but cannot sync leaves the state file; one that
  // goes through may remove it.
  lemma FinishIsHarmless(hash: Bytes -> string, s: Sys, x: FinishIn)
    requires Good(hash, s) && s.live.Some? && !TakesAway(hash, s, Finish(x))
    ensures HarmlessFrom(s.disk, s.acked, FinalizeWrite(hash, s.disk, s.live.value, x).effects)
  {
    var d, m := s.disk, s.live.value;
    if Syncs(hash, s, Finish(x)) {
      var first := [TempSynced] + if x.closes then Finishing(d, x) else [];
      var rest := if x.closes && FinishWorks(d, x) then (if x.tidy.removes then [StateRemoved] else []) else Cleanup(x.tidy);
      FinishSplits(hash, d, m, x);
      MildFinishing(d, x, s.acked);
      MildConcat([TempSynced], if x.closes then Finishing(d, x) else [], s.acked);
      MildIsHarmless(d, s.acked, first);
      FirstNames(hash, d, x);
      RestIsHarmless(hash, s, x, Replay(d, first), rest);
      HarmlessConcat(d, s.acked, first, rest);
    } else {
      NothingTidied(x.tidy);
      assert GivingUp([], x.tidy).effects == [];
    }
  }

  lemma MildFinishing(d: Disk, x: FinishIn, acked: nat)
    ensures AllMild(Finishing(d, x), acked)
  {
    MildConcat(BackingUp(d, x), if Where(d).AtTemp? then Renaming(Installed(x.step.Stage?, x.sum), x) else [], acked);
  }

  lemma RestIsHarmless(hash: Bytes -> string, s: Sys, x: FinishIn, d: Disk, rest: seq<Effect>)
    requires s.live.Some? && Syncs(hash, s, Finish(x)) && !TakesAway(hash, s, Finish(x))
    requires d.places == Rename(Synced(s.disk.binds, s.disk.places), if x.closes then Renamed(s.disk, x) else None)
    requires rest == if x.closes && FinishWorks(s.disk, x) then (if x.tidy.removes then [StateRemoved] else []) else Cleanup(x.tidy)
    ensures HarmlessFrom(d, s.acked, rest)
  {
    if x.closes && FinishWorks(s.disk, x) {
      assert d.places == [Installed(x.step.Stage?, x.sum)];
      OneIsHarmless(d, s.acked, StateRemoved);
    } else if x.closes && Renamed(s.disk, x).Some? {
      assert !x.tidy.removes && Where(d).Installed?;
      OneIsHarmless(d, s.acked, TempUnlinked);
      assert Cleanup(x.tidy) == if x.tidy.unlinks then [TempUnlinked] else [];
    } else {
      NothingTidied(x.tidy);
    }
  }

  lemma OneIsHarmless(d: Disk, acked: nat, e: Effect)
    requires Harmless(d, acked, e)
    ensures HarmlessFrom(d, acked, [e])
  {
    assert [e][1..] == [];
  }

  lemma CommandIsHarmless(hash: Bytes -> string, s: Sys, c: Command)
    requires Good(hash, s) && s.live.Some? && !TakesAway(hash, s, c)
    ensures HarmlessFrom(s.disk, s.acked, Run(hash, s, c).effects)
  {
    match c {
      case Chunk(x) => ChunkIsHarmless(hash, s, x);
      case Finish(x) => FinishIsHarmless(hash, s, x);
      case RecvError(synced, save) =>
        MildPersist(s.live.value.committed, synced, save, s.acked);
        MildIsHarmless(s.disk, s.acked, Run(hash, s, c).effects);
      case Abort(tidy) => NothingTidied(tidy); assert GivingUp([], tidy).effects == [];
      case Cancel(tidy) => if Offset(s.disk).Some? { NothingTidied(tidy); }
      case _ =>
    }
  }

  predicate AllTemp(names: seq<Place>) {
    names != [] && forall p :: p in names ==> p.AtTemp?
  }

  lemma RemovalShows(binds: bool, names: seq<Place>, syncs: bool)
    requires AllTemp(names)
    ensures Nowhere in Naming(binds, names, false, syncs, None, true)
  {
    assert Now(names) in names;
    var synced := if syncs then Synced(binds, names) else names;
    assert Naming(binds, names, false, syncs, None, true) == synced + [Nowhere];
  }

  lemma TempStays(binds: bool, names: seq<Place>, syncs: bool, renamed: Option<(Place, bool)>, unlinks: bool)
    requires AllTemp(names) && (renamed.Some? ==> !renamed.value.1)
    ensures AtTemp in Naming(binds, names, false, syncs, renamed, unlinks)
  {
    var synced := if syncs then Synced(binds, names) else names;
    assert synced[0] == AtTemp;
    assert Naming(binds, names, false, syncs, renamed, unlinks)[0] == AtTemp;
  }

  // A command that takes something away leaves a disk that is not safe.
  lemma TakingIsUnsafe(hash: Bytes -> string, s: Sys, c: Command)
    requires Good(hash, s) && s.live.Some? && TakesAway(hash, s, c) && AllTemp(s.disk.places)
    ensures var d := Replay(s.disk, Run(hash, s, c).effects); !Safe(d.places, d.states, s.acked)
  {
    CommandNames(hash, s, c);
    CommandStates(hash, s, c);
    if Unlinks(hash, s, c) && Renames(hash, s, c).None? {
      RemovalShows(s.disk.binds, s.disk.places, Syncs(hash, s, c));
    } else {
      UnsyncedRename(hash, s, c);
      TempStays(s.disk.binds, s.disk.places, Syncs(hash, s, c), Renames(hash, s, c), Unlinks(hash, s, c));
      ForgettingShows(s.disk.states, SaveTried(s, c));
    }
  }

  lemma ForgettingShows(states: seq<Option<nat>>, tried: Option<(nat, Save)>)
    ensures None in Settling(states, tried, true)
  {
    var all := Settling(states, tried, true);
    assert all[|all| - 1] == None;
  }

  // A rename whose directory is synced is one that finishes.
  lemma UnsyncedRename(hash: Bytes -> string, s: Sys, c: Command)
    requires !Finishes(hash, s, c)
    ensures Renames(hash, s, c).Some? ==> !Renames(hash, s, c).value.1
  {
  }

  // Under a live stream a safe disk has the temp name and no other.
  lemma LiveIsTemp(hash: Bytes -> string, s: Sys)
    requires Good(hash, s) && s.live.Some? && Safe(s.disk.places, s.disk.states, s.acked)
    ensures AllTemp(s.disk.places)
  {
  }

  // In every run with a live stream: wherever in the next command a crash hits,
  // and whatever it leaves, less than one interval of what has been acknowledged
  // is lost, exactly when that is all there is, or else every name and every
  // offset that the fsyncs, renames and saves so far leave unsettled is good, and
  // the command does not itself take one away.
  lemma CrashLossIsExact(hash: Bytes -> string, binds: bool, target: Option<Bytes>, staged: Option<Bytes>,
                         events: seq<Event>, c: Command)
    requires Feasible(hash, Fresh(binds, target, staged), events)
    requires After(hash, Fresh(binds, target, staged), events).live.Some?
    ensures var start := Fresh(binds, target, staged);
            var s := After(hash, start, events);
            (forall cut: nat :: LittleIsLost(hash, s, c, cut)) <==>
              || s.acked < CHECKPOINT_INTERVAL
              || (Safe(UnsettledNames(hash, start, events), Unsettled(hash, start, events), s.acked)
                  && !TakesAway(hash, s, c))
  {
    var start := Fresh(binds, target, staged);
    var s := After(hash, start, events);
    RunKeeps(hash, start, events);
    UnsettledIsExact(hash, start, events);
    NamesAreExact(hash, start, events);
    LossIsExact(hash, s, c);
  }

  lemma LossIsExact(hash: Bytes -> string, s: Sys, c: Command)
    requires Good(hash, s) && s.live.Some?
    ensures (forall cut: nat :: LittleIsLost(hash, s, c, cut)) <==>
              s.acked < CHECKPOINT_INTERVAL || (Safe(s.disk.places, s.disk.states, s.acked) && !TakesAway(hash, s, c))
  {
    var effects := Run(hash, s, c).effects;
    forall cut: nat
      ensures LittleIsLost(hash, s, c, cut) <==>
                s.acked < CHECKPOINT_INTERVAL
                || Safe(AtCrash(hash, s, c, cut).places, AtCrash(hash, s, c, cut).states, s.acked)
    {
      SafeAtCut(hash, s, c, cut);
    }
    assert effects[..0] == [] && effects[..|effects|] == effects;
    assert AtCrash(hash, s, c, 0) == s.disk && AtCrash(hash, s, c, |effects|) == Replay(s.disk, effects);
    if Safe(s.disk.places, s.disk.states, s.acked) {
      if TakesAway(hash, s, c) {
        LiveIsTemp(hash, s);
        TakingIsUnsafe(hash, s, c);
      } else {
        CommandIsHarmless(hash, s, c);
        forall cut: nat ensures Safe(AtCrash(hash, s, c, cut).places, AtCrash(hash, s, c, cut).states, s.acked) {
          StaysSafe(s.disk, s.acked, effects, Min(cut, |effects|));
        }
      }
    }
  }

  // Between two commands of any run: a crash may leave an offset beyond the start
  // without a file under any name exactly when such an offset and the missing
  // name are both unsettled.
  lemma OffsetKeepsItsFile(hash: Bytes -> string, binds: bool, target: Option<Bytes>, staged: Option<Bytes>,
                           events: seq<Event>)
    requires Feasible(hash, Fresh(binds, target, staged), events)
    ensures var start := Fresh(binds, target, staged);
            var d := After(hash, start, events).disk;
            (exists left :: CanLeave(d, left) && left.place.Nowhere? && left.state.Some? && left.state.value > 0) <==>
              && Nowhere in UnsettledNames(hash, start, events)
              && exists v :: v in Unsettled(hash, start, events) && v.Some? && v.value > 0
  {
    var start := Fresh(binds, target, staged);
    var d := After(hash, start, events).disk;
    RunKeeps(hash, start, events);
    UnsettledIsExact(hash, start, events);
    NamesAreExact(hash, start, events);
    if Nowhere in d.places && exists v :: v in d.states && v.Some? && v.value > 0 {
      var v :| v in d.states && v.Some? && v.value > 0;
      assert CanLeave(d, Recovery(d.content, Nowhere, v));
    }
  }

  // ---- On a file system that binds names ----

  // Where every save that renamed also synced, a state file that is there is the
  // only thing that can be.
  predicate StatesFirm(states: seq<Option<nat>>) {
    states != [] && states[|states| - 1].Some? ==> forall v :: v in states ==> v.Some?
  }

  // A saved offset beyond the start has had an fsync before it.
  predicate NamesFirm(binds: bool, names: seq<Place>, states: seq<Option<nat>>) {
    binds && Now(names).AtTemp? && states != [] && states[|states| - 1].Some? && states[|states| - 1].value > 0 ==>
      forall p :: p in names ==> p.AtTemp?
  }

  predicate Firm(d: Disk) {
    StatesFirm(d.states) && NamesFirm(d.binds, d.places, d.states)
  }

  lemma SettlingFirm(states: seq<Option<nat>>, tried: Option<(nat, Save)>, forgets: bool)
    requires StatesFirm(states) && states != [] && (tried.Some? ==> !tried.value.1.Unsynced?)
    ensures StatesFirm(Settling(states, tried, forgets))
  {
  }

  lemma NamingFirm(binds: bool, names: seq<Place>, states: seq<Option<nat>>, tried: Option<(nat, Save)>, forgets: bool,
                   creates: bool, syncs: bool, renamed: Option<(Place, bool)>, unlinks: bool)
    requires NamesFirm(binds, names, states) && states != [] && (tried.Some? ==> !tried.value.1.Unsynced?)
    requires (tried.Some? && tried.value.0 > 0 ==> syncs) && (renamed.Some? ==> renamed.value.0.Installed?)
    requires creates ==> states == [None] && (tried.Some? ==> tried.value.0 == 0)
    ensures NamesFirm(binds, Naming(binds, names, creates, syncs, renamed, unlinks), Settling(states, tried, forgets))
  {
  }

  lemma FirmAfter(hash: Bytes -> string, s: Sys, c: Command)
    requires Good(hash, s) && Firm(s.disk) && NoLostSync(c)
    ensures Firm(Next(hash, s, Done(c)).disk)
  {
    EventNames(hash, s, Done(c));
    EventStates(hash, s, Done(c));
    DoneKeeps(hash, s, c);
    SavedIsSynced(hash, s, c);
    SettlingFirm(s.disk.states, SaveTried(s, c), Forgets(hash, s, c));
    NamingFirm(s.disk.binds, s.disk.places, s.disk.states, SaveTried(s, c), Forgets(hash, s, c),
               Creates(s, c), Syncs(hash, s, c), Renames(hash, s, c), Unlinks(hash, s, c));
  }

  lemma {:induction false} StaysFirm(hash: Bytes -> string, s: Sys, events: seq<Event>)
    requires Good(hash, s) && Firm(s.disk) && Feasible(hash, s, events)
    requires forall e :: e in events ==> NoLostSync(e.command)
    ensures Firm(After(hash, s, events).disk)
    decreases events
  {
    if events != [] {
      var e := events[0];
      assert e in events;
      NextKeeps(hash, s, e);
      if e.Done? {
        FirmAfter(hash, s, e.command);
      }
      StaysFirm(hash, Next(hash, s, e), events[1..]);
    }
  }

  // So on such a file system a crash loses less than one interval as long as
  // every state file that was renamed into place had its directory synced, and
  // nobody took the temp file or the state away.
  lemma CrashLosesLittle(hash: Bytes -> string, target: Option<Bytes>, staged: Option<Bytes>, events: seq<Event>,
                         c: Command, cut: nat)
    requires Feasible(hash, Fresh(true, target, staged), events)
    requires forall e :: e in events ==> NoLostSync(e.command)
    requires var s := After(hash, Fresh(true, target, staged), events);
             s.live.Some? && Where(s.disk).AtTemp? && Offset(s.disk).Some? && !TakesAway(hash, s, c)
    ensures LittleIsLost(hash, After(hash, Fresh(true, target, staged), events), c, cut)
  {
    var start := Fresh(true, target, staged);
    var s := After(hash, start, events);
    RunKeeps(hash, start, events);
    StaysTight(hash, start, events);
    StaysFirm(hash, start, events);
    LossIsExact(hash, s, c);
  }

  // ---- Of the resumes that are accepted ----

  predicate NoCreate(effects: seq<Effect>) {
    forall e :: e in effects ==> !e.TempCreated?
  }

  // Only the first stream creates the temp name.
  lemma {:induction false} NameLost(d: Disk, effects: seq<Effect>)
    requires AtTemp !in d.places && NoCreate(effects)
    ensures AtTemp !in Replay(d, effects).places
    decreases effects
  {
    if effects != [] {
      assert effects[0] in effects;
      assert Where(d).AtTemp? ==> AtTemp in d.places;
      NameLost(Apply(d, effects[0]), effects[1..]);
    }
  }

  lemma PersistNoCreate(k: nat, synced: bool, save: Save)
    ensures NoCreate(Persist(k, synced, save))
  {
    NoCreateConcat([TempSynced], Saving(k, save));
  }

  lemma ChunkNoCreate(m: Live, x: ChunkIn)
    ensures NoCreate(WriteChunk(m, x).effects)
  {
    PersistNoCreate(m.committed + |x.data|, x.synced, x.save);
    NoCreateConcat([Appended(x.data)], if Due(m, x) then Persist(m.committed + |x.data|, x.synced, x.save) else []);
    GivingUpNoCreate([], x.tidy);
    GivingUpNoCreate([Appended(x.data[..Min(x.partial, |x.data|)])], x.tidy);
    GivingUpNoCreate(Writing(m, x), x.tidy);
  }

  lemma NoCreateConcat(a: seq<Effect>, b: seq<Effect>)
    requires NoCreate(a) && NoCreate(b)
    ensures NoCreate(a + b)
  {
  }

  lemma GivingUpNoCreate(effects: seq<Effect>, t: Tidy)
    requires NoCreate(effects)
    ensures NoCreate(GivingUp(effects, t).effects)
  {
    NoCreateConcat(effects, Cleanup(t));
  }

  lemma FinishNoCreate(hash: Bytes -> string, d: Disk, m: Live, x: FinishIn)
    ensures NoCreate(FinalizeWrite(hash, d, m, x).effects)
  {
    var renaming := if Where(d).AtTemp? then Renaming(Installed(x.step.Stage?, x.sum), x) else [];
    NoCreateConcat(BackingUp(d, x), renaming);
    NoCreateConcat([TempSynced], Finishing(d, x));
    NoCreateConcat([TempSynced] + Finishing(d, x), if x.tidy.removes then [StateRemoved] else []);
    GivingUpNoCreate([], x.tidy);
    GivingUpNoCreate([TempSynced], x.tidy);
    GivingUpNoCreate([TempSynced] + Finishing(d, x), x.tidy);
  }

  lemma ResumeNoCreate(d: Disk, x: ResumeIn)
    ensures NoCreate(ResumeWrite(d, x).effects)
  {
    if Offset(d).Some? {
      GivingUpNoCreate([Truncated(Offset(d).value)], x.tidy);
    }
  }

  // Once begun, a command creates no temp file.
  lemma CreatesOnce(hash: Bytes -> string, s: Sys, c: Command)
    requires s.begun
    ensures NoCreate(Run(hash, s, c).effects)
  {
    match c {
      case Chunk(x) => if s.live.Some? { ChunkNoCreate(s.live.value, x); }
      case Finish(x) => if s.live.Some? { FinishNoCreate(hash, s.disk, s.live.value, x); }
      case RecvError(synced, save) =>
        if s.live.Some? { PersistNoCreate(s.live.value.committed, synced, save); }
      case Resume(x) => ResumeNoCreate(s.disk, x);
      case Abort(tidy) => GivingUpNoCreate([], tidy);
      case _ =>
    }
  }

  // The resume goes on less than one interval behind the last acknowledgement.
  predicate IsNear(hash: Bytes -> string, acked: nat, after: Sys, x: ResumeIn) {
    var r := Run(hash, after, Resume(x)).reply;
    r.Ack? ==> acked - r.committed < CHECKPOINT_INTERVAL
  }

  ghost predicate ResumesAreNear(hash: Bytes -> string, s: Sys, c: Command, cut: nat) {
    forall left, x :: Possible(hash, s, Crashed(c, cut, left)) ==>
      IsNear(hash, s.acked, Next(hash, s, Crashed(c, cut, left)), x)
  }

  // The resume after a crash, if it is accepted, goes on from the offset left.
  lemma ResumesFromLeft(hash: Bytes -> string, s: Sys, c: Command, cut: nat, left: Recovery, x: ResumeIn)
    requires Possible(hash, s, Crashed(c, cut, left))
    ensures var after := Next(hash, s, Crashed(c, cut, left));
            Run(hash, after, Resume(x)).reply.Ack? ==>
              left.place.AtTemp? && left.state == Some(Run(hash, after, Resume(x)).reply.committed)
  {
  }

  // A far offset that a crash can leave, with the temp name, is one a resume
  // goes on from.
  lemma FarIsResumed(hash: Bytes -> string, s: Sys, c: Command, cut: nat, v: Option<nat>)
    requires Good(hash, s) && (s.begun || c.Open?) && AtTemp in AtCrash(hash, s, c, cut).places
    requires v in AtCrash(hash, s, c, cut).states && v.Some? && s.acked - v.value >= CHECKPOINT_INTERVAL
    ensures !ResumesAreNear(hash, s, c, cut)
  {
    var d := AtCrash(hash, s, c, cut);
    CrashOk(hash, s, c, cut);
    var left := Recovery(d.content, AtTemp, v);
    assert Possible(hash, s, Crashed(c, cut, left));
    assert !IsNear(hash, s.acked, Next(hash, s, Crashed(c, cut, left)), ResumesWell(Tidy(true, true)).resume);
  }

  // At one point of one command: no accepted resume loses an interval exactly
  // when the temp name cannot come back or every offset that can is near.
  lemma NearAtCut(hash: Bytes -> string, s: Sys, c: Command, cut: nat)
    requires Good(hash, s) && (s.begun || c.Open?)
    ensures var d := AtCrash(hash, s, c, cut);
            ResumesAreNear(hash, s, c, cut) <==> (AtTemp !in d.places || Near(d.states, s.acked))
  {
    var d := AtCrash(hash, s, c, cut);
    if AtTemp in d.places && !Near(d.states, s.acked) {
      var v :| v in d.states && v.Some? && s.acked - v.value >= CHECKPOINT_INTERVAL;
      FarIsResumed(hash, s, c, cut, v);
    } else {
      forall left, x | Possible(hash, s, Crashed(c, cut, left))
        ensures IsNear(hash, s.acked, Next(hash, s, Crashed(c, cut, left)), x)
      {
        ResumesFromLeft(hash, s, c, cut, left, x);
      }
    }
  }

  // In every run, no resume that is accepted after a crash at any point of the
  // next command goes on an interval or more behind the last acknowledged offset,
  // exactly when every offset the saves so far leave unsettled is nearer than
  // that, or the temp name cannot come back and none is accepted at all.
  lemma AcceptedResumesAreNear(hash: Bytes -> string, binds: bool, target: Option<Bytes>, staged: Option<Bytes>,
                               events: seq<Event>, c: Command)
    requires Feasible(hash, Fresh(binds, target, staged), events)
    ensures var start := Fresh(binds, target, staged);
            var s := After(hash, start, events);
            (forall cut: nat :: ResumesAreNear(hash, s, c, cut)) <==>
              (AtTemp !in UnsettledNames(hash, start, events) || Near(Unsettled(hash, start, events), s.acked))
  {
    var start := Fresh(binds, target, staged);
    var s := After(hash, start, events);
    RunKeeps(hash, start, events);
    UnsettledIsExact(hash, start, events);
    NamesAreExact(hash, start, events);
    if s.begun || c.Open? {
      NearAtCut(hash, s, c, 0);
      assert Run(hash, s, c).effects[..0] == [];
      assert AtCrash(hash, s, c, 0) == s.disk;
      if AtTemp !in s.disk.places || Near(s.disk.states, s.acked) {
        forall cut: nat ensures ResumesAreNear(hash, s, c, cut) {
          StillNear(hash, s, c, cut);
        }
      }
    }
  }

  // A command cut short leaves no resume farther back than one before it.
  lemma StillNear(hash: Bytes -> string, s: Sys, c: Command, cut: nat)
    requires Good(hash, s) && (s.begun || c.Open?)
    requires AtTemp !in s.disk.places || Near(s.disk.states, s.acked)
    ensures ResumesAreNear(hash, s, c, cut)
  {
    NearAtCut(hash, s, c, cut);
    if Near(s.disk.states, s.acked) {
      CrashIsNear(hash, s, c, cut);
    } else {
      var effects := Run(hash, s, c).effects;
      CreatesOnce(hash, s, c);
      NameLost(s.disk, effects[..Min(cut, |effects|)]);
    }
  }

  ghost predicate Reachable(hash: Bytes -> string, start: Sys, s: Sys) {
    exists events :: Feasible(hash, start, events) && After(hash, start, events) == s
  }

  lemma Reaches(hash: Bytes -> string, start: Sys, s: Sys, e: Event)
    requires Reachable(hash, start, s) && Possible(hash, s, e)
    ensures Reachable(hash, start, Next(hash, s, e))
  {
    var events :| Feasible(hash, start, events) && After(hash, start, events) == s;
    LastEvent(hash, start, events, e);
  }

  // Without the syncs it can lose more: the upload of a breaks, the save on the way
  // out is renamed but its directory is not synced, the client resumes and sends
  // b, and a crash brings the first state file back. Everything acknowledged is
  // lost.
  lemma UnsyncedSaveLosesMore(hash: Bytes -> string, binds: bool, target: Option<Bytes>, staged: Option<Bytes>, a: Bytes, b: Bytes)
    requires |a| < CHECKPOINT_INTERVAL && |b| < CHECKPOINT_INTERVAL <= |a| + |b|
    ensures exists s ::
              && Reachable(hash, Fresh(binds, target, staged), s)
              && s.acked == |a| + |b| && Offset(s.disk) == Some(0) && Where(s.disk).AtTemp?
  {
    var tidy, start := Tidy(true, true), Fresh(binds, target, staged);
    var s2 := UploadsOne(hash, start, a, tidy);
    ComesBackAt(hash, s2, tidy);
    var s3 := Next(hash, s2, Done(RecvError(true, Unsynced)));
    Reaches(hash, start, s2, Done(RecvError(true, Unsynced)));
    var s4 := Next(hash, s3, Done(ResumesWell(tidy)));
    Reaches(hash, start, s3, Done(ResumesWell(tidy)));
    ChunkAt(hash, s4, b, tidy);
    var s5 := Next(hash, s4, Done(Sends(|a|, b, tidy)));
    Reaches(hash, start, s4, Done(Sends(|a|, b, tidy)));
    CrashBringsBack(hash, s5, tidy);
    Reaches(hash, start, s5, Crashed(Cancel(tidy), 0, Recovery(s5.disk.content, AtTemp, Some(0))));
  }

  // An upload is opened and its first chunk acknowledged without a checkpoint.
  lemma UploadsOne(hash: Bytes -> string, start: Sys, a: Bytes, tidy: Tidy) returns (s: Sys)
    requires start == Fresh(start.disk.binds, start.disk.target, start.disk.staged) && |a| < CHECKPOINT_INTERVAL
    ensures Reachable(hash, start, s) && s.begun && s.acked == |a|
    ensures s.disk == Disk(a, [], false, [Nowhere, AtTemp], [Some(0)], None, start.disk.target, start.disk.staged,
                           start.disk.binds)
    ensures s.live == Some(Live(|a|, 0, a))
  {
    assert Feasible(hash, start, []) && After(hash, start, []) == start;
    OpensAt(hash, start, tidy);
    var s1 := Next(hash, start, Done(Open(true, Saved, true, tidy)));
    Reaches(hash, start, start, Done(Open(true, Saved, true, tidy)));
    ChunkAt(hash, s1, a, tidy);
    s := Next(hash, s1, Done(Sends(0, a, tidy)));
    Reaches(hash, start, s1, Done(Sends(0, a, tidy)));
    assert [] + a == a;
  }

  // On a file system that does not bind names, openWriteState's temp file has a
  // name no fsync has settled. Every call works, the upload of a is checkpointed
  // and acknowledged, and a crash that takes the name leaves a state file with
  // the full offset and no resume that is accepted.
  lemma UnsyncedNameLosesAll(hash: Bytes -> string, target: Option<Bytes>, staged: Option<Bytes>, a: Bytes)
    requires |a| >= CHECKPOINT_INTERVAL
    ensures exists s ::
              && Reachable(hash, Fresh(false, target, staged), s)
              && s.acked == |a| && s.live.None? && Offset(s.disk) == Some(|a|)
              && forall x :: !Run(hash, s, Resume(x)).reply.Ack?
  {
    var tidy, start := Tidy(true, true), Fresh(false, target, staged);
    assert Feasible(hash, start, []) && After(hash, start, []) == start;
    OpensAt(hash, start, tidy);
    var s1 := Next(hash, start, Done(Open(true, Saved, true, tidy)));
    Reaches(hash, start, start, Done(Open(true, Saved, true, tidy)));
    CheckpointAt(hash, s1, a, tidy);
    var s2 := Next(hash, s1, Done(Sends(0, a, tidy)));
    Reaches(hash, start, s1, Done(Sends(0, a, tidy)));
    CrashTakesName(hash, s2, tidy);
    Reaches(hash, start, s2, Crashed(Cancel(tidy), 0, Recovery(s2.disk.content, Nowhere, Offset(s2.disk))));
  }

  lemma CrashTakesName(hash: Bytes -> string, s: Sys, tidy: Tidy)
    requires s.disk.floor <= s.disk.content && Nowhere in s.disk.places && s.disk.states != []
    ensures var crash := Crashed(Cancel(tidy), 0, Recovery(s.disk.content, Nowhere, Offset(s.disk)));
            var after := Next(hash, s, crash);
            && Possible(hash, s, crash)
            && after.acked == s.acked && after.live.None? && Offset(after.disk) == Offset(s.disk)
            && forall x :: !Run(hash, after, Resume(x)).reply.Ack?
  {
    var effects := Run(hash, s, Cancel(tidy)).effects;
    assert effects[..Min(0, |effects|)] == [];
  }

  lemma CheckpointAt(hash: Bytes -> string, s: Sys, a: Bytes, tidy: Tidy)
    requires s.live == Some(Live(0, 0, [])) && |a| >= CHECKPOINT_INTERVAL && !s.disk.binds && s.disk.content == []
    ensures var after := Next(hash, s, Done(Sends(0, a, tidy)));
            && after.disk == s.disk.(content := a, floor := a, clean := true, states := [Some(|a|)])
            && after.acked == |a| && after.begun == s.begun
  {
    var m, x := Live(0, 0, []), Sends(0, a, tidy).chunk;
    var d := Apply(s.disk, Appended(a));
    assert [] + a == a;
    ReplayOne(hash, s.disk, [], Appended(a));
    ReplayConcat(hash, s.disk, [], [Appended(a)], Persist(|a|, true, Saved));
    ReplayConcat(hash, d, [], [TempSynced], Saving(|a|, Saved));
    ReplayOne(hash, d, [], TempSynced);
    ReplayTwo(hash, Apply(d, TempSynced), [], StateSet(|a|), StateDirSynced);
  }

  function Sends(offset: nat, data: Bytes, tidy: Tidy): Command {
    Chunk(ChunkIn(offset, data, true, 0, true, Saved, true, tidy))
  }

  function ResumesWell(tidy: Tidy): Command {
    Resume(ResumeIn(true, true, true, true, true, tidy))
  }

  lemma ChunkAt(hash: Bytes -> string, s: Sys, data: Bytes, tidy: Tidy)
    requires s.live.Some? && s.live.value.committed + |data| - s.live.value.lastChkpt < CHECKPOINT_INTERVAL
    ensures var after := Next(hash, s, Done(Sends(s.live.value.committed, data, tidy)));
            && after.disk == s.disk.(content := s.disk.content + data, clean := false)
            && after.live == Some(s.live.value.(committed := s.live.value.committed + |data|,
                                                absorbed := s.live.value.absorbed + data))
            && after.acked == s.live.value.committed + |data| && after.begun == s.begun
  {
    ReplayOne(hash, s.disk, [], Appended(data));
    assert [Appended(data)] + [] == [Appended(data)];
  }

  lemma ComesBackAt(hash: Bytes -> string, s: Sys, tidy: Tidy)
    requires s.live.Some? && s.begun && Where(s.disk).AtTemp? && s.live.value.committed == |s.disk.content|
    ensures var broken := Next(hash, s, Done(RecvError(true, Unsynced)));
            var after := Next(hash, broken, Done(ResumesWell(tidy)));
            && after.disk == s.disk.(floor := s.disk.content, clean := false, places := Bound(s.disk),
                                      states := s.disk.states + [Some(|s.disk.content|)])
            && after.live.Some? && after.live.value.committed == after.live.value.lastChkpt == |s.disk.content|
            && after.begun
  {
    var k := |s.disk.content|;
    var broken := Next(hash, s, Done(RecvError(true, Unsynced)));
    assert [TempSynced] + [StateSet(k)] == [TempSynced, StateSet(k)];
    ReplayTwo(hash, s.disk, [], TempSynced, StateSet(k));
    ReplayOne(hash, broken.disk, [], Truncated(k));
  }

  lemma CrashBringsBack(hash: Bytes -> string, s: Sys, tidy: Tidy)
    requires s.disk.floor <= s.disk.content && AtTemp in s.disk.places && Some(0) in s.disk.states
    ensures var crash := Crashed(Cancel(tidy), 0, Recovery(s.disk.content, AtTemp, Some(0)));
            && Possible(hash, s, crash)
            && Offset(Next(hash, s, crash).disk) == Some(0) && Where(Next(hash, s, crash).disk).AtTemp?
            && Next(hash, s, crash).acked == s.acked
  {
    assert Replay(s.disk, []) == s.disk;
    var effects := Run(hash, s, Cancel(tidy)).effects;
    assert effects[..Min(0, |effects|)] == [];
  }
}
