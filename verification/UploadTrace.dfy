/**
 What a crash may bring back of the two directories, read off the outcomes of the
 commands so far: the entries of the state file, and the names of the upload's
 file.
 */
module UploadTrace {
  import opened Common
  import opened Text
  import opened Upload
  import opened UploadProofs

  // ---- The state file ----

  // The offset a command tries to save, and how that ends.
  function SaveTried(s: Sys, c: Command): Option<(nat, Save)> {
    match c
    case Open(creates, save, _, _) => if !s.begun && creates then Some((0, save)) else None
    case Chunk(x) =>
      if s.live.Some? && x.offset == s.live.value.committed && x.written && Due(s.live.value, x) && x.synced
      then Some((s.live.value.committed + |x.data|, x.save)) else None
    case RecvError(synced, save) => if s.live.Some? && synced then Some((s.live.value.committed, save)) else None
    case _ => None
  }

  // A resume that gets as far as its acknowledgement.
  predicate Rehashed(d: Disk, x: ResumeIn) {
    && x.ready && Offset(d).Some? && Where(d).AtTemp? && x.opens && x.truncates
    && (Offset(d).value > 0 ==> x.rehashes)
  }

  // Whether the command ends in removing the state file.
  predicate Forgets(hash: Bytes -> string, s: Sys, c: Command) {
    match c
    case Open(creates, save, acks, tidy) => !s.begun && creates && save.Saved? && !acks && tidy.removes
    case Resume(x) => s.live.None? && s.begun && Rehashed(s.disk, x) && !x.acks && x.tidy.removes
    case Chunk(x) => s.live.Some? && Run(hash, s, c).live.None? && x.tidy.removes
    case Abort(tidy) => s.live.Some? && tidy.removes
    case Finish(x) => s.live.Some? && x.tidy.removes
    case Cancel(tidy) => Offset(s.disk).Some? && tidy.removes
    case RecvError(_, _) => false
  }

  // A save without an error is the only thing that settles the state file; one
  // with an error adds what it renamed, and a removal adds that there is none.
  function Settling(states: seq<Option<nat>>, tried: Option<(nat, Save)>, forgets: bool): seq<Option<nat>> {
    (match tried
     case None => states
     case Some((offset, save)) =>
       match save case Saved => [Some(offset)] case Unsynced => states + [Some(offset)] case Unsaved => states)
    + if forgets then [None] else []
  }

  // What a crash may leave of the state file after one more event.
  function StatesAfter(hash: Bytes -> string, s: Sys, e: Event, states: seq<Option<nat>>): seq<Option<nat>> {
    match e
    case Crashed(_, _, left) => [left.state]
    case Done(c) => Settling(states, SaveTried(s, c), Forgets(hash, s, c))
  }

  // The offsets saved since the last save that returned no error, that one
  // included, with None for no state file; a crash leaves one of them.
  function Unsettled(hash: Bytes -> string, start: Sys, events: seq<Event>): seq<Option<nat>> {
    if events == [] then start.disk.states
    else
      var before := events[..|events| - 1];
      StatesAfter(hash, After(hash, start, before), events[|events| - 1], Unsettled(hash, start, before))
  }

  // The finish step went through to the fsync of its directory.
  predicate Finishes(hash: Bytes -> string, s: Sys, c: Command) {
    && c.Finish? && s.live.Some? && EqualFold(hash(s.live.value.absorbed), c.finish.sum)
    && c.finish.synced && c.finish.closes && FinishWorks(s.disk, c.finish)
  }

  predicate OnState(e: Effect) {
    e.StateSet? || e.StateDirSynced? || e.StateRemoved?
  }

  lemma {:induction false} OffState(d: Disk, effects: seq<Effect>)
    requires forall e :: e in effects ==> !OnState(e)
    ensures Replay(d, effects).states == d.states
    decreases effects
  {
    if effects != [] {
      assert effects[0] in effects;
      OffState(Apply(d, effects[0]), effects[1..]);
    }
  }

  lemma CleanupStates(hash: Bytes -> string, d: Disk, t: Tidy)
    ensures Replay(d, Cleanup(t)).states == d.states + if t.removes then [None] else []
  {
    var unlinking := if t.unlinks then [TempUnlinked] else [];
    var removing := if t.removes then [StateRemoved] else [];
    ReplayConcat(hash, d, [], unlinking, removing);
    ReplayOne(hash, d, [], TempUnlinked);
    ReplayOne(hash, Replay(d, unlinking), [], StateRemoved);
  }

  lemma GivingUpStates(hash: Bytes -> string, d: Disk, effects: seq<Effect>, t: Tidy)
    ensures Replay(d, GivingUp(effects, t).effects).states
         == Replay(d, effects).states + if t.removes then [None] else []
  {
    ReplayConcat(hash, d, [], effects, Cleanup(t));
    CleanupStates(hash, Replay(d, effects), t);
  }

  lemma SavingStates(hash: Bytes -> string, d: Disk, k: nat, save: Save)
    ensures Replay(d, Saving(k, save)).states == Settling(d.states, Some((k, save)), false)
  {
    ReplayOne(hash, d, [], StateSet(k));
    ReplayTwo(hash, d, [], StateSet(k), StateDirSynced);
  }

  lemma PersistStates(hash: Bytes -> string, d: Disk, k: nat, synced: bool, save: Save)
    ensures Replay(d, Persist(k, synced, save)).states == Settling(d.states, if synced then Some((k, save)) else None, false)
  {
    if synced {
      ReplayOne(hash, d, [], TempSynced);
      ReplayConcat(hash, d, [], [TempSynced], Saving(k, save));
      SavingStates(hash, Apply(d, TempSynced), k, save);
    }
  }

  lemma OpenStates(hash: Bytes -> string, s: Sys, creates: bool, save: Save, acks: bool, tidy: Tidy)
    requires !s.begun
    ensures var c := Open(creates, save, acks, tidy);
            Replay(s.disk, Run(hash, s, c).effects).states
            == Settling(s.disk.states, SaveTried(s, c), Forgets(hash, s, c))
  {
    if creates {
      var made := [TempCreated] + Saving(0, save);
      ReplayOne(hash, s.disk, [], TempCreated);
      ReplayConcat(hash, s.disk, [], [TempCreated], Saving(0, save));
      SavingStates(hash, Apply(s.disk, TempCreated), 0, save);
      GivingUpStates(hash, s.disk, made, tidy);
      var unlinking := if tidy.unlinks then [TempUnlinked] else [];
      ReplayConcat(hash, s.disk, [], made, unlinking);
      OffState(Replay(s.disk, made), unlinking);
    }
  }

  lemma WritingStates(hash: Bytes -> string, d: Disk, m: Live, x: ChunkIn)
    ensures Replay(d, Writing(m, x)).states
         == Settling(d.states, if Due(m, x) && x.synced then Some((m.committed + |x.data|, x.save)) else None, false)
  {
    var n := m.committed + |x.data|;
    ReplayOne(hash, d, [], Appended(x.data));
    if Due(m, x) {
      ReplayConcat(hash, d, [], [Appended(x.data)], Persist(n, x.synced, x.save));
      PersistStates(hash, Apply(d, Appended(x.data)), n, x.synced, x.save);
    } else {
      assert Writing(m, x) == [Appended(x.data)];
    }
  }

  lemma ChunkStates(hash: Bytes -> string, s: Sys, x: ChunkIn)
    requires s.live.Some?
    ensures Replay(s.disk, WriteChunk(s.live.value, x).effects).states
         == Settling(s.disk.states, SaveTried(s, Chunk(x)), Forgets(hash, s, Chunk(x)))
  {
    var m := s.live.value;
    if x.offset == m.committed && x.written {
      WritingStates(hash, s.disk, m, x);
      GivingUpStates(hash, s.disk, Writing(m, x), x.tidy);
      WrittenChunk(hash, s, x);
    } else {
      var first := if x.offset == m.committed then [Appended(x.data[..Min(x.partial, |x.data|)])] else [];
      OffState(s.disk, first);
      GivingUpStates(hash, s.disk, first, x.tidy);
      UnwrittenChunk(hash, s, x);
    }
  }

  // What a chunk that is written, and one that is not, does and tries.
  lemma WrittenChunk(hash: Bytes -> string, s: Sys, x: ChunkIn)
    requires s.live.Some? && x.offset == s.live.value.committed && x.written
    ensures var m, r := s.live.value, WriteChunk(s.live.value, x);
            && r.effects == (if r.live.Some? then Writing(m, x) else GivingUp(Writing(m, x), x.tidy).effects)
            && SaveTried(s, Chunk(x)) == (if Due(m, x) && x.synced then Some((m.committed + |x.data|, x.save)) else None)
            && (Forgets(hash, s, Chunk(x)) <==> r.live.None? && x.tidy.removes)
  {
  }

  lemma UnwrittenChunk(hash: Bytes -> string, s: Sys, x: ChunkIn)
    requires s.live.Some? && !(x.offset == s.live.value.committed && x.written)
    ensures var m := s.live.value;
            var first := if x.offset == m.committed then [Appended(x.data[..Min(x.partial, |x.data|)])] else [];
            && WriteChunk(m, x).effects == GivingUp(first, x.tidy).effects
            && SaveTried(s, Chunk(x)) == None && (Forgets(hash, s, Chunk(x)) <==> x.tidy.removes)
  {
  }

  lemma FinishStates(hash: Bytes -> string, d: Disk, m: Live, x: FinishIn)
    ensures Replay(d, FinalizeWrite(hash, d, m, x).effects).states == d.states + if x.tidy.removes then [None] else []
  {
    var synced := EqualFold(hash(m.absorbed), x.sum) && x.synced;
    var effects := if !synced then [] else [TempSynced] + if x.closes then Finishing(d, x) else [];
    OffState(d, effects);
    assert [TempSynced] + [] == [TempSynced];
    GivingUpStates(hash, d, effects, x.tidy);
    ReplayConcat(hash, d, [], effects, if x.tidy.removes then [StateRemoved] else []);
    ReplayOne(hash, Replay(d, effects), [], StateRemoved);
  }

  lemma ResumeStates(hash: Bytes -> string, s: Sys, x: ResumeIn)
    requires s.live.None? && s.begun
    ensures Replay(s.disk, ResumeWrite(s.disk, x).effects).states
         == s.disk.states + if Forgets(hash, s, Resume(x)) then [None] else []
  {
    if Offset(s.disk).Some? {
      var first := [Truncated(Offset(s.disk).value)];
      OffState(s.disk, first);
      GivingUpStates(hash, s.disk, first, x.tidy);
    }
  }

  lemma CommandStates(hash: Bytes -> string, s: Sys, c: Command)
    ensures Replay(s.disk, Run(hash, s, c).effects).states
         == Settling(s.disk.states, SaveTried(s, c), Forgets(hash, s, c))
  {
    match c {
      case Open(creates, save, acks, tidy) => if !s.begun { OpenStates(hash, s, creates, save, acks, tidy); }
      case Chunk(x) => if s.live.Some? { ChunkStates(hash, s, x); }
      case RecvError(synced, save) =>
        if s.live.Some? { PersistStates(hash, s.disk, s.live.value.committed, synced, save); }
      case Resume(x) => if s.live.None? && s.begun { ResumeStates(hash, s, x); }
      case Abort(tidy) => GivingUpStates(hash, s.disk, [], tidy);
      case Cancel(tidy) => CleanupStates(hash, s.disk, tidy);
      case Finish(x) => if s.live.Some? { FinishStates(hash, s.disk, s.live.value, x); }
    }
  }

  lemma EventStates(hash: Bytes -> string, s: Sys, e: Event)
    ensures Next(hash, s, e).disk.states == StatesAfter(hash, s, e, s.disk.states)
  {
    if e.Done? {
      CommandStates(hash, s, e.command);
    }
  }

  lemma UnsettledStep(hash: Bytes -> string, start: Sys, before: seq<Event>, e: Event)
    requires After(hash, start, before).disk.states == Unsettled(hash, start, before)
    ensures After(hash, start, before + [e]).disk.states == Unsettled(hash, start, before + [e])
  {
    var events := before + [e];
    assert events[..|events| - 1] == before && events[|events| - 1] == e;
    LastEvent(hash, start, before, e);
    EventStates(hash, After(hash, start, before), e);
  }

  // What a crash may bring back of the state file is what the outcomes of the
  // saves so far leave unsettled.
  lemma {:induction false} UnsettledIsExact(hash: Bytes -> string, start: Sys, events: seq<Event>)
    ensures After(hash, start, events).disk.states == Unsettled(hash, start, events)
  {
    if events != [] {
      var n := |events| - 1;
      assert events == events[..n] + [events[n]];
      UnsettledIsExact(hash, start, events[..n]);
      UnsettledStep(hash, start, events[..n], events[n]);
    }
  }

  // ---- The names of the upload's file ----

  // Whether the command fsyncs the file.
  predicate Syncs(hash: Bytes -> string, s: Sys, c: Command) {
    match c
    case Chunk(x) => s.live.Some? && x.offset == s.live.value.committed && x.written && Due(s.live.value, x) && x.synced
    case RecvError(synced, _) => s.live.Some? && synced
    case Finish(x) => s.live.Some? && EqualFold(hash(s.live.value.absorbed), x.sum) && x.synced
    case _ => false
  }

  // The name a finish step gives the file, and whether the directory is synced.
  function Renames(hash: Bytes -> string, s: Sys, c: Command): Option<(Place, bool)> {
    if !c.Finish? || !Syncs(hash, s, c) || !c.finish.closes then None
    else Renamed(s.disk, c.finish)
  }

  function Renamed(d: Disk, x: FinishIn): Option<(Place, bool)> {
    if !x.step.Unspecified? && BackupWorks(d, x) && Where(d).AtTemp? && x.renames
    then Some((Installed(x.step.Stage?, x.sum), x.dirSynced)) else None
  }

  // Whether the command removes the temp path.
  predicate Unlinks(hash: Bytes -> string, s: Sys, c: Command) {
    match c
    case Open(creates, save, acks, tidy) => !s.begun && creates && !(save.Saved? && acks) && tidy.unlinks
    case Resume(x) => s.live.None? && s.begun && Rehashed(s.disk, x) && !x.acks && x.tidy.unlinks
    case Chunk(x) => s.live.Some? && Run(hash, s, c).live.None? && x.tidy.unlinks
    case Abort(tidy) => s.live.Some? && tidy.unlinks
    case Finish(x) => s.live.Some? && !Finishes(hash, s, c) && x.tidy.unlinks
    case Cancel(tidy) => Offset(s.disk).Some? && tidy.unlinks
    case RecvError(_, _) => false
  }

  function Now(names: seq<Place>): Place {
    if names == [] then Nowhere else names[|names| - 1]
  }

  function Synced(binds: bool, names: seq<Place>): seq<Place> {
    if binds && Now(names).AtTemp? then [AtTemp] else names
  }

  function Rename(names: seq<Place>, renamed: Option<(Place, bool)>): seq<Place> {
    match renamed case None => names case Some((place, synced)) => if synced then [place] else names + [place]
  }

  function Unlinked(names: seq<Place>, unlinks: bool): seq<Place> {
    if unlinks && Now(names).AtTemp? then names + [Nowhere] else names
  }

  // Where the fsync of a file binds its name, it settles the name; so does the
  // fsync of the directory after a rename. Everything else adds to the names.
  function Naming(binds: bool, names: seq<Place>, creates: bool, syncs: bool, renamed: Option<(Place, bool)>,
                  unlinks: bool): seq<Place> {
    var made := if creates then names + [AtTemp] else names;
    Unlinked(Rename(if syncs then Synced(binds, made) else made, renamed), unlinks)
  }

  predicate Creates(s: Sys, c: Command) {
    c.Open? && !s.begun && c.creates
  }

  // What a crash may leave of the names after one more event.
  function NamesAfter(hash: Bytes -> string, s: Sys, e: Event, names: seq<Place>): seq<Place> {
    match e
    case Crashed(_, _, left) => [left.place]
    case Done(c) => Naming(s.disk.binds, names, Creates(s, c), Syncs(hash, s, c), Renames(hash, s, c), Unlinks(hash, s, c))
  }

  // The names since the last one that was settled, that one included; a crash
  // leaves one of them.
  function UnsettledNames(hash: Bytes -> string, start: Sys, events: seq<Event>): seq<Place> {
    if events == [] then start.disk.places
    else
      var before := events[..|events| - 1];
      NamesAfter(hash, After(hash, start, before), events[|events| - 1], UnsettledNames(hash, start, before))
  }

  predicate OnName(e: Effect) {
    e.TempCreated? || e.TempSynced? || e.TempUnlinked? || e.RenamedTo? || e.DirSynced?
  }

  lemma {:induction false} OffName(d: Disk, effects: seq<Effect>)
    requires forall e :: e in effects ==> !OnName(e)
    ensures Replay(d, effects).places == d.places
    decreases effects
  {
    if effects != [] {
      assert effects[0] in effects;
      OffName(Apply(d, effects[0]), effects[1..]);
    }
  }

  lemma CleanupNames(hash: Bytes -> string, d: Disk, t: Tidy)
    ensures Replay(d, Cleanup(t)).places == Unlinked(d.places, t.unlinks)
  {
    var unlinking := if t.unlinks then [TempUnlinked] else [];
    var removing := if t.removes then [StateRemoved] else [];
    ReplayConcat(hash, d, [], unlinking, removing);
    ReplayOne(hash, d, [], TempUnlinked);
    ReplayOne(hash, Replay(d, unlinking), [], StateRemoved);
  }

  lemma GivingUpNames(hash: Bytes -> string, d: Disk, effects: seq<Effect>, t: Tidy)
    ensures Replay(d, GivingUp(effects, t).effects).places == Unlinked(Replay(d, effects).places, t.unlinks)
  {
    ReplayConcat(hash, d, [], effects, Cleanup(t));
    CleanupNames(hash, Replay(d, effects), t);
  }

  lemma SavingNames(hash: Bytes -> string, d: Disk, k: nat, save: Save)
    ensures Replay(d, Saving(k, save)).places == d.places
  {
    ReplayOne(hash, d, [], StateSet(k));
    ReplayTwo(hash, d, [], StateSet(k), StateDirSynced);
  }

  lemma PersistNames(hash: Bytes -> string, d: Disk, k: nat, synced: bool, save: Save)
    ensures Replay(d, Persist(k, synced, save)).places == if synced then Synced(d.binds, d.places) else d.places
  {
    if synced {
      ReplayOne(hash, d, [], TempSynced);
      ReplayConcat(hash, d, [], [TempSynced], Saving(k, save));
      SavingNames(hash, Apply(d, TempSynced), k, save);
    }
  }

  lemma OpenNames(hash: Bytes -> string, s: Sys, creates: bool, save: Save, acks: bool, tidy: Tidy)
    requires !s.begun
    ensures var c := Open(creates, save, acks, tidy);
            Replay(s.disk, OpenWrite(creates, save, acks, tidy).effects).places
            == Naming(s.disk.binds, s.disk.places, creates, false, None, Unlinks(hash, s, c))
  {
    if creates {
      var made := [TempCreated] + Saving(0, save);
      ReplayOne(hash, s.disk, [], TempCreated);
      ReplayConcat(hash, s.disk, [], [TempCreated], Saving(0, save));
      SavingNames(hash, Apply(s.disk, TempCreated), 0, save);
      var unlinking := if tidy.unlinks then [TempUnlinked] else [];
      ReplayConcat(hash, s.disk, [], made, unlinking);
      ReplayOne(hash, Replay(s.disk, made), [], TempUnlinked);
      GivingUpNames(hash, s.disk, made, tidy);
    }
  }

  lemma WritingNames(hash: Bytes -> string, d: Disk, m: Live, x: ChunkIn)
    ensures Replay(d, Writing(m, x)).places == if Due(m, x) && x.synced then Synced(d.binds, d.places) else d.places
  {
    var n := m.committed + |x.data|;
    var saving := if Due(m, x) then Persist(n, x.synced, x.save) else [];
    ReplayOne(hash, d, [], Appended(x.data));
    ReplayConcat(hash, d, [], [Appended(x.data)], saving);
    if Due(m, x) {
      PersistNames(hash, Apply(d, Appended(x.data)), n, x.synced, x.save);
    }
  }

  lemma ChunkNames(hash: Bytes -> string, s: Sys, x: ChunkIn)
    requires s.live.Some?
    ensures var c := Chunk(x);
            Replay(s.disk, WriteChunk(s.live.value, x).effects).places
            == Naming(s.disk.binds, s.disk.places, false, Syncs(hash, s, c), None, Unlinks(hash, s, c))
  {
    var m := s.live.value;
    if x.offset == m.committed && x.written {
      WritingNames(hash, s.disk, m, x);
      GivingUpNames(hash, s.disk, Writing(m, x), x.tidy);
    } else {
      var first := if x.offset == m.committed then [Appended(x.data[..Min(x.partial, |x.data|)])] else [];
      OffName(s.disk, first);
      GivingUpNames(hash, s.disk, first, x.tidy);
    }
  }

  lemma ResumeNames(hash: Bytes -> string, s: Sys, x: ResumeIn)
    requires s.live.None? && s.begun
    ensures Replay(s.disk, ResumeWrite(s.disk, x).effects).places == Unlinked(s.disk.places, Unlinks(hash, s, Resume(x)))
  {
    if Offset(s.disk).Some? {
      var first := [Truncated(Offset(s.disk).value)];
      OffName(s.disk, first);
      GivingUpNames(hash, s.disk, first, x.tidy);
    }
  }

  lemma FinishingNames(hash: Bytes -> string, d: Disk, x: FinishIn)
    ensures Replay(d, Finishing(d, x)).places == Rename(d.places, Renamed(d, x))
  {
    var place := Installed(x.step.Stage?, x.sum);
    OnlyBackups(hash, d, [], x);
    if Renamed(d, x).Some? {
      var b := Replay(d, BackingUp(d, x));
      ReplayConcat(hash, d, [], BackingUp(d, x), Renaming(place, x));
      ReplayOne(hash, b, [], RenamedTo(place));
      assert x.dirSynced ==> Renaming(place, x) == [RenamedTo(place), DirSynced];
      ReplayTwo(hash, b, [], RenamedTo(place), DirSynced);
    } else {
      assert Finishing(d, x) == [] || Finishing(d, x) == BackingUp(d, x);
    }
  }

  lemma FinishNames(hash: Bytes -> string, s: Sys, x: FinishIn)
    requires s.live.Some?
    ensures var c := Finish(x);
            Replay(s.disk, FinalizeWrite(hash, s.disk, s.live.value, x).effects).places
            == Naming(s.disk.binds, s.disk.places, false, Syncs(hash, s, c), Renames(hash, s, c), Unlinks(hash, s, c))
  {
    var d := s.disk;
    if Syncs(hash, s, Finish(x)) {
      var first := [TempSynced] + if x.closes then Finishing(d, x) else [];
      var rest := if x.closes && FinishWorks(d, x) then (if x.tidy.removes then [StateRemoved] else []) else Cleanup(x.tidy);
      FinishSplits(hash, d, s.live.value, x);
      FirstNames(hash, d, x);
      ReplayConcat(hash, d, [], first, rest);
      CleanupNames(hash, Replay(d, first), x.tidy);
      OffName(Replay(d, first), if x.tidy.removes then [StateRemoved] else []);
    } else {
      GivingUpNames(hash, d, [], x.tidy);
    }
  }

  lemma FirstNames(hash: Bytes -> string, d: Disk, x: FinishIn)
    ensures Replay(d, [TempSynced] + if x.closes then Finishing(d, x) else []).places
         == Rename(Synced(d.binds, d.places), if x.closes then Renamed(d, x) else None)
  {
    var synced := Apply(d, TempSynced);
    SyncedFinishes(d, x);
    ReplayOne(hash, d, [], TempSynced);
    ReplayConcat(hash, d, [], [TempSynced], if x.closes then Finishing(d, x) else []);
    if x.closes {
      FinishingNames(hash, synced, x);
    }
  }

  lemma CommandNames(hash: Bytes -> string, s: Sys, c: Command)
    ensures Replay(s.disk, Run(hash, s, c).effects).places
         == Naming(s.disk.binds, s.disk.places, Creates(s, c), Syncs(hash, s, c), Renames(hash, s, c), Unlinks(hash, s, c))
  {
    match c {
      case Open(creates, save, acks, tidy) => if !s.begun { OpenNames(hash, s, creates, save, acks, tidy); }
      case Chunk(x) => if s.live.Some? { ChunkNames(hash, s, x); }
      case RecvError(synced, save) =>
        if s.live.Some? { PersistNames(hash, s.disk, s.live.value.committed, synced, save); }
      case Resume(x) => if s.live.None? && s.begun { ResumeNames(hash, s, x); }
      case Abort(tidy) => GivingUpNames(hash, s.disk, [], tidy);
      case Cancel(tidy) => CleanupNames(hash, s.disk, tidy);
      case Finish(x) => if s.live.Some? { FinishNames(hash, s, x); }
    }
  }

  lemma EventNames(hash: Bytes -> string, s: Sys, e: Event)
    ensures Next(hash, s, e).disk.places == NamesAfter(hash, s, e, s.disk.places)
  {
    if e.Done? {
      CommandNames(hash, s, e.command);
    }
  }

  lemma UnsettledNamesStep(hash: Bytes -> string, start: Sys, before: seq<Event>, e: Event)
    requires After(hash, start, before).disk.places == UnsettledNames(hash, start, before)
    ensures After(hash, start, before + [e]).disk.places == UnsettledNames(hash, start, before + [e])
  {
    var events := before + [e];
    assert events[..|events| - 1] == before && events[|events| - 1] == e;
    LastEvent(hash, start, before, e);
    EventNames(hash, After(hash, start, before), e);
  }

  // What a crash may bring back of the file's name is what the outcomes of the
  // fsyncs and renames so far leave unsettled.
  lemma {:induction false} NamesAreExact(hash: Bytes -> string, start: Sys, events: seq<Event>)
    ensures After(hash, start, events).disk.places == UnsettledNames(hash, start, events)
  {
    if events != [] {
      var n := |events| - 1;
      assert events == events[..n] + [events[n]];
      NamesAreExact(hash, start, events[..n]);
      UnsettledNamesStep(hash, start, events[..n], events[n]);
    }
  }
}
