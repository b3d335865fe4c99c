/**
 What the deploy slots promise: .current is never missing or partial, a failed
 deploy leaves it alone, Revert undoes a deploy, and Status and the pending
 marker agree with the disk.
 */
module DeployProofs {
  import opened Common
  import opened Text
  import opened DeployState
  import opened Deploy

  // ---- Operations that leave a slot alone ----

  predicate Touches(e: Effect, slot: Slot) {
    match e
    case Renamed(from, to) => from == slot || to == slot
    case Removed(s) => s == slot
    case Wrote(s, _) => s == slot
    case _ => false
  }

  predicate Leaves(effects: seq<Effect>, slot: Slot) {
    forall e :: e in effects ==> !Touches(e, slot)
  }

  lemma {:induction false} LeftAlone(d: Disk, effects: seq<Effect>, slot: Slot)
    requires Leaves(effects, slot)
    ensures File(Replay(d, effects), slot) == File(d, slot)
    decreases effects
  {
    if effects != [] {
      assert effects[0] in effects;
      LeftAlone(Apply(d, effects[0]), effects[1..], slot);
    }
  }

  lemma {:induction false} ReplayConcat(d: Disk, a: seq<Effect>, b: seq<Effect>)
    ensures Replay(d, a + b) == Replay(Replay(d, a), b)
    decreases a
  {
    if a == [] {
      assert a + b == b;
    } else {
      assert (a + b)[1..] == a[1..] + b;
      ReplayConcat(Apply(d, a[0]), a[1..], b);
    }
  }

  lemma ReplayOne(d: Disk, e: Effect)
    ensures Replay(d, [e]) == Apply(d, e)
  {
    assert [e][1..] == [];
  }

  // A prefix of `before + [e] + after` stops before e, or e took effect and the
  // rest did not touch the slot.
  lemma CutAround(d: Disk, before: seq<Effect>, e: Effect, after: seq<Effect>, slot: Slot, n: nat)
    requires n <= |before + ([e] + after)|
    requires Leaves(before, slot) && Leaves(after, slot)
    ensures n <= |before| ==> File(Replay(d, (before + ([e] + after))[..n]), slot) == File(d, slot)
    ensures n > |before| ==> File(Replay(d, (before + ([e] + after))[..n]), slot) == File(Apply(Replay(d, before), e), slot)
  {
    var all := before + ([e] + after);
    if n <= |before| {
      assert all[..n] == before[..n];
      LeftAlone(d, before[..n], slot);
    } else {
      var rest := after[..n - |before| - 1];
      assert all[..n] == before + ([e] + rest);
      ReplayConcat(d, before, [e] + rest);
      ReplayConcat(Replay(d, before), [e], rest);
      ReplayOne(Replay(d, before), e);
      LeftAlone(Apply(Replay(d, before), e), rest, slot);
    }
  }

  // ---- What a copy does ----

  // A copy writes and removes its temp file only; the rename is its last step.
  predicate OnTemp(e: Effect, dst: Slot) {
    match e
    case Wrote(slot, _) => slot == TempOf(dst)
    case Removed(slot) => slot == TempOf(dst)
    case _ => false
  }

  function Copied(content: Bytes, dst: Slot, env: Env): seq<Effect> {
    var tmp := TempOf(dst);
    [Wrote(tmp, [])] + [Wrote(tmp, content[..Min(env.partial, |content|)])] + [Wrote(tmp, content)]
  }

  lemma CopySteps(content: Bytes, dst: Slot, fault: CopyFault, env: Env)
    ensures var c := Copy(content, dst, fault, env);
            && (c.ok <==> fault.CopyFine?)
            && (c.ok ==> c.effects == Copied(content, dst, env) + [Renamed(TempOf(dst), dst)])
            && (!c.ok ==> forall e :: e in c.effects ==> OnTemp(e, dst))
    ensures forall e :: e in Copied(content, dst, env) ==> OnTemp(e, dst)
  {
    if !fault.CopyFine? {
      FailedCopySteps(content, dst, fault, env);
    }
  }

  lemma FailedCopySteps(content: Bytes, dst: Slot, fault: CopyFault, env: Env)
    requires !fault.CopyFine?
    ensures forall e :: e in Copy(content, dst, fault, env).effects ==> OnTemp(e, dst)
  {
    assert forall e :: e in Tidy(env, TempOf(dst)) ==> OnTemp(e, dst);
  }

  // Everything but the temp file and, at the end, the destination is left alone.
  lemma CopyTouches(content: Bytes, dst: Slot, fault: CopyFault, env: Env)
    ensures var c := Copy(content, dst, fault, env);
            && (forall slot :: slot != dst && slot != TempOf(dst) ==> Leaves(c.effects, slot))
            && (forall e :: e in c.effects ==> !e.StateWritten?)
            && (!c.ok && (dst == Current || dst == Previous) ==> Leaves(c.effects, dst))
  {
    CopySteps(content, dst, fault, env);
  }

  lemma CopyDone(d: Disk, content: Bytes, dst: Slot, fault: CopyFault, env: Env)
    requires dst == Current || dst == Previous
    ensures var c := Copy(content, dst, fault, env);
            && (c.ok <==> fault.CopyFine?)
            && (forall slot :: slot != dst && slot != TempOf(dst) ==> Leaves(c.effects, slot))
            && (!c.ok ==> Leaves(c.effects, dst))
            && (c.ok ==> c.effects != [] && c.effects[|c.effects| - 1] == Renamed(TempOf(dst), dst)
                         && Leaves(c.effects[..|c.effects| - 1], dst)
                         && File(Replay(d, c.effects), dst) == Some(content))
            && (forall e :: e in c.effects ==> !e.StateWritten?)
  {
    CopySteps(content, dst, fault, env);
    CopyTouches(content, dst, fault, env);
    if fault.CopyFine? {
      CopyWhole(d, content, dst, env);
    }
  }

  lemma CopyWhole(d: Disk, content: Bytes, dst: Slot, env: Env)
    requires dst == Current || dst == Previous
    ensures var effects, whole := Copy(content, dst, CopyFine, env).effects, Copied(content, dst, env);
            && effects == whole + [Renamed(TempOf(dst), dst)] && effects[..|effects| - 1] == whole
            && Leaves(whole, dst)
            && File(Replay(d, effects), dst) == Some(content)
  {
    var whole, tmp := Copied(content, dst, env), TempOf(dst);
    CopySteps(content, dst, CopyFine, env);
    WholeIsThere(d, content, dst, env);
    ReplayConcat(d, whole, [Renamed(tmp, dst)]);
    ReplayOne(Replay(d, whole), Renamed(tmp, dst));
  }

  lemma WholeIsThere(d: Disk, content: Bytes, dst: Slot, env: Env)
    ensures File(Replay(d, Copied(content, dst, env)), TempOf(dst)) == Some(content)
  {
    var tmp := TempOf(dst);
    var begun := [Wrote(tmp, [])] + [Wrote(tmp, content[..Min(env.partial, |content|)])];
    ReplayConcat(d, begun, [Wrote(tmp, content)]);
    ReplayOne(Replay(d, begun), Wrote(tmp, content));
  }

  lemma BackupLeaves(d: Disk, fault: Fault, env: Env)
    ensures var backup := Backup(d, fault, env);
            && Leaves(backup.effects, Current) && Leaves(backup.effects, Staged)
            && (backup.ok && Current in d.files ==> File(Replay(d, backup.effects), Previous) == Some(d.files[Current]))
            && forall e :: e in backup.effects ==> !e.StateWritten?
  {
    if Current in d.files {
      CopyDone(d, d.files[Current], Previous, if fault.CopyCurrent? then fault.copy else CopyFine, env);
    }
  }

  // The operations of a deploy up to the swap.
  function BeforeSwap(d: Disk, src: Slot, fault: Fault, env: Env): Outcome {
    var staging := [Renamed(src, Staged)];
    if fault.Chmod? then Outcome(staging + Tidy(env, Staged), false)
    else
      var backup := Backup(Apply(d, Renamed(src, Staged)), fault, env);
      if !backup.ok || fault.Swap? then Outcome(staging + (backup.effects + Tidy(env, Staged)), false)
      else Outcome(staging + backup.effects, true)
  }

  function AfterSwap(hash: Bytes -> string, d: Disk, src: Slot, version: string, fault: Fault, env: Env): string
    requires src in d.files
  {
    var swap := BeforeSwap(d, src, fault, env).effects + [Renamed(Staged, Current)];
    Record(hash, Replay(d, swap), d.files[src], version, env)
  }

  // A deploy is what comes before the swap, the swap, and the notes after it.
  lemma DeployShape(hash: Bytes -> string, d: Disk, src: Slot, want: string, version: string, fault: Fault, env: Env)
    requires Accepted(hash, d, src, want, fault)
    ensures var out := DeployFrom(hash, d, src, want, version, fault, env);
            var before := BeforeSwap(d, src, fault, env);
            && out.ok == before.ok
            && (!out.ok ==> out.effects == before.effects)
            && (out.ok ==> out.effects == before.effects + ([Renamed(Staged, Current)]
                                          + Notes(AfterSwap(hash, d, src, version, fault, env), env)))
  {
    var staging := Renamed(src, Staged);
    var backup := Backup(Apply(d, staging), fault, env);
    var swap := backup.effects + [Renamed(Staged, Current)];
    ReplayConcat(d, [staging], swap);
    ReplayOne(d, staging);
    assert [staging] + swap == ([staging] + backup.effects) + [Renamed(Staged, Current)];
  }

  // Up to the swap a deploy leaves .current and the state file alone.
  lemma BeforeSwapLeaves(d: Disk, src: Slot, fault: Fault, env: Env)
    requires src != Current
    ensures Leaves(BeforeSwap(d, src, fault, env).effects, Current)
    ensures forall e :: e in BeforeSwap(d, src, fault, env).effects ==> !e.StateWritten?
  {
    BackupLeaves(Apply(d, Renamed(src, Staged)), fault, env);
  }

  // When it gets to the swap, the staged slot holds the source's bytes and
  // .previous the bytes of .current.
  lemma BeforeSwapDone(d: Disk, src: Slot, fault: Fault, env: Env)
    requires src in d.files && src != Current && BeforeSwap(d, src, fault, env).ok
    ensures var before := BeforeSwap(d, src, fault, env);
            && File(Replay(d, before.effects), Staged) == Some(d.files[src])
            && (Current in d.files ==> File(Replay(d, before.effects), Previous) == Some(d.files[Current]))
  {
    var staged := Apply(d, Renamed(src, Staged));
    var backup := Backup(staged, fault, env);
    BackupLeaves(staged, fault, env);
    ReplayConcat(d, [Renamed(src, Staged)], backup.effects);
    ReplayOne(d, Renamed(src, Staged));
    LeftAlone(staged, backup.effects, Staged);
  }

  lemma NotesLeave(text: string, env: Env, slot: Slot)
    ensures Leaves(Notes(text, env), slot)
  {
  }

  // ---- Main results ----

  // At every point of a deploy, a crash included, an existing .current is whole:
  // the old bytes, or the new bytes whose hash the caller asked for. The source
  // must not be .current itself.
  lemma CurrentSurvivesDeploy(hash: Bytes -> string, d: Disk, src: Slot, want: string, version: string,
                              fault: Fault, env: Env, n: nat)
    requires Current in d.files && src != Current
    requires n <= |DeployFrom(hash, d, src, want, version, fault, env).effects|
    ensures var now := File(Replay(d, DeployFrom(hash, d, src, want, version, fault, env).effects[..n]), Current);
            || now == Some(d.files[Current])
            || (src in d.files && now == Some(d.files[src]) && EqualFold(hash(d.files[src]), want))
  {
    var out := DeployFrom(hash, d, src, want, version, fault, env);
    if Accepted(hash, d, src, want, fault) {
      var before := BeforeSwap(d, src, fault, env);
      BeforeSwapLeaves(d, src, fault, env);
      DeployShape(hash, d, src, want, version, fault, env);
      if before.ok {
        BeforeSwapDone(d, src, fault, env);
        var text := AfterSwap(hash, d, src, version, fault, env);
        NotesLeave(text, env, Current);
        CutAround(d, before.effects, Renamed(Staged, Current), Notes(text, env), Current, n);
      } else {
        LeftAlone(d, out.effects[..n], Current);
      }
    } else {
      assert out.effects[..n] == [];
    }
  }

  // An error leaves .current as it was; success makes it the source's bytes and
  // .previous the bytes that were current.
  lemma DeployResult(hash: Bytes -> string, d: Disk, src: Slot, want: string, version: string, fault: Fault, env: Env)
    requires src != Current
    ensures var out := DeployFrom(hash, d, src, want, version, fault, env);
            var after := Replay(d, out.effects);
            && (!out.ok ==> File(after, Current) == File(d, Current))
            && (out.ok ==> src in d.files && EqualFold(hash(d.files[src]), want) && File(after, Current) == Some(d.files[src]))
            && (out.ok && Current in d.files ==> File(after, Previous) == Some(d.files[Current]))
  {
    var out := DeployFrom(hash, d, src, want, version, fault, env);
    if Accepted(hash, d, src, want, fault) {
      var before := BeforeSwap(d, src, fault, env);
      BeforeSwapLeaves(d, src, fault, env);
      DeployShape(hash, d, src, want, version, fault, env);
      if before.ok {
        BeforeSwapDone(d, src, fault, env);
        var swap := before.effects + [Renamed(Staged, Current)];
        var text := AfterSwap(hash, d, src, version, fault, env);
        Associates(before.effects, [Renamed(Staged, Current)], Notes(text, env));
        ReplayConcat(d, swap, Notes(text, env));
        ReplayConcat(d, before.effects, [Renamed(Staged, Current)]);
        ReplayOne(Replay(d, before.effects), Renamed(Staged, Current));
        NotesLeave(text, env, Current);
        NotesLeave(text, env, Previous);
        LeftAlone(Replay(d, swap), Notes(text, env), Current);
        LeftAlone(Replay(d, swap), Notes(text, env), Previous);
      } else {
        LeftAlone(d, out.effects, Current);
      }
    }
  }

  // Where hashes are lower-case hex a deploy succeeds only if the source has
  // exactly the hash asked for; with any other it does nothing at all.
  lemma DeployChecksHash(hash: Bytes -> string, d: Disk, src: Slot, want: string, version: string, fault: Fault, env: Env)
    requires LowerHashes(hash) && NoUpper(want) && src != Current
    ensures var out := DeployFrom(hash, d, src, want, version, fault, env);
            && (out.ok ==> src in d.files && hash(d.files[src]) == want && File(Replay(d, out.effects), Current) == Some(d.files[src]))
            && (src in d.files && hash(d.files[src]) != want ==> !out.ok && out.effects == [])
  {
    DeployResult(hash, d, src, want, version, fault, env);
    if src in d.files {
      assert NoUpper(hash(d.files[src]));
      FoldIsEqual(hash(d.files[src]), want);
    }
  }

  // At every point of a Revert, .current holds its old bytes or .previous's.
  lemma CurrentSurvivesRevert(hash: Bytes -> string, d: Disk, readable: bool, fault: CopyFault, env: Env, n: nat)
    requires Current in d.files
    requires n <= |Revert(hash, d, readable, fault, env).effects|
    ensures var now := File(Replay(d, Revert(hash, d, readable, fault, env).effects[..n]), Current);
            now == Some(d.files[Current]) || (Previous in d.files && now == Some(d.files[Previous]))
  {
    var out := Revert(hash, d, readable, fault, env);
    if Previous in d.files && readable {
      var content := d.files[Previous];
      var copy := Copy(content, Current, fault, env);
      CopyDone(d, content, Current, fault, env);
      if copy.ok {
        var before := copy.effects[..|copy.effects| - 1];
        var rename := Renamed(CurrentTmp, Current);
        var notes := Notes(Reverted(hash, content, env), env);
        assert copy.effects == before + [rename];
        assert out.effects == before + ([rename] + notes);
        ReplayConcat(d, before, [rename]);
        ReplayOne(Replay(d, before), rename);
        NotesLeave(Reverted(hash, content, env), env, Current);
        CutAround(d, before, rename, notes, Current, n);
      } else {
        LeftAlone(d, out.effects[..n], Current);
      }
    } else {
      assert out.effects[..n] == [];
    }
  }

  lemma RevertResult(hash: Bytes -> string, d: Disk, readable: bool, fault: CopyFault, env: Env)
    ensures var out := Revert(hash, d, readable, fault, env);
            var after := Replay(d, out.effects);
            && File(after, Previous) == File(d, Previous)
            && (!out.ok ==> File(after, Current) == File(d, Current))
            && (out.ok ==> Previous in d.files && File(after, Current) == File(d, Previous))
  {
    if Previous in d.files && readable {
      var content := d.files[Previous];
      var copy := Copy(content, Current, fault, env);
      CopyDone(d, content, Current, fault, env);
      LeftAlone(d, copy.effects, Previous);
      if copy.ok {
        var text := Reverted(hash, content, env);
        ReplayConcat(d, copy.effects, Notes(text, env));
        NotesLeave(text, env, Current);
        NotesLeave(text, env, Previous);
        LeftAlone(Replay(d, copy.effects), Notes(text, env), Current);
        LeftAlone(Replay(d, copy.effects), Notes(text, env), Previous);
      } else {
        LeftAlone(d, copy.effects, Current);
      }
    }
  }

  // A deploy over an existing .current, then a Revert, restores the old bytes.
  lemma RevertUndoesDeploy(hash: Bytes -> string, d: Disk, src: Slot, want: string, version: string,
                           fault: Fault, env: Env, readable: bool, copyFault: CopyFault, env': Env)
    requires Current in d.files && src != Current
    requires DeployFrom(hash, d, src, want, version, fault, env).ok
    requires Revert(hash, Replay(d, DeployFrom(hash, d, src, want, version, fault, env).effects), readable, copyFault, env').ok
    ensures var deployed := Replay(d, DeployFrom(hash, d, src, want, version, fault, env).effects);
            File(Replay(deployed, Revert(hash, deployed, readable, copyFault, env').effects), Current) == Some(d.files[Current])
  {
    var deployed := Replay(d, DeployFrom(hash, d, src, want, version, fault, env).effects);
    DeployResult(hash, d, src, want, version, fault, env);
    RevertResult(hash, deployed, readable, copyFault, env');
  }

  // An accepted deploy keeps .current present at every point exactly when its
  // source is another file. The daemon's caller always passes a .staged path, so
  // only the first side is an input it meets.
  lemma SourceMustNotBeCurrent(hash: Bytes -> string, d: Disk, src: Slot, want: string, version: string, fault: Fault, env: Env)
    requires Current in d.files && Accepted(hash, d, src, want, fault)
    ensures (forall n: nat :: n <= |DeployFrom(hash, d, src, want, version, fault, env).effects| ==>
               File(Replay(d, DeployFrom(hash, d, src, want, version, fault, env).effects[..n]), Current).Some?)
            <==> src != Current
  {
    var effects := DeployFrom(hash, d, src, want, version, fault, env).effects;
    if src == Current {
      assert effects[0] == Renamed(src, Staged);
      assert effects[..1] == [Renamed(src, Staged)];
      ReplayOne(d, Renamed(src, Staged));
    } else {
      forall n: nat | n <= |effects| ensures File(Replay(d, effects[..n]), Current).Some? {
        CurrentSurvivesDeploy(hash, d, src, want, version, fault, env, n);
      }
    }
  }

  // ---- Status and the marker against the disk ----

  ghost predicate Agrees(hash: Bytes -> string, d: Disk) {
    var report := Status(hash, d, true, true, true).value;
    report.active == HashOf(hash, d, Current) && report.previous == HashOf(hash, d, Previous)
  }

  // Where the disk and the record agree, a Status that cannot hash a slot reports
  // it right exactly when it did not need to: the hash is on record, or the slot
  // is empty.
  lemma UnhashableSlot(hash: Bytes -> string, d: Disk, hashesCurrent: bool, hashesPrevious: bool)
    requires HashText(hash) && Agrees(hash, d)
    ensures var report := Status(hash, d, true, hashesCurrent, hashesPrevious).value;
            && (report.active == HashOf(hash, d, Current)
                <==> hashesCurrent || Recorded(d).active != "" || Current !in d.files)
            && (report.previous == HashOf(hash, d, Previous)
                <==> hashesPrevious || Recorded(d).previous != "" || Previous !in d.files)
            && report.deployedAt == Recorded(d).deployedAt
  {
    if Current in d.files {
      assert hash(d.files[Current]) != "";
    }
    if Previous in d.files {
      assert hash(d.files[Previous]) != "";
    }
  }

  function ReportedHealth(hash: Bytes -> string, d: Disk): string {
    Status(hash, d, true, true, true).value.health
  }

  // The marker exists exactly while the health Status reports is pending.
  ghost predicate MarkerTells(hash: Bytes -> string, d: Disk) {
    d.state.Some? ==> (d.marker <==> ReportedHealth(hash, d) == "pending")
  }

  datatype Command =
    | DeployCommand(src: Slot, want: string, version: string, fault: Fault, env: Env)
    | RevertCommand(readable: bool, copyFault: CopyFault, env: Env)
    | HealthyCommand(readable: bool, env: Env)

  function Perform(hash: Bytes -> string, d: Disk, c: Command): Outcome {
    match c
    case DeployCommand(src, want, version, fault, env) => DeployFrom(hash, d, src, want, version, fault, env)
    case RevertCommand(readable, fault, env) => Revert(hash, d, readable, fault, env)
    case HealthyCommand(readable, env) => MarkHealthy(hash, d, readable, env)
  }

  // A command that succeeds and whose state and marker writes succeed too, from
  // a caller that passes a one-line version and a source other than .current.
  predicate Succeeds(hash: Bytes -> string, d: Disk, c: Command) {
    && Perform(hash, d, c).ok
    && c.env.writesState && c.env.writesMarker && IsInt64(c.env.now)
    && (c.DeployCommand? ==> c.src != Current && NoNewline(c.version))
  }

  predicate AllSucceed(hash: Bytes -> string, d: Disk, cs: seq<Command>)
    decreases cs
  {
    cs == [] || (Succeeds(hash, d, cs[0]) && AllSucceed(hash, Replay(d, Perform(hash, d, cs[0]).effects), cs[1..]))
  }

  function PerformAll(hash: Bytes -> string, d: Disk, cs: seq<Command>): Disk
    decreases cs
  {
    if cs == [] then d else PerformAll(hash, Replay(d, Perform(hash, d, cs[0]).effects), cs[1..])
  }

  lemma NotesDone(d: Disk, text: string, env: Env)
    requires env.writesState && env.writesMarker
    ensures Replay(d, Notes(text, env)) == d.(state := Some(text), marker := true)
  {
    assert Notes(text, env) == [StateWritten(text)] + [MarkerWritten];
    ReplayConcat(d, [StateWritten(text)], [MarkerWritten]);
    ReplayOne(d, StateWritten(text));
    ReplayOne(d.(state := Some(text)), MarkerWritten);
  }

  lemma CleanIsKept(v: string)
    requires Clean(v)
    ensures TrimSpaceRight(v) == v
  {
  }

  lemma HashIsClean(hash: Bytes -> string, d: Disk, slot: Slot)
    requires HashText(hash)
    ensures Clean(HashOf(hash, d, slot))
  {
    if slot in d.files {
      assert Clean(hash(d.files[slot]));
    }
  }

  // A record of the disk's own hashes, read back, makes Status agree.
  lemma RecordAgrees(hash: Bytes -> string, d: Disk, s: DeployState)
    requires HashText(hash) && IsInt64(s.deployedAt) && d.state == Some(Encode(s))
    requires s.active == HashOf(hash, d, Current) || s.active == ""
    requires s.previous == HashOf(hash, d, Previous) || s.previous == ""
    requires NoNewline(s.version) && Clean(s.health)
    ensures Agrees(hash, d) && Recorded(d).health == s.health
  {
    HashIsClean(hash, d, Current);
    HashIsClean(hash, d, Previous);
    ParseOfEncode(s);
  }

  // What a deploy that succeeds leaves: the swapped disk with its record and the marker.
  lemma DeployLands(hash: Bytes -> string, d: Disk, c: Command) returns (swapped: Disk, s: DeployState)
    requires HashText(hash) && c.DeployCommand? && Succeeds(hash, d, c)
    ensures Replay(d, Perform(hash, d, c).effects) == swapped.(state := Some(Encode(s)), marker := true)
    ensures c.src in d.files
    ensures s == DeployState(hash(d.files[c.src]), HashOrNone(hash, swapped, Previous, c.env.hashesPrevious),
                             c.version, c.env.now, PENDING)
  {
    var before := BeforeSwap(d, c.src, c.fault, c.env);
    var swap := before.effects + [Renamed(Staged, Current)];
    var text := AfterSwap(hash, d, c.src, c.version, c.fault, c.env);
    swapped := Replay(d, swap);
    s := DeployState(hash(d.files[c.src]), HashOrNone(hash, swapped, Previous, c.env.hashesPrevious),
                     c.version, c.env.now, PENDING);
    DeployShape(hash, d, c.src, c.want, c.version, c.fault, c.env);
    Associates(before.effects, [Renamed(Staged, Current)], Notes(text, c.env));
    ReplayConcat(d, swap, Notes(text, c.env));
    NotesDone(swapped, text, c.env);
  }

  lemma DeployAgrees(hash: Bytes -> string, d: Disk, c: Command)
    requires HashText(hash) && c.DeployCommand? && Succeeds(hash, d, c)
    ensures Agrees(hash, Replay(d, Perform(hash, d, c).effects))
    ensures MarkerTells(hash, Replay(d, Perform(hash, d, c).effects))
  {
    var swapped, s := DeployLands(hash, d, c);
    DeployResult(hash, d, c.src, c.want, c.version, c.fault, c.env);
    RecordAgrees(hash, swapped.(state := Some(Encode(s)), marker := true), s);
  }

  lemma RevertAgrees(hash: Bytes -> string, d: Disk, c: Command)
    requires HashText(hash) && c.RevertCommand? && Succeeds(hash, d, c)
    ensures Agrees(hash, Replay(d, Perform(hash, d, c).effects))
    ensures MarkerTells(hash, Replay(d, Perform(hash, d, c).effects))
  {
    var content := d.files[Previous];
    var copy := Copy(content, Current, c.copyFault, c.env);
    var copied := Replay(d, copy.effects);
    var text := Reverted(hash, content, c.env);
    ReplayConcat(d, copy.effects, Notes(text, c.env));
    NotesDone(copied, text, c.env);
    RevertResult(hash, d, c.readable, c.copyFault, c.env);
    RecordAgrees(hash, copied.(state := Some(text), marker := true),
                 DeployState(hash(content), hash(content), "reverted", c.env.now, PENDING));
  }

  lemma HealthyAgrees(hash: Bytes -> string, d: Disk, c: Command)
    requires HashText(hash) && c.HealthyCommand? && Succeeds(hash, d, c) && Agrees(hash, d)
    ensures Agrees(hash, Replay(d, Perform(hash, d, c).effects))
    ensures MarkerTells(hash, Replay(d, Perform(hash, d, c).effects))
  {
    var s := Healthy(hash, d, c.env);
    MarkDone(d, Encode(s));
    RecordedIsClean(d);
    RecordAgrees(hash, d.(state := Some(Encode(s)), marker := false), s);
  }

  lemma RecordedIsClean(d: Disk)
    ensures CleanState(Recorded(d)) && IsInt64(Recorded(d).deployedAt)
  {
    if d.state.Some? {
      ParsedIsClean(EMPTY, Split(d.state.value));
      ParsedTimeFits(EMPTY, Split(d.state.value));
    }
  }

  lemma {:induction false} ParsedTimeFits(s: DeployState, lines: seq<string>)
    requires IsInt64(s.deployedAt)
    ensures IsInt64(ParseLines(s, lines).deployedAt)
    decreases lines
  {
    if lines != [] {
      ParsedTimeFits(ParseLine(s, lines[0]), lines[1..]);
    }
  }

  lemma CommandAgrees(hash: Bytes -> string, d: Disk, c: Command)
    requires HashText(hash) && Succeeds(hash, d, c) && Agrees(hash, d)
    ensures Agrees(hash, Replay(d, Perform(hash, d, c).effects))
    ensures MarkerTells(hash, Replay(d, Perform(hash, d, c).effects))
  {
    match c
    case DeployCommand(_, _, _, _, _) => DeployAgrees(hash, d, c);
    case RevertCommand(_, _, _) => RevertAgrees(hash, d, c);
    case HealthyCommand(_, _) => HealthyAgrees(hash, d, c);
  }

  // After any sequence of successful deploys, reverts and health marks, Status
  // reports exactly the hashes of the files in .current and .previous, and the
  // pending marker exists exactly when the recorded health is pending.
  lemma {:induction false} StatusAgreesWithDisk(hash: Bytes -> string, d: Disk, cs: seq<Command>)
    requires HashText(hash) && Agrees(hash, d) && MarkerTells(hash, d) && AllSucceed(hash, d, cs)
    ensures Agrees(hash, PerformAll(hash, d, cs)) && MarkerTells(hash, PerformAll(hash, d, cs))
    decreases cs
  {
    if cs != [] {
      CommandAgrees(hash, d, cs[0]);
      StatusAgreesWithDisk(hash, Replay(d, Perform(hash, d, cs[0]).effects), cs[1..]);
    }
  }

  lemma MarkDone(d: Disk, text: string)
    ensures Replay(d, [StateWritten(text), MarkerRemoved]) == d.(state := Some(text), marker := false)
  {
    assert [StateWritten(text), MarkerRemoved] == [StateWritten(text)] + [MarkerRemoved];
    ReplayConcat(d, [StateWritten(text)], [MarkerRemoved]);
    ReplayOne(d, StateWritten(text));
    ReplayOne(d.(state := Some(text)), MarkerRemoved);
  }

  lemma HealthyReadsBack(hash: Bytes -> string, d: Disk, env: Env)
    requires HashText(hash) && IsInt64(env.now)
    ensures Parse(Encode(Healthy(hash, d, env))) == Healthy(hash, d, env)
  {
    RecordedIsClean(d);
    HashIsClean(hash, d, Current);
    HashIsClean(hash, d, Previous);
    RoundTrip(Healthy(hash, d, env));
  }

  // A health mark that succeeds: Status reports ok, the marker is gone, and the
  // record keeps its version, its hashes and its time, as far as it had them.
  lemma HealthyIsExact(hash: Bytes -> string, d: Disk, readable: bool, env: Env)
    requires HashText(hash) && IsInt64(env.now)
    ensures var out, was := MarkHealthy(hash, d, readable, env), Recorded(d);
            var after := Replay(d, out.effects);
            && (out.ok <==> readable && env.writesState && env.removes)
            && (out.ok ==>
                  && ReportedHealth(hash, after) == "ok" && !after.marker && after.files == d.files
                  && Recorded(after).version == was.version
                  && (was.active != "" ==> Recorded(after).active == was.active)
                  && (was.active == "" && env.hashesCurrent ==> Recorded(after).active == HashOf(hash, d, Current))
                  && (was.previous != "" ==> Recorded(after).previous == was.previous)
                  && (was.previous == "" && env.hashesPrevious ==> Recorded(after).previous == HashOf(hash, d, Previous))
                  && Recorded(after).deployedAt == if was.deployedAt != 0 then was.deployedAt else env.now)
  {
    if readable && env.writesState && env.removes {
      MarkDone(d, Encode(Healthy(hash, d, env)));
      HealthyReadsBack(hash, d, env);
    }
  }

  // A deploy and a revert that succeed and write their notes: the record says
  // what was deployed and when, Status reports pending and the marker is there.
  lemma DeployRecords(hash: Bytes -> string, d: Disk, c: Command)
    requires HashText(hash) && c.DeployCommand? && Succeeds(hash, d, c)
    ensures var after := Replay(d, Perform(hash, d, c).effects);
            && after.marker && ReportedHealth(hash, after) == "pending"
            && c.src in d.files && Recorded(after).active == hash(d.files[c.src])
            && Recorded(after).version == TrimSpaceRight(c.version) && Recorded(after).deployedAt == c.env.now
  {
    var swapped, s := DeployLands(hash, d, c);
    RecordedAs(hash, swapped, s, d.files[c.src]);
  }

  lemma RevertRecords(hash: Bytes -> string, d: Disk, c: Command)
    requires HashText(hash) && c.RevertCommand? && Succeeds(hash, d, c)
    ensures var after := Replay(d, Perform(hash, d, c).effects);
            && after.marker && ReportedHealth(hash, after) == "pending"
            && Previous in d.files && Recorded(after).active == Recorded(after).previous == hash(d.files[Previous])
            && Recorded(after).version == "reverted" && Recorded(after).deployedAt == c.env.now
  {
    var content := d.files[Previous];
    var copy := Copy(content, Current, c.copyFault, c.env);
    var text := Reverted(hash, content, c.env);
    ReplayConcat(d, copy.effects, Notes(text, c.env));
    NotesDone(Replay(d, copy.effects), text, c.env);
    RevertedText(hash, content, c.env);
  }

  lemma RevertedText(hash: Bytes -> string, content: Bytes, env: Env)
    requires HashText(hash) && IsInt64(env.now)
    ensures Parse(Reverted(hash, content, env)) == DeployState(hash(content), hash(content), "reverted", env.now, "pending")
  {
    assert Clean(hash(content));
    RoundTrip(DeployState(hash(content), hash(content), "reverted", env.now, PENDING));
  }

  // The record that was just written, read back.
  lemma RecordedAs(hash: Bytes -> string, d: Disk, s: DeployState, content: Bytes)
    requires HashText(hash) && IsInt64(s.deployedAt) && NoNewline(s.version) && s.active == hash(content)
    requires s.health == PENDING && (s.previous == "" || s.previous == HashOf(hash, d, Previous))
    ensures Parse(Encode(s)) == s.(version := TrimSpaceRight(s.version))
  {
    assert Clean(hash(content));
    HashIsClean(hash, d, Previous);
    CleanIsKept(s.active);
    CleanIsKept(s.previous);
    CleanIsKept(s.health);
    ParseOfEncode(s);
  }

  // After any sequence of commands that succeed, Status reports ok exactly when
  // the last of them was a health mark, and pending otherwise.
  lemma {:induction false} HealthFollowsLast(hash: Bytes -> string, d: Disk, cs: seq<Command>)
    requires HashText(hash) && AllSucceed(hash, d, cs) && cs != []
    ensures ReportedHealth(hash, PerformAll(hash, d, cs)) == if cs[|cs| - 1].HealthyCommand? then "ok" else "pending"
    decreases cs
  {
    var after := Replay(d, Perform(hash, d, cs[0]).effects);
    if |cs| > 1 {
      HealthFollowsLast(hash, after, cs[1..]);
    } else {
      match cs[0]
      case DeployCommand(_, _, _, _, _) => DeployRecords(hash, d, cs[0]);
      case RevertCommand(_, _, _) => RevertRecords(hash, d, cs[0]);
      case HealthyCommand(readable, env) => HealthyIsExact(hash, d, readable, env);
    }
  }

  // What Status says where nothing or no health is on record, and where the record
  // cannot be read.
  lemma StatusWithoutRecord(hash: Bytes -> string, d: Disk)
    ensures d.state.None? ==>
              Status(hash, d, true, true, true) == Some(Report(HashOf(hash, d, Current), HashOf(hash, d, Previous), "pending", 0))
    ensures Recorded(d).health == "" ==> ReportedHealth(hash, d) == "pending"
    ensures forall hashesCurrent, hashesPrevious :: Status(hash, d, false, hashesCurrent, hashesPrevious) == None
  {
  }

  // In particular on a machine that starts without a state file.
  lemma StatusAgreesFromFresh(hash: Bytes -> string, d: Disk, cs: seq<Command>)
    requires HashText(hash) && d.state.None? && AllSucceed(hash, d, cs)
    ensures Agrees(hash, PerformAll(hash, d, cs)) && MarkerTells(hash, PerformAll(hash, d, cs))
  {
    StatusAgreesWithDisk(hash, d, cs);
  }

  // ---- What a failed deploy does to the agreement ----

  lemma EarlyFailureLeaves(d: Disk, src: Slot, fault: Fault, env: Env)
    requires src in d.files && src != Current && src != Previous
    requires !BeforeSwap(d, src, fault, env).ok && !(fault.Swap? && Current in d.files)
    ensures Leaves(BeforeSwap(d, src, fault, env).effects, Previous)
  {
    var staged := Apply(d, Renamed(src, Staged));
    if Current in d.files {
      CopyDone(staged, staged.files[Current], Previous, if fault.CopyCurrent? then fault.copy else CopyFine, env);
    }
  }

  lemma LateFailureCopies(d: Disk, src: Slot, fault: Fault, env: Env)
    requires src in d.files && src != Current && src != Previous && fault.Swap? && Current in d.files
    ensures File(Replay(d, BeforeSwap(d, src, fault, env).effects), Previous) == File(d, Current)
  {
    var staged := Apply(d, Renamed(src, Staged));
    var backup := Backup(staged, fault, env);
    CopyDone(staged, staged.files[Current], Previous, CopyFine, env);
    ReplayConcat(d, [Renamed(src, Staged)], backup.effects + Tidy(env, Staged));
    ReplayConcat(staged, backup.effects, Tidy(env, Staged));
    ReplayOne(d, Renamed(src, Staged));
    LeftAlone(Replay(staged, backup.effects), Tidy(env, Staged), Previous);
  }

  // What a deploy that fails does to .previous: nothing, unless the final rename
  // failed after the copy.
  lemma FailedDeployPrevious(hash: Bytes -> string, d: Disk, src: Slot, want: string, version: string, fault: Fault, env: Env)
    requires src != Current && src != Previous
    requires !DeployFrom(hash, d, src, want, version, fault, env).ok
    ensures var after := Replay(d, DeployFrom(hash, d, src, want, version, fault, env).effects);
            && after.state == d.state
            && File(after, Previous) == if fault.Swap? && Accepted(hash, d, src, want, fault) && Current in d.files
                                        then File(d, Current) else File(d, Previous)
  {
    var effects := DeployFrom(hash, d, src, want, version, fault, env).effects;
    if Accepted(hash, d, src, want, fault) {
      DeployShape(hash, d, src, want, version, fault, env);
      if fault.Swap? && Current in d.files {
        LateFailureCopies(d, src, fault, env);
      } else {
        EarlyFailureLeaves(d, src, fault, env);
        LeftAlone(d, effects, Previous);
      }
      BeforeSwapLeaves(d, src, fault, env);
      FailedDeployKeepsState(d, effects);
    }
  }

  // A deploy that fails keeps Status right unless the final rename failed after
  // .previous was overwritten; then it is right exactly when the record names no
  // previous hash or already names the hash of the unchanged .current.
  lemma FailedDeployAgreement(hash: Bytes -> string, d: Disk, src: Slot, want: string, version: string, fault: Fault, env: Env)
    requires HashText(hash) && Agrees(hash, d) && src != Current && src != Previous
    requires !DeployFrom(hash, d, src, want, version, fault, env).ok
    ensures Agrees(hash, Replay(d, DeployFrom(hash, d, src, want, version, fault, env).effects))
            <==> (!(fault.Swap? && Accepted(hash, d, src, want, fault) && Current in d.files)
                  || Recorded(d).previous == "" || Recorded(d).previous == hash(d.files[Current]))
  {
    var after := Replay(d, DeployFrom(hash, d, src, want, version, fault, env).effects);
    DeployResult(hash, d, src, want, version, fault, env);
    FailedDeployPrevious(hash, d, src, want, version, fault, env);
    assert HashOf(hash, after, Current) == HashOf(hash, d, Current);
    if fault.Swap? && Accepted(hash, d, src, want, fault) && Current in d.files {
      assert HashOf(hash, after, Previous) == hash(d.files[Current]);
    } else {
      assert HashOf(hash, after, Previous) == HashOf(hash, d, Previous);
    }
  }

  // A machine with two binaries on record: the last rename of a deploy fails, and
  // Status goes on reporting the hash of bytes that are no longer in .previous.
  lemma FailedSwapMisreports(hash: Bytes -> string, now: Bytes, before: Bytes, next: Bytes, env: Env)
    requires HashText(hash) && hash(now) != hash(before) && next != []
    ensures var d := Disk(map[Current := now, Previous := before, Staged := next],
                          Some(Encode(DeployState(hash(now), hash(before), "1", 1, HEALTHY))), false);
            var out := DeployFrom(hash, d, Staged, hash(next), "2", Swap, env);
            Agrees(hash, d) && !out.ok && !Agrees(hash, Replay(d, out.effects))
  {
    var s := DeployState(hash(now), hash(before), "1", 1, HEALTHY);
    var d := Disk(map[Current := now, Previous := before, Staged := next], Some(Encode(s)), false);
    assert Clean(hash(now)) && Clean(hash(before)) && hash(next) != "";
    RecordAgrees(hash, d, s);
    ParseOfEncode(s);
    CleanIsKept(hash(before));
    FailedDeployAgreement(hash, d, Staged, hash(next), "2", Swap, env);
  }

  lemma {:induction false} FailedDeployKeepsState(d: Disk, effects: seq<Effect>)
    requires forall e :: e in effects ==> !e.StateWritten?
    ensures Replay(d, effects).state == d.state
    decreases effects
  {
    if effects != [] {
      assert effects[0] in effects;
      FailedDeployKeepsState(Apply(d, effects[0]), effects[1..]);
    }
  }

  lemma ForgedLines()
    ensures Line("version", "1\nactive:00") == Line("version", "1") + Line("active", "00")
  {
  }

  // A version that holds a newline can forge the record's other fields.
  lemma NewlineInVersionForgesActive(active: string, at: int)
    requires Clean(active) && IsInt64(at)
    ensures Parse(Encode(DeployState(active, "", "1\nactive:00", at, PENDING))).active == "00"
  {
    var rest := Line("deployed_at", FormatInt(at)) + Line("health", PENDING);
    ForgedLines();
    Associates(Line("version", "1"), Line("active", "00"), rest);
    ParseHead(active, "", "1", Line("active", "00") + rest);
    ForgedTail(DeployState(TrimSpaceRight(active), TrimSpaceRight(""), TrimSpaceRight("1"), 0, ""), at, rest);
  }

  lemma ForgedTail(s: DeployState, at: int, rest: string)
    requires IsInt64(at) && rest == Line("deployed_at", FormatInt(at)) + Line("health", PENDING)
    ensures ParseLines(s, Split(Line("active", "00") + rest)).active == "00"
  {
    var s' := s.(active := "00");
    CleanIsKept("00");
    SetText(s, "00");
    ParseText(s, "active", "00", rest, s');
    ParseTail(s', at, PENDING);
  }
}
