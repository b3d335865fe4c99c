/**
 What Status reports after a crash inside a deploy: exactly at which points it
 still agrees with the disk.
 */
module DeployCrash {
  import opened Common
  import opened Text
  import opened DeployState
  import opened Deploy
  import opened DeployProofs

  function StagedBackup(d: Disk, src: Slot, fault: Fault, env: Env): Outcome {
    Backup(Apply(d, Renamed(src, Staged)), fault, env)
  }

  // The deploy gets as far as putting the bytes of .current into .previous.
  predicate Replaces(d: Disk, src: Slot, fault: Fault, env: Env) {
    !fault.Chmod? && Current in d.files && StagedBackup(d, src, fault, env).ok
  }

  // How many operations there are up to that, to the swap, and to the record.
  function PreviousAt(d: Disk, src: Slot, fault: Fault, env: Env): nat {
    1 + |StagedBackup(d, src, fault, env).effects|
  }

  function SwapAt(d: Disk, src: Slot, fault: Fault, env: Env): nat {
    PreviousAt(d, src, fault, env) + 1
  }

  function RecordAt(d: Disk, src: Slot, fault: Fault, env: Env): nat {
    SwapAt(d, src, fault, env) + 1
  }

  lemma CurrentAtCut(hash: Bytes -> string, d: Disk, src: Slot, want: string, version: string, fault: Fault, env: Env, n: nat)
    requires Accepted(hash, d, src, want, fault) && src != Current
    requires n <= |DeployFrom(hash, d, src, want, version, fault, env).effects|
    ensures var out := DeployFrom(hash, d, src, want, version, fault, env);
            File(Replay(d, out.effects[..n]), Current)
            == if out.ok && n >= SwapAt(d, src, fault, env) then Some(d.files[src]) else File(d, Current)
  {
    var out, before := DeployFrom(hash, d, src, want, version, fault, env), BeforeSwap(d, src, fault, env);
    BeforeSwapLeaves(d, src, fault, env);
    DeployShape(hash, d, src, want, version, fault, env);
    if before.ok {
      BeforeSwapDone(d, src, fault, env);
      var text := AfterSwap(hash, d, src, version, fault, env);
      NotesLeave(text, env, Current);
      CutAround(d, before.effects, Renamed(Staged, Current), Notes(text, env), Current, n);
    } else {
      LeftAlone(d, out.effects[..n], Current);
    }
  }

  // The copy to .previous and what surrounds it.
  lemma AroundPrevious(hash: Bytes -> string, d: Disk, src: Slot, want: string, version: string, fault: Fault, env: Env)
    returns (before: seq<Effect>, after: seq<Effect>)
    requires Accepted(hash, d, src, want, fault) && src != Current && src != Previous && Replaces(d, src, fault, env)
    ensures DeployFrom(hash, d, src, want, version, fault, env).effects == before + ([Renamed(PreviousTmp, Previous)] + after)
    ensures |before| + 1 == PreviousAt(d, src, fault, env) && Leaves(before, Previous) && Leaves(after, Previous)
    ensures File(Apply(Replay(d, before), Renamed(PreviousTmp, Previous)), Previous) == File(d, Current)
  {
    var staging, rename := [Renamed(src, Staged)], Renamed(PreviousTmp, Previous);
    var staged := Apply(d, staging[0]);
    var content := staged.files[Current];
    var whole := Copied(content, Previous, env);
    DeployShape(hash, d, src, want, version, fault, env);
    BackupSteps(d, staged, src, fault, env);
    var text := AfterSwap(hash, d, src, version, fault, env);
    after := if fault.Swap? then Tidy(env, Staged) else [Renamed(Staged, Current)] + Notes(text, env);
    before := staging + whole;
    NotesLeave(text, env, Previous);
    Regroup(staging, whole, [rename], after);
    BackedUp(d, staged, src, env);
  }

  // A backup that works is the copy to the temp file and its rename.
  lemma BackupSteps(d: Disk, staged: Disk, src: Slot, fault: Fault, env: Env)
    requires src in d.files && src != Current && Replaces(d, src, fault, env)
    requires staged == Apply(d, Renamed(src, Staged))
    ensures Current in staged.files && staged.files[Current] == d.files[Current]
    ensures Backup(staged, fault, env).effects == Copied(staged.files[Current], Previous, env) + [Renamed(PreviousTmp, Previous)]
    ensures forall e :: e in Copied(staged.files[Current], Previous, env) ==> OnTemp(e, Previous)
  {
    CopySteps(staged.files[Current], Previous, if fault.CopyCurrent? then fault.copy else CopyFine, env);
  }

  // Once the copy is renamed, .previous holds what was current.
  lemma BackedUp(d: Disk, staged: Disk, src: Slot, env: Env)
    requires src in d.files && src != Current && src != Previous && Current in d.files
    requires staged == Apply(d, Renamed(src, Staged))
    ensures var before := [Renamed(src, Staged)] + Copied(staged.files[Current], Previous, env);
            File(Apply(Replay(d, before), Renamed(PreviousTmp, Previous)), Previous) == File(d, Current)
  {
    var content := staged.files[Current];
    var whole := Copied(content, Previous, env);
    CopyWhole(staged, content, Previous, env);
    ReplayOne(d, Renamed(src, Staged));
    ReplayConcat(d, [Renamed(src, Staged)], whole);
    ReplayConcat(staged, whole, [Renamed(PreviousTmp, Previous)]);
    ReplayOne(Replay(staged, whole), Renamed(PreviousTmp, Previous));
  }

  lemma Regroup(a: seq<Effect>, b: seq<Effect>, c: seq<Effect>, e: seq<Effect>)
    ensures a + ((b + c) + e) == (a + b) + (c + e)
    ensures (a + (b + c)) + e == (a + b) + (c + e)
  {
  }

  lemma PreviousAtCut(hash: Bytes -> string, d: Disk, src: Slot, want: string, version: string, fault: Fault, env: Env, n: nat)
    requires Accepted(hash, d, src, want, fault) && src != Current && src != Previous
    requires n <= |DeployFrom(hash, d, src, want, version, fault, env).effects|
    ensures var out := DeployFrom(hash, d, src, want, version, fault, env);
            File(Replay(d, out.effects[..n]), Previous)
            == if Replaces(d, src, fault, env) && n >= PreviousAt(d, src, fault, env) then File(d, Current) else File(d, Previous)
  {
    var effects := DeployFrom(hash, d, src, want, version, fault, env).effects;
    if Replaces(d, src, fault, env) {
      var before, after := AroundPrevious(hash, d, src, want, version, fault, env);
      CutAround(d, before, Renamed(PreviousTmp, Previous), after, Previous, n);
    } else {
      NeverReplaced(hash, d, src, want, version, fault, env);
      LeftAlone(d, effects[..n], Previous);
    }
  }

  lemma NeverReplaced(hash: Bytes -> string, d: Disk, src: Slot, want: string, version: string, fault: Fault, env: Env)
    requires Accepted(hash, d, src, want, fault) && src != Current && src != Previous && !Replaces(d, src, fault, env)
    ensures Leaves(DeployFrom(hash, d, src, want, version, fault, env).effects, Previous)
  {
    DeployShape(hash, d, src, want, version, fault, env);
    if BeforeSwap(d, src, fault, env).ok {
      NothingToBackUp(d, src, fault, env);
      var text := AfterSwap(hash, d, src, version, fault, env);
      NotesLeave(text, env, Previous);
      LeavesConcat([Renamed(Staged, Current)], Notes(text, env), Previous);
      LeavesConcat([Renamed(src, Staged)], [Renamed(Staged, Current)] + Notes(text, env), Previous);
    } else {
      NotBackedUp(d, src, fault, env);
      EarlyFailureLeaves(d, src, fault, env);
    }
  }

  lemma LeavesConcat(a: seq<Effect>, b: seq<Effect>, slot: Slot)
    requires Leaves(a, slot) && Leaves(b, slot)
    ensures Leaves(a + b, slot)
  {
  }

  // A deploy that gets to the swap without it has no .current to back up.
  lemma NothingToBackUp(d: Disk, src: Slot, fault: Fault, env: Env)
    requires BeforeSwap(d, src, fault, env).ok && !Replaces(d, src, fault, env) && src in d.files && src != Current
    ensures BeforeSwap(d, src, fault, env).effects == [Renamed(src, Staged)]
  {
  }

  lemma NotBackedUp(d: Disk, src: Slot, fault: Fault, env: Env)
    requires !BeforeSwap(d, src, fault, env).ok && !Replaces(d, src, fault, env) && src in d.files && src != Current
    ensures !(fault.Swap? && Current in d.files)
  {
  }

  // Up to the record the state file is as it was; from then on it is the new
  // record, and .current and .previous are what the swap left.
  lemma StateBefore(hash: Bytes -> string, d: Disk, src: Slot, want: string, version: string, fault: Fault, env: Env, n: nat)
    requires Accepted(hash, d, src, want, fault) && src != Current
    requires n <= |DeployFrom(hash, d, src, want, version, fault, env).effects|
    requires var out := DeployFrom(hash, d, src, want, version, fault, env);
             !(out.ok && env.writesState && n >= RecordAt(d, src, fault, env))
    ensures Replay(d, DeployFrom(hash, d, src, want, version, fault, env).effects[..n]).state == d.state
  {
    var out, before := DeployFrom(hash, d, src, want, version, fault, env), BeforeSwap(d, src, fault, env);
    DeployShape(hash, d, src, want, version, fault, env);
    BeforeSwapLeaves(d, src, fault, env);
    if out.ok {
      var notes := Notes(AfterSwap(hash, d, src, version, fault, env), env);
      if n <= |before.effects| + 1 {
        assert out.effects[..n] == (before.effects + [Renamed(Staged, Current)])[..n];
      } else {
        assert env.writesState ==> false;
        assert forall e :: e in notes ==> !e.StateWritten?;
      }
    }
    FailedDeployKeepsState(d, out.effects[..n]);
  }

  lemma RecordedAtCut(hash: Bytes -> string, d: Disk, src: Slot, want: string, version: string, fault: Fault, env: Env, n: nat)
    requires HashText(hash) && Accepted(hash, d, src, want, fault) && src != Current && NoNewline(version) && IsInt64(env.now)
    requires n <= |DeployFrom(hash, d, src, want, version, fault, env).effects|
    requires DeployFrom(hash, d, src, want, version, fault, env).ok && env.writesState && n >= RecordAt(d, src, fault, env)
    ensures Agrees(hash, Replay(d, DeployFrom(hash, d, src, want, version, fault, env).effects[..n]))
  {
    var out, before := DeployFrom(hash, d, src, want, version, fault, env), BeforeSwap(d, src, fault, env);
    var swap := before.effects + [Renamed(Staged, Current)];
    var text := AfterSwap(hash, d, src, version, fault, env);
    DeployShape(hash, d, src, want, version, fault, env);
    Associates(before.effects, [Renamed(Staged, Current)], Notes(text, env));
    var some := Notes(text, env)[..n - |swap|];
    assert out.effects[..n] == swap + some;
    ReplayConcat(d, swap, some);
    SomeNotes(Replay(d, swap), text, env, n - |swap|);
    SwapPuts(hash, d, src, fault, env);
    RecordAgrees(hash, Replay(d, out.effects[..n]),
                 DeployState(hash(d.files[src]), HashOrNone(hash, Replay(d, swap), Previous, env.hashesPrevious), version, env.now, PENDING));
  }

  lemma SomeNotes(d: Disk, text: string, env: Env, m: nat)
    requires env.writesState && 1 <= m <= |Notes(text, env)|
    ensures var after := Replay(d, Notes(text, env)[..m]);
            after.state == Some(text) && after.files == d.files
  {
    var first := [StateWritten(text)];
    ReplayOne(d, first[0]);
    assert Notes(text, env)[..m] == first + if m == 1 then [] else [MarkerWritten];
    ReplayConcat(d, first, if m == 1 then [] else [MarkerWritten]);
    ReplayOne(Apply(d, first[0]), MarkerWritten);
  }

  lemma SwapPuts(hash: Bytes -> string, d: Disk, src: Slot, fault: Fault, env: Env)
    requires src in d.files && src != Current && BeforeSwap(d, src, fault, env).ok
    ensures File(Replay(d, BeforeSwap(d, src, fault, env).effects + [Renamed(Staged, Current)]), Current) == Some(d.files[src])
  {
    var before := BeforeSwap(d, src, fault, env).effects;
    BeforeSwapDone(d, src, fault, env);
    ReplayConcat(d, before, [Renamed(Staged, Current)]);
    ReplayOne(Replay(d, before), Renamed(Staged, Current));
  }

  // A crash at the n-th operation of an accepted deploy leaves Status right
  // exactly when the new record is there, or when neither slot has got bytes that
  // an old record of its hash denies.
  lemma CrashAgreement(hash: Bytes -> string, d: Disk, src: Slot, want: string, version: string, fault: Fault, env: Env, n: nat)
    requires HashText(hash) && Agrees(hash, d) && Accepted(hash, d, src, want, fault)
    requires src != Current && src != Previous && NoNewline(version) && IsInt64(env.now)
    requires n <= |DeployFrom(hash, d, src, want, version, fault, env).effects|
    ensures var out, was := DeployFrom(hash, d, src, want, version, fault, env), Recorded(d);
            Agrees(hash, Replay(d, out.effects[..n])) <==>
              || (out.ok && env.writesState && n >= RecordAt(d, src, fault, env))
              || (&& (Replaces(d, src, fault, env) && n >= PreviousAt(d, src, fault, env) ==>
                        was.previous == "" || was.previous == hash(d.files[Current]))
                  && (out.ok && n >= SwapAt(d, src, fault, env) ==>
                        was.active == "" || was.active == hash(d.files[src])))
  {
    var out := DeployFrom(hash, d, src, want, version, fault, env);
    if out.ok && env.writesState && n >= RecordAt(d, src, fault, env) {
      RecordedAtCut(hash, d, src, want, version, fault, env, n);
    } else {
      var now := Replay(d, out.effects[..n]);
      CurrentAtCut(hash, d, src, want, version, fault, env, n);
      PreviousAtCut(hash, d, src, want, version, fault, env, n);
      StateBefore(hash, d, src, want, version, fault, env, n);
      SlotsAgree(hash, d, now);
    }
  }

  // With the same record on another disk.
  lemma SlotsAgree(hash: Bytes -> string, d: Disk, now: Disk)
    requires HashText(hash) && Agrees(hash, d) && now.state == d.state
    ensures Agrees(hash, now) <==>
            && (Recorded(d).active == "" || Recorded(d).active == HashOf(hash, now, Current))
            && (Recorded(d).previous == "" || Recorded(d).previous == HashOf(hash, now, Previous))
  {
  }
}
