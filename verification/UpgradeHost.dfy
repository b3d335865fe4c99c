/**
 The upgrade commands as the source writes them: methods that call the
 hypervisor, loop over snapshots and save the phase. Each is proved to perform
 exactly the effects of its specification in Lifecycle, in that order, and to
 return the same state and error.
 */
module UpgradeHost {
  import opened Common
  import opened Listing
  import L = Lifecycle
  import opened LifecycleProofs

  type Record = L.Record
  type Effect = L.Effect

  // gc's verdict on one entry as a report of its own.
  ghost function EntryReport(name: string, active: string, x: L.GCIn, k: nat): L.GCReport {
    L.GCStep(L.GCReport([], [], []), name, L.Judge(name, active, x, k))
  }

  lemma SweepGrows(names: seq<string>, active: string, x: L.GCIn, k: nat)
    requires k < |names|
    ensures var was, one := L.Sweep(names[..k], active, x), EntryReport(names[k], active, x, k);
            L.Sweep(names[..k + 1], active, x)
            == L.GCReport(was.effects + one.effects, was.deleted + one.deleted, was.skipped + one.skipped)
  {
    assert names[..k + 1][..k] == names[..k];
  }

  lemma DeleteGrows(children: seq<string>, dels: nat -> L.Call, i: nat, k: nat)
    requires i < |children|
    ensures L.DeleteBackward(children[..i + 1], dels, k)
         == L.Calling(dels(k), L.Deleted(children[i])) + L.DeleteBackward(children[..i], dels, k + 1)
  {
    assert children[..i + 1][..i] == children[..i];
  }

  class UpgradeHost {
    var file: Option<Record>
    var snaps: set<string>
    ghost const start: L.Host
    ghost var log: seq<Effect>

    // Every external effect since construction is in the log.
    ghost predicate Valid()
      reads this
    {
      View() == L.Replay(start, log)
    }

    function View(): L.Host
      reads this
    {
      L.Host(file, snaps)
    }

    // The effects of this call, given the log and the host when it began.
    ghost predicate Did(logged: seq<Effect>, was: L.Host, effects: seq<Effect>)
      reads this
    {
      Valid() && log == logged + effects && View() == L.Replay(was, effects)
    }

    constructor (h: L.Host)
      ensures Did([], h, []) && View() == h
    {
      file, snaps := h.file, h.snaps;
      start, log := h, [];
    }

    // ---- External effects ----

    ghost method Log(e: Effect, was: L.Host)
      requires was == L.Replay(start, log) && View() == L.Apply(was, e)
      modifies this`log
      ensures Did(old(log), was, [e])
    {
      ReplayConcat(start, log, [e]);
      ReplayOne(was, e);
      log := log + [e];
    }

    method VMSnapshot(name: string, c: L.Call) returns (ok: bool)
      requires Valid()
      modifies this
      ensures Did(old(log), old(View()), L.Calling(c, L.Created(name))) && ok == c.Works?
    {
      ghost var was := View();
      if !c.Fails? {
        snaps := snaps + {name};
        Log(L.Created(name), was);
      }
      return c.Works?;
    }

    method VMDelSnapshot(name: string, c: L.Call) returns (ok: bool)
      requires Valid()
      modifies this
      ensures Did(old(log), old(View()), L.Calling(c, L.Deleted(name))) && ok == c.Works? && file == old(file)
    {
      ghost var was := View();
      if !c.Fails? {
        snaps := snaps - {name};
        Log(L.Deleted(name), was);
      }
      return c.Works?;
    }

    method VMRollback(name: string, c: L.Call) returns (ok: bool)
      requires Valid()
      modifies this
      ensures Did(old(log), old(View()), L.Calling(c, L.Restored(name))) && ok == c.Works? && file == old(file)
    {
      if !c.Fails? {
        Log(L.Restored(name), View());
      }
      return c.Works?;
    }

    method SaveState(rec: Record, writer: L.Writer, ok: bool) returns (saved: bool)
      requires Valid()
      modifies this
      ensures Did(old(log), old(View()), L.Saving(ok, rec, writer)) && saved == ok
    {
      ghost var was := View();
      if ok {
        file := Some(rec);
        Log(L.Saved(rec, writer), was);
      }
      return ok;
    }

    method RemoveState()
      requires Valid()
      modifies this
      ensures Did(old(log), old(View()), [L.FileRemoved])
    {
      ghost var was := View();
      file := None;
      Log(L.FileRemoved, was);
    }

    method LoadState() returns (cur: Record)
      ensures cur == L.Load(View())
    {
      match file
      case None => cur := L.NO_RECORD;
      case Some(rec) => cur := rec;
    }

    // Two calls in a row did what the first and then the second did.
    lemma Both(logged: seq<Effect>, was: L.Host, first: seq<Effect>, second: seq<Effect>)
      requires Valid() && log == (logged + first) + second && View() == L.Replay(L.Replay(was, first), second)
      ensures Did(logged, was, first + second)
    {
      Associates(logged, first, second);
      ReplayConcat(was, first, second);
    }

    // What a command will have kept: the baseline a rollback may need.
    lemma Keeps(c: L.Command, effects: seq<Effect>)
      requires effects == L.Effects(View(), c)
      ensures Inv(View()) && StateReadable(c) ==> Inv(L.Replay(View(), effects))
    {
      if Inv(View()) && StateReadable(c) {
        CommandKeeps(View(), c);
      }
    }

    // ---- Prepare and execute ----

    method Prepare(x: L.PrepareIn) returns (state: Record, failure: L.Failure)
      requires Valid()
      modifies this
      ensures Did(old(log), old(View()), L.Prepare(old(View()), x).effects)
      ensures state == L.Prepare(old(View()), x).state && failure == L.Prepare(old(View()), x).failure
      ensures Inv(old(View())) ==> Inv(View())
    {
      Keeps(L.DoPrepare(x), L.Prepare(View(), x).effects);
      if !x.ready {
        return L.NO_RECORD, L.Other;
      }
      var cur := LoadState();
      if !L.CanTransition(cur.phase, L.Prepared) {
        return cur, L.Refused;
      }
      if !x.captured {
        return L.NO_RECORD, L.Other;
      }
      var name := SnapshotName(x.now);
      var made := VMSnapshot(name, x.snapshot);
      if !made || !x.metadata {
        return L.NO_RECORD, L.Other;
      }
      var st := L.PreparedRecord(x);
      var saved := SaveState(st, L.ByPrepare, x.saved);
      Both(old(log), old(View()), L.Calling(x.snapshot, L.Created(name)), L.Saving(x.saved, st, L.ByPrepare));
      if !saved {
        return L.NO_RECORD, L.Other;
      }
      return st, L.NoFailure;
    }

    method Execute(x: L.ExecuteIn) returns (state: Record, failure: L.Failure)
      requires Valid()
      modifies this
      ensures Did(old(log), old(View()), L.Execute(old(View()), x).effects)
      ensures state == L.Execute(old(View()), x).state && failure == L.Execute(old(View()), x).failure
      ensures Inv(old(View())) ==> Inv(View())
    {
      Keeps(L.DoExecute(x), L.Execute(View(), x).effects);
      if !x.ready {
        return L.NO_RECORD, L.Other;
      }
      var cur := LoadState();
      if !L.CanTransition(cur.phase, L.Executing) {
        return cur, L.Refused;
      }
      var executing := cur.(phase := L.Executing);
      var saved := SaveState(executing, L.ByExecute, x.savedStart);
      if !saved {
        return L.NO_RECORD, L.Other;
      }
      var st := executing.(phase := L.RunPhase(x.run));
      var ended := SaveState(st, L.ByExecute, x.savedEnd);
      Both(old(log), old(View()), [L.Saved(executing, L.ByExecute)], L.Saving(x.savedEnd, st, L.ByExecute));
      if x.run.Finished? {
        if !ended {
          return L.NO_RECORD, L.Other;
        }
        return st, L.NoFailure;
      }
      return st, L.Other;
    }

    // ---- Validate ----

    method AggregateChecks(checks: seq<L.Check>) returns (r: L.Aggregate)
      ensures r == L.AggregateChecks(checks)
    {
      if checks == [] {
        return L.Aggregate(false, false, false);
      }
      var pass, fail := 0, 0;
      for k := 0 to |checks|
        invariant pass + L.Passes(checks[k..]) == L.Passes(checks) && pass + fail == k
      {
        assert checks[k..][1..] == checks[k + 1..];
        if checks[k].pass {
          pass := pass + 1;
        } else {
          fail := fail + 1;
        }
      }
      return L.Aggregate(fail == 0, fail > 0, pass > 0 && fail > 0);
    }

    method FailingCheckNames(checks: seq<L.Check>) returns (names: seq<string>)
      ensures names == L.FailingNames(checks)
    {
      names := [];
      for k := 0 to |checks|
        invariant names + L.FailingNames(checks[k..]) == L.FailingNames(checks)
      {
        assert checks[k..][1..] == checks[k + 1..];
        if !checks[k].pass {
          names := names + [checks[k].name];
        }
      }
    }

    method Validate(x: L.ValidateIn) returns (state: Record, failure: L.Failure)
      requires Valid()
      modifies this
      ensures Did(old(log), old(View()), L.Validate(old(View()), x).effects)
      ensures state == L.Validate(old(View()), x).state && failure == L.Validate(old(View()), x).failure
      ensures Inv(old(View())) ==> Inv(View())
    {
      Keeps(L.DoValidate(x), L.Validate(View(), x).effects);
      if !x.ready {
        return L.NO_RECORD, L.Other;
      }
      var cur := LoadState();
      if cur.phase != L.Executed && cur.phase != L.ExecuteFailed && cur.phase != L.RolledBack {
        return cur, L.Refused;
      }
      if !x.answered {
        return cur, L.Other;
      }
      var result := AggregateChecks(x.checks);
      var names := FailingCheckNames(x.checks);
      var target := L.SelectValidatePhase(result, x.acceptPartial);
      if cur.phase == L.RolledBack && target != L.ValidatedPass {
        return cur, L.Other;
      }
      cur := cur.(phase := target, failing := names);
      var saved := SaveState(cur, L.ByValidate(x.checks), x.saved);
      return cur, if saved then L.NoFailure else L.Other;
    }

    // ---- Rollback ----

    // A child that cannot be deleted does not stop the others.
    method DeleteChildSnapshots(children: seq<string>, dels: nat -> L.Call)
      requires Valid()
      modifies this
      ensures Did(old(log), old(View()), L.DeleteBackward(children, dels, 0)) && file == old(file)
    {
      var n := |children|;
      ghost var done: seq<Effect> := [];
      assert children[..n] == children;
      for i := n downto 0
        invariant Did(old(log), old(View()), done) && file == old(file)
        invariant done + L.DeleteBackward(children[..i], dels, n - i) == L.DeleteBackward(children, dels, 0)
      {
        ghost var one := L.Calling(dels(n - 1 - i), L.Deleted(children[i]));
        DeleteGrows(children, dels, i, n - 1 - i);
        Associates(done, one, L.DeleteBackward(children[..i], dels, n - i));
        var _ := VMDelSnapshot(children[i], dels(n - 1 - i));
        Both(old(log), old(View()), done, one);
        done := done + one;
      }
      assert done + [] == done;
    }

    method MarkRollbackFailed(cur: Record, saved: bool) returns (failed: Record)
      requires Valid()
      modifies this
      ensures failed == cur.(phase := L.RollbackFailed)
      ensures Did(old(log), old(View()), L.Saving(saved, failed, L.ByRollback))
    {
      failed := cur.(phase := L.RollbackFailed);
      var _ := SaveState(failed, L.ByRollback, saved);
    }

    method Rollback(x: L.RollbackIn) returns (state: Record, failure: L.Failure)
      requires Valid()
      modifies this
      ensures Did(old(log), old(View()), L.Rollback(old(View()), x).effects)
      ensures state == L.Rollback(old(View()), x).state && failure == L.Rollback(old(View()), x).failure
      ensures Inv(old(View())) ==> Inv(View())
    {
      Keeps(L.DoRollback(x), L.Rollback(View(), x).effects);
      state, failure := RollBack(x);
    }

    method RollBack(x: L.RollbackIn) returns (state: Record, failure: L.Failure)
      requires Valid()
      modifies this
      ensures Did(old(log), old(View()), L.Rollback(old(View()), x).effects)
      ensures state == L.Rollback(old(View()), x).state && failure == L.Rollback(old(View()), x).failure
    {
      if !x.ready {
        return L.NO_RECORD, L.Other;
      }
      var cur := LoadState();
      if !L.RollbackAllowedFrom(cur.phase) {
        return cur, L.Refused;
      }
      var target := if x.snapshot == "" then cur.snapshot else x.snapshot;
      if target == "" || x.listing.None? {
        return cur, L.Other;
      }
      ghost var before := Clearing(target, x);
      var restored := ClearAndRestore(target, x);
      state, failure := BringBack(cur, restored, x);
      ghost var end := cur.(phase := if GuestReturns(x) then L.RolledBack else L.RollbackFailed);
      Both(old(log), old(View()), before, L.Saving(x.saved, end, L.ByRollback));
    }

    ghost function Clearing(target: string, x: L.RollbackIn): seq<Effect>
      requires x.listing.Some?
    {
      L.DeleteBackward(SnapshotsAfter(x.listing.value, target), x.dels, 0) + L.Calling(x.restore, L.Restored(target))
    }

    // The children out of the way, then the restore.
    method ClearAndRestore(target: string, x: L.RollbackIn) returns (restored: bool)
      requires Valid() && x.listing.Some?
      modifies this
      ensures Did(old(log), old(View()), Clearing(target, x)) && restored == x.restore.Works? && file == old(file)
    {
      var children := SnapshotsAfterLoop(x.listing.value, target);
      DeleteChildSnapshots(children, x.dels);
      restored := VMRollback(target, x.restore);
      Both(old(log), old(View()), L.DeleteBackward(children, x.dels, 0), L.Calling(x.restore, L.Restored(target)));
    }

    // What follows the restore: the start, the wait and the record.
    method BringBack(cur: Record, restored: bool, x: L.RollbackIn) returns (state: Record, failure: L.Failure)
      requires Valid() && restored == x.restore.Works?
      modifies this
      ensures var end := cur.(phase := if GuestReturns(x) then L.RolledBack else L.RollbackFailed);
              && Did(old(log), old(View()), L.Saving(x.saved, end, L.ByRollback))
              && failure == (if GuestReturns(x) && x.saved then L.NoFailure else L.Other)
              && state == if restored && !x.running && !x.starts then cur else end
    {
      if !restored {
        state := MarkRollbackFailed(cur, x.saved);
        return state, L.Other;
      }
      if !x.running && !x.starts {
        // the caller gets the record as it was loaded
        var _ := MarkRollbackFailed(cur, x.saved);
        return cur, L.Other;
      }
      if !x.guestAnswers {
        state := MarkRollbackFailed(cur, x.saved);
        return state, L.Other;
      }
      state := cur.(phase := L.RolledBack);
      var saved := SaveState(state, L.ByRollback, x.saved);
      return state, if saved then L.NoFailure else L.Other;
    }

    // ---- Commit ----

    method Commit(x: L.CommitIn) returns (state: Record, failure: L.Failure)
      requires Valid()
      modifies this
      ensures Did(old(log), old(View()), L.Commit(old(View()), x).effects)
      ensures state == L.Commit(old(View()), x).state && failure == L.Commit(old(View()), x).failure
      ensures Inv(old(View())) ==> Inv(View())
    {
      Keeps(L.DoCommit(x), L.Commit(View(), x).effects);
      state, failure := Finalize(x);
    }

    method Finalize(x: L.CommitIn) returns (state: Record, failure: L.Failure)
      requires Valid()
      modifies this
      ensures Did(old(log), old(View()), L.Commit(old(View()), x).effects)
      ensures state == L.Commit(old(View()), x).state && failure == L.Commit(old(View()), x).failure
    {
      if !x.ready {
        return L.NO_RECORD, L.Other;
      }
      var cur := LoadState();
      if cur.phase == L.Committed {
        return cur, L.NoFailure;
      }
      if !L.CommitAllowedFrom(cur.phase) {
        return cur, L.Refused;
      }
      var target := if x.snapshot == "" then cur.snapshot else x.snapshot;
      ghost var released := if !x.keep && target != "" then L.Calling(x.del, L.Deleted(target)) else [];
      var ok := Release(target, x);
      if !ok {
        return cur, L.Other;
      }
      cur := cur.(phase := L.Committed);
      var saved := SaveState(cur, L.ByCommit, x.saved);
      Both(old(log), old(View()), released, L.Saving(x.saved, cur, L.ByCommit));
      return cur, if saved then L.NoFailure else L.Other;
    }

    // The snapshot's release; nothing is asked of the VM when it is kept.
    method Release(target: string, x: L.CommitIn) returns (ok: bool)
      requires Valid()
      modifies this
      ensures var deletes := !x.keep && target != "";
              && Did(old(log), old(View()), if deletes then L.Calling(x.del, L.Deleted(target)) else [])
              && ok == (deletes ==> x.del.Works?)
    {
      if x.keep || target == "" {
        return true;
      }
      ok := VMDelSnapshot(target, x.del);
    }

    // ---- GC ----

    // One entry of the listing: what it adds to Deleted and to Skipped.
    method SweepEntry(name: string, active: string, x: L.GCIn, k: nat) returns (deleted: seq<string>, skipped: seq<string>)
      requires Valid()
      modifies this
      ensures Did(old(log), old(View()), EntryReport(name, active, x, k).effects) && file == old(file)
      ensures L.GCReport(EntryReport(name, active, x, k).effects, deleted, skipped) == EntryReport(name, active, x, k)
    {
      if !IsUpgradeSnapshot(name) {
        return [], [];
      }
      if active != "" && name == active {
        return [], [name];
      }
      var unix := TimestampFromName(name);
      if unix.None? {
        return [], [];
      }
      if L.Age(x, unix.value) < L.Threshold(x) {
        return [], [name];
      }
      if x.dryRun {
        return [name], [];
      }
      var ok := VMDelSnapshot(name, x.dels(k));
      ghost var tried := L.Calling(x.dels(k), L.Deleted(name));
      assert [] + tried == tried;
      if ok {
        return [name], [];
      }
      return [], [name];
    }

    method GC(x: L.GCIn) returns (deleted: seq<string>, skipped: seq<string>)
      requires Valid()
      modifies this
      ensures Did(old(log), old(View()), L.GC(old(View()), x).effects)
      ensures deleted == L.GC(old(View()), x).deleted && skipped == L.GC(old(View()), x).skipped
      ensures Inv(old(View())) && x.readable ==> Inv(View())
    {
      Keeps(L.DoGC(x), L.GC(View(), x).effects);
      if !x.ready || x.listing.None? {
        return [], [];
      }
      var active := L.ActiveSnapshot(View(), x.readable);
      var names := ParseSnapshotNamesLoop(x.listing.value);
      deleted, skipped := Sweep(names, active, x);
    }

    method Sweep(names: seq<string>, active: string, x: L.GCIn) returns (deleted: seq<string>, skipped: seq<string>)
      requires Valid()
      modifies this
      ensures Did(old(log), old(View()), L.Sweep(names, active, x).effects)
      ensures deleted == L.Sweep(names, active, x).deleted && skipped == L.Sweep(names, active, x).skipped
    {
      deleted, skipped := [], [];
      for k := 0 to |names|
        invariant Did(old(log), old(View()), L.Sweep(names[..k], active, x).effects)
        invariant deleted == L.Sweep(names[..k], active, x).deleted
        invariant skipped == L.Sweep(names[..k], active, x).skipped
      {
        ghost var effects := L.Sweep(names[..k], active, x).effects;
        var d, s := SweepEntry(names[k], active, x, k);
        Both(old(log), old(View()), effects, EntryReport(names[k], active, x, k).effects);
        SweepGrows(names, active, x, k);
        deleted, skipped := deleted + d, skipped + s;
      }
      assert names[..|names|] == names;
    }

    // ---- Reset ----

    method Orphans(names: seq<string>, target: string) returns (orphans: seq<string>)
      ensures orphans == L.UpgradeNames(names, target)
    {
      orphans := [];
      for k := 0 to |names|
        invariant orphans + L.UpgradeNames(names[k..], target) == L.UpgradeNames(names, target)
      {
        assert names[k..][1..] == names[k + 1..];
        if IsUpgradeSnapshot(names[k]) && names[k] != target {
          orphans := orphans + [names[k]];
        }
      }
    }

    // The plan; it changes nothing. None is the refusal to touch anything.
    method PlanReset(text: string) returns (plan: Option<L.Plan>)
      ensures plan == L.ResetPlan(View(), text)
    {
      var names := ParseSnapshotNamesLoop(text);
      var target := "";
      if file.Some? && file.value.snapshot != "" && file.value.phase != L.Committed {
        target := file.value.snapshot;
        if target !in names {
          return None;
        }
      }
      var orphans := Orphans(names, target);
      var toDelete := Sorted(orphans);
      return Some(L.Plan(toDelete, target, file.Some?,
                         toDelete == [] && target == "" && (file.None? || file.value.phase == L.Committed)));
    }

    // Stops at the first deletion that fails.
    method DeleteOrphans(names: seq<string>, dels: nat -> L.Call) returns (ok: bool)
      requires Valid()
      modifies this
      ensures Did(old(log), old(View()), L.DeleteForward(names, dels, 0).0) && ok == L.DeleteForward(names, dels, 0).1
    {
      ghost var done: seq<Effect> := [];
      for k := 0 to |names|
        invariant Did(old(log), old(View()), done)
        invariant done + L.DeleteForward(names[k..], dels, k).0 == L.DeleteForward(names, dels, 0).0
        invariant L.DeleteForward(names[k..], dels, k).1 == L.DeleteForward(names, dels, 0).1
      {
        ghost var one := L.Calling(dels(k), L.Deleted(names[k]));
        assert names[k..][1..] == names[k + 1..];
        Associates(done, one, L.DeleteForward(names[k + 1..], dels, k + 1).0);
        ok := VMDelSnapshot(names[k], dels(k));
        Both(old(log), old(View()), done, one);
        done := done + one;
        if !ok {
          return false;
        }
      }
      assert done + [] == done;
      return true;
    }

    method ResetExecute(plan: L.Plan, x: L.ResetIn)
      requires Valid()
      modifies this
      ensures Did(old(log), old(View()), L.ResetExecute(plan, x))
    {
      if plan.nothingToDo {
        return;
      }
      var deleted := DeleteOrphans(plan.toDelete, x.dels);
      ghost var done := L.DeleteForward(plan.toDelete, x.dels, 0).0;
      if !deleted {
        return;
      }
      if plan.rollbackTarget != "" {
        var restored := VMRollback(plan.rollbackTarget, x.restore);
        ghost var restoring := L.Calling(x.restore, L.Restored(plan.rollbackTarget));
        Both(old(log), old(View()), done, restoring);
        done := done + restoring;
        if !restored {
          return;
        }
      }
      assert done == L.DeleteForward(plan.toDelete, x.dels, 0).0
                     + if plan.rollbackTarget == "" then [] else L.Calling(x.restore, L.Restored(plan.rollbackTarget));
      assert done + [] == done;
      if plan.removesState && x.removes {
        RemoveState();
        Both(old(log), old(View()), done, [L.FileRemoved]);
      }
    }

    method Reset(x: L.ResetIn)
      requires Valid()
      modifies this
      ensures Did(old(log), old(View()), L.Reset(old(View()), x))
      ensures Inv(old(View())) ==> Inv(View())
    {
      Keeps(L.DoReset(x), L.Reset(View(), x));
      if !x.ready || x.listing.None? {
        return;
      }
      var plan := PlanReset(x.listing.value);
      if plan.None? || !x.apply {
        return;
      }
      ResetExecute(plan.value, x);
    }

    // ---- Run ----

    // The part of Run after execute.
    method Settle(x: L.RunIn) returns (state: Record, autoRollback: bool, failed: bool)
      requires Valid()
      modifies this
      ensures var r := L.Settle(old(View()), x);
              Did(old(log), old(View()), r.effects) && state == r.state && autoRollback == r.autoRollback && failed == r.failed
    {
      var postExec := L.NO_RECORD;
      if x.peeked {
        postExec := LoadState();
      }
      var failure;
      if postExec.phase == L.ExecuteHung {
        state, failure := Rollback(x.rollback);
        return state, true, failure != L.NoFailure;
      }
      state, failure := Validate(x.validate);
      ghost var validated := L.Validate(old(View()), x.validate).effects;
      if failure == L.Other {
        return state, false, true;
      }
      match state.phase {
        case ValidatedPass => return state, false, false;
        case ValidatedPartial => return state, false, false;
        case ValidatedFail =>
          ghost var between := View();
          state, failure := Rollback(x.rollback);
          Both(old(log), old(View()), validated, L.Rollback(between, x.rollback).effects);
          return state, true, failure != L.NoFailure;
        case _ => return state, false, true;
      }
    }

    // What the claims about Run say of this one.
    lemma RunForeseen(x: L.RunIn)
      ensures Inv(View()) ==> RunPromise(x, L.Run(View(), x), L.Replay(View(), L.Run(View(), x).effects))
    {
      if Inv(View()) {
        RunKeepsPromise(View(), x);
      }
    }

    method Run(x: L.RunIn) returns (state: Record, autoRollback: bool, failed: bool)
      requires Valid()
      modifies this
      ensures var r := L.Run(old(View()), x);
              Did(old(log), old(View()), r.effects) && state == r.state && autoRollback == r.autoRollback && failed == r.failed
      ensures Inv(old(View())) ==> Inv(View())
      ensures Inv(old(View())) && !failed ==>
                && state == L.Load(View())
                && (state.phase == L.ValidatedPass || state.phase == L.ValidatedPartial || state.phase == L.RolledBack)
                && (autoRollback <==> state.phase == L.RolledBack)
    {
      RunForeseen(x);
      state, autoRollback, failed := Pipeline(x);
    }

    method Pipeline(x: L.RunIn) returns (state: Record, autoRollback: bool, failed: bool)
      requires Valid()
      modifies this
      ensures var r := L.Run(old(View()), x);
              Did(old(log), old(View()), r.effects) && state == r.state && autoRollback == r.autoRollback && failed == r.failed
    {
      var failure;
      state, failure := Prepare(x.prepare);
      if failure != L.NoFailure || !x.reloaded {
        return state, false, true;
      }
      ghost var prepared, logged := View(), log;
      // an error from execute is only logged
      var _, _ := Execute(x.execute);
      ghost var executed := View();
      state, autoRollback, failed := Settle(x);
      ghost var e, end := L.Execute(prepared, x.execute).effects, L.Settle(executed, x).effects;
      Both(logged, prepared, e, end);
      Both(old(log), old(View()), L.Prepare(old(View()), x.prepare).effects, e + end);
    }
  }
}
