/**
 Each command from its inputs: when it works, when it refuses, what it does and
 what it returns.
 */
module LifecycleExact {
  import opened Common
  import opened Text
  import opened Listing
  import opened Lifecycle
  import opened LifecycleProofs
  import opened LifecycleSweep

  // ---- Prepare, execute, commit ----

  // A cycle can be opened when there is none, when one is only prepared, and when
  // the last one is committed.
  predicate Opens(p: Phase) {
    p in {Empty, Prepared, Committed}
  }

  lemma PrepareIsExact(h: Host, x: PrepareIn)
    ensures var r, p := Prepare(h, x), Load(h).phase;
            && (r.failure.NoFailure? <==>
                  x.ready && Opens(p) && x.captured && x.snapshot.Works? && x.metadata && x.saved)
            && (r.failure.Refused? <==> x.ready && !Opens(p)) && (r.failure.Refused? ==> r.state == Load(h))
            && (Created(SnapshotName(x.now)) in r.effects <==> x.ready && Opens(p) && x.captured && !x.snapshot.Fails?)
            && (forall e :: e in r.effects ==> e == Created(SnapshotName(x.now)) || (e.Saved? && r.failure.NoFailure?))
            && (r.failure.NoFailure? ==>
                  && Saved(r.state, ByPrepare) in r.effects
                  && r.state.phase == Prepared && r.state.snapshot == SnapshotName(x.now) && r.state.deployId == x.deployId
                  && r.state.target == x.target && r.state.failing == [])
  {
    var r := Prepare(h, x);
    if r.failure.NoFailure? {
      assert r.effects[1] == Saved(r.state, ByPrepare);
    }
    if x.ready && Opens(Load(h).phase) && x.captured && !x.snapshot.Fails? {
      assert r.effects[0] == Created(SnapshotName(x.now));
    }
  }

  // Execute starts from prepared only. It ends in executed, execute_failed or
  // execute_hung as the guest's run finished, broke or ran into the watchdog.
  lemma ExecuteIsExact(h: Host, x: ExecuteIn)
    ensures var r, cur := Execute(h, x), Load(h);
            var starts := x.ready && cur.phase == Prepared && x.savedStart;
            && (starts <==> r.effects != [])
            && (starts ==>
                  && r.effects[0] == Saved(cur.(phase := Executing), ByExecute)
                  && |r.effects| == (if x.savedEnd then 2 else 1)
                  && (x.savedEnd ==>
                        && r.effects[1].Saved?
                        && (x.run.Finished? ==> r.effects[1].rec == cur.(phase := Executed))
                        && (x.run.Broke? ==> r.effects[1].rec == cur.(phase := ExecuteFailed))
                        && (x.run.Hung? ==> r.effects[1].rec == cur.(phase := ExecuteHung))))
            && (r.failure.NoFailure? <==> starts && x.run.Finished? && x.savedEnd)
            && (r.failure.Refused? <==> x.ready && cur.phase != Prepared)
            && (r.failure.NoFailure? ==> r.state == cur.(phase := Executed))
  {
  }

  lemma CommitIsExact(h: Host, x: CommitIn)
    ensures var r, cur := Commit(h, x), Load(h);
            var target := if x.snapshot == "" then cur.snapshot else x.snapshot;
            var allowed := cur.phase == ValidatedPass || cur.phase == RolledBack;
            && (r.failure.NoFailure? <==>
                  x.ready && (cur.phase == Committed
                              || (allowed && x.saved && (x.keep || target == "" || x.del.Works?))))
            && (r.failure.Refused? <==> x.ready && !allowed && cur.phase != Committed)
            && (Deleted(target) in r.effects <==> x.ready && allowed && !x.keep && target != "" && !x.del.Fails?)
            && (forall e :: e in r.effects ==> e == Deleted(target) || e == Saved(cur.(phase := Committed), ByCommit))
            && (r.failure.NoFailure? ==> r.state == cur.(phase := Committed))
            && (r.failure.NoFailure? && allowed ==> Saved(r.state, ByCommit) in r.effects)
  {
    var effects := Commit(h, x).effects;
    if Commit(h, x).failure.NoFailure? && CommitAllowedFrom(Load(h).phase) {
      assert effects[|effects| - 1] == Saved(Commit(h, x).state, ByCommit);
    }
    if x.ready && CommitAllowedFrom(Load(h).phase) && !x.keep && Target(x.snapshot, Load(h)) != "" && !x.del.Fails? {
      assert Commit(h, x).effects[0] == Deleted(Target(x.snapshot, Load(h)));
    }
  }

  // A rollback starts from the phases that leave a baseline to go back to, with a
  // snapshot to restore and a listing; otherwise it does nothing and fails.
  lemma RollbackStartsWhen(h: Host, x: RollbackIn)
    ensures var r, cur := Rollback(h, x), Load(h);
            var allowed := cur.phase in {Prepared, Executed, ExecuteFailed, ExecuteHung, ValidatedFail, ValidatedPartial};
            var starts := x.ready && allowed && (x.snapshot != "" || cur.snapshot != "") && x.listing.Some?;
            && (!starts ==> r.effects == [] && !r.failure.NoFailure?)
            && (r.failure.Refused? <==> x.ready && !allowed)
            && (starts <==> RollbackStarts(h, x))
  {
  }

  // ---- GC ----

  // Phases whose baseline gc leaves alone when it can read state.json.
  predicate Guarded(p: Phase) {
    p in {Prepared, Executing, Executed, ExecuteFailed, ExecuteHung, ValidatedPass, ValidatedPartial, ValidatedFail, RolledBack}
  }

  // With a readable state file the recorded snapshot of a guarded phase is skipped,
  // whatever its age; every other upgrade snapshot goes by its age alone.
  lemma GCGuards(h: Host, x: GCIn, name: string)
    requires IsInt64(x.olderThan) && x.ready && x.listing.Some?
    ensures var names, r := ParseSnapshotNames(x.listing.value), GC(h, x);
            var guarded := x.readable && Guarded(Load(h).phase) && name == Load(h).snapshot;
            && (guarded ==> Deleted(name) !in r.effects && name !in r.deleted)
            && (guarded && name in names && IsUpgradeSnapshot(name) ==> name in r.skipped)
            && (!guarded ==> (Deleted(name) in r.effects <==> Deletes(names, name, "", x)))
  {
    var names, active := ParseSnapshotNames(x.listing.value), ActiveSnapshot(h, x.readable);
    GCIsExact(h, x);
    if name in names && IsUpgradeSnapshot(name) {
      assert multiset(names)[name] > 0;
    }
    if name != active {
      NotActive(names, name, active, x);
    }
  }

  // A name that is not the active one is swept as if there were none.
  lemma NotActive(names: seq<string>, name: string, active: string, x: GCIn)
    requires name != active
    ensures Deletes(names, name, active, x) <==> Deletes(names, name, "", x)
  {
    assert IsUpgradeSnapshot(name) ==> name != "";
    assert forall k: nat :: DeletedAt(names, name, active, x, k) <==> DeletedAt(names, name, "", x, k);
  }

  // Old enough is a week unless another age is given.
  lemma StaleIsAWeek(name: string, x: GCIn)
    requires IsUpgradeSnapshot(name)
    ensures Stale(name, "", x) <==>
            x.now - TimestampOf(name).value * 1_000_000_000
            >= if x.olderThan > 0 then x.olderThan else 604_800 * 1_000_000_000
  {
    assert name != "";
  }

  // Without its listing gc does nothing.
  lemma GCNeedsListing(h: Host, x: GCIn)
    requires !x.ready || x.listing.None?
    ensures GC(h, x) == GCReport([], [], [])
  {
  }

  // ---- Reset ----

  // Reset changes nothing unless it is confirmed and the VM lists its snapshots.
  lemma ResetNeedsConfirmation(h: Host, x: ResetIn)
    requires !x.ready || x.listing.None? || !x.apply
    ensures Reset(h, x) == []
  {
  }

  // The baseline reset goes back to: that of any cycle on record that is not
  // committed, a failed rollback's included.
  predicate GoesBack(h: Host) {
    h.file.Some? && h.file.value.phase != Committed && h.file.value.snapshot != ""
  }

  ghost predicate AllWork(x: ResetIn) {
    x.restore.Works? && x.removes && forall k: nat :: x.dels(k).Works?
  }

  // The upgrade snapshots reset would delete, sorted, each as often as listed.
  ghost predicate OrphansOf(h: Host, names: seq<string>, orphans: seq<string>) {
    && InOrder(orphans)
    && forall n :: multiset(orphans)[n]
                == if IsUpgradeSnapshot(n) && !(GoesBack(h) && n == h.file.value.snapshot) then multiset(names)[n] else 0
  }

  // Reset does nothing at all when the baseline it would go back to is not listed,
  // and when there is neither an orphan nor a cycle that is not committed. Else,
  // if its calls work, it deletes the orphans in order, restores the baseline if
  // there is one to go back to, and removes the state file if there is one.
  lemma ResetIsExact(h: Host, x: ResetIn)
    requires x.ready && x.listing.Some? && x.apply && AllWork(x)
    ensures var names := ParseSnapshotNames(x.listing.value);
            if GoesBack(h) && h.file.value.snapshot !in names then Reset(h, x) == []
            else exists orphans :: OrphansOf(h, names, orphans)
                   && Reset(h, x)
                      == if orphans == [] && !GoesBack(h) && (h.file.None? || h.file.value.phase == Committed) then []
                         else Deletions(orphans)
                              + ((if GoesBack(h) then [Restored(h.file.value.snapshot)] else [])
                              + if h.file.Some? then [FileRemoved] else [])
  {
    PlanIsExact(h, x.listing.value);
    if ResetPlan(h, x.listing.value).Some? {
      var p := ResetPlan(h, x.listing.value).value;
      AllDeleted(p.toDelete, x.dels, 0);
      var restore := if p.rollbackTarget == "" then [] else [Restored(p.rollbackTarget)];
      Associates(Deletions(p.toDelete), restore, if p.removesState then [FileRemoved] else []);
      assert forall n: string :: IsUpgradeSnapshot(n) ==> n != "";
      assert OrphansOf(h, ParseSnapshotNames(x.listing.value), p.toDelete);
    }
  }

  lemma {:induction false} AllDeleted(names: seq<string>, dels: nat -> Call, k: nat)
    requires forall i: nat :: dels(i).Works?
    ensures DeleteForward(names, dels, k) == (Deletions(names), true)
    decreases names
  {
    if names != [] {
      AllDeleted(names[1..], dels, k + 1);
      assert Deletions(names) == [Deleted(names[0])] + Deletions(names[1..]);
    }
  }

  // Deleting stops right after the first call that does not work, whose own effect
  // may still have taken place.
  lemma {:induction false} StopsAtFirst(names: seq<string>, dels: nat -> Call, k: nat) returns (m: nat)
    ensures m <= |names| && (forall j: nat :: k <= j < k + m ==> dels(j).Works?) && (m < |names| ==> !dels(k + m).Works?)
    ensures DeleteForward(names, dels, k).1 <==> m == |names|
    ensures DeleteForward(names, dels, k).0
         == Deletions(names[..m]) + if m < |names| && dels(k + m).FailedLate? then [Deleted(names[m])] else []
    decreases names
  {
    m := 0;
    if names != [] && dels(k).Works? {
      var j := StopsAtFirst(names[1..], dels, k + 1);
      m := j + 1;
      assert Deletions(names[..m]) == [Deleted(names[0])] + Deletions(names[1..][..j]);
    }
  }

  // Nothing comes after a deletion or a restore that did not work.
  lemma ResetStops(h: Host, x: ResetIn)
    requires x.ready && x.listing.Some? && x.apply && ResetPlan(h, x.listing.value).Some?
    ensures var p := ResetPlan(h, x.listing.value).value;
            && ((exists e :: e in Reset(h, x) && !e.Deleted?) ==> forall j: nat :: j < |p.toDelete| ==> x.dels(j).Works?)
            && (FileRemoved in Reset(h, x) ==> x.removes && (GoesBack(h) ==> x.restore.Works?))
  {
    var p := ResetPlan(h, x.listing.value).value;
    var m := StopsAtFirst(p.toDelete, x.dels, 0);
    ForwardDeletes(p.toDelete, x.dels, 0);
    if m < |p.toDelete| {
      OnlyDeletions(p, x);
    } else {
      RemovesLast(p, x);
    }
  }

  lemma OnlyDeletions(p: Plan, x: ResetIn)
    requires !DeleteForward(p.toDelete, x.dels, 0).1
    ensures forall e :: e in ResetExecute(p, x) ==> e.Deleted?
  {
    ForwardDeletes(p.toDelete, x.dels, 0);
  }

  lemma RemovesLast(p: Plan, x: ResetIn)
    ensures FileRemoved in ResetExecute(p, x) ==> x.removes && (p.rollbackTarget != "" ==> x.restore.Works?)
  {
    ForwardDeletes(p.toDelete, x.dels, 0);
  }
}
