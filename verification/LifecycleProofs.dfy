/**
 What the upgrade lifecycle keeps over every history of commands and crashes:
 the baseline a rollback needs, the justification of every commit, the phases
 only reset leaves, and what a run can end in.
 */
module LifecycleProofs {
  import opened Common
  import opened Text
  import opened Listing
  import opened Lifecycle

  // ---- When an effect may take place ----

  // Phases from which some command may still lead to a rollback.
  predicate Pending(p: Phase) {
    RollbackAllowedFrom(p) || p == Executing
  }

  // The transitions the phase functions really write.
  predicate Edge(from: Phase, to: Phase) {
    match to
    case Prepared => from == Empty || from == Prepared || from == Committed
    case Executing => from == Prepared
    case Executed => from == Executing
    case ExecuteFailed => from == Executing
    case ExecuteHung => from == Executing
    case ValidatedPass => ValidateAllowedFrom(from)
    case ValidatedPartial => from == Executed || from == ExecuteFailed
    case ValidatedFail => from == Executed || from == ExecuteFailed
    case RolledBack => RollbackAllowedFrom(from)
    case RollbackFailed => RollbackAllowedFrom(from)
    case Committed => CommitAllowedFrom(from)
    case Empty => false
  }

  predicate AllPass(checks: seq<Check>) {
    checks != [] && forall c :: c in checks ==> c.pass
  }

  // Which command may write which phase.
  predicate WriterOk(rec: Record, w: Writer) {
    match w
    case ByPrepare => rec.phase == Prepared
    case ByExecute => rec.phase == Executing || rec.phase == Executed || rec.phase == ExecuteFailed || rec.phase == ExecuteHung
    case ByValidate(checks) =>
      && (rec.phase == ValidatedPass || rec.phase == ValidatedPartial || rec.phase == ValidatedFail)
      && (rec.phase == ValidatedPass <==> AllPass(checks))
    case ByRollback => rec.phase == RolledBack || rec.phase == RollbackFailed
    case ByCommit => rec.phase == Committed
  }

  predicate GoodBaseline(h: Host, name: string) {
    name in h.snaps && name != "" && !IsWatchdog(name)
  }

  predicate EffectOk(h: Host, e: Effect) {
    match e
    case Deleted(name) => Pending(Load(h).phase) ==> name != Load(h).snapshot
    case Saved(rec, w) =>
      && WriterOk(rec, w)
      && Edge(Load(h).phase, rec.phase)
      && if w.ByPrepare? then GoodBaseline(h, rec.snapshot)
         else rec == Load(h).(phase := rec.phase, failing := rec.failing)
    case _ => true
  }

  predicate OkFrom(h: Host, effects: seq<Effect>)
    decreases effects
  {
    effects == [] || (EffectOk(h, effects[0]) && OkFrom(Apply(h, effects[0]), effects[1..]))
  }

  // As long as a rollback is still possible its baseline is on the VM.
  predicate Inv(h: Host) {
    Pending(Load(h).phase) ==> GoodBaseline(h, Load(h).snapshot)
  }

  lemma InvStep(h: Host, e: Effect)
    requires Inv(h) && EffectOk(h, e)
    ensures Inv(Apply(h, e))
  {
  }

  lemma {:induction false} InvKept(h: Host, effects: seq<Effect>)
    requires Inv(h) && OkFrom(h, effects)
    ensures Inv(Replay(h, effects))
    decreases effects
  {
    if effects != [] {
      InvStep(h, effects[0]);
      InvKept(Apply(h, effects[0]), effects[1..]);
    }
  }

  lemma {:induction false} ReplayConcat(h: Host, a: seq<Effect>, b: seq<Effect>)
    ensures Replay(h, a + b) == Replay(Replay(h, a), b)
    ensures OkFrom(h, a + b) <==> OkFrom(h, a) && OkFrom(Replay(h, a), b)
    decreases a
  {
    if a == [] {
      assert a + b == b;
    } else {
      assert (a + b)[1..] == a[1..] + b;
      ReplayConcat(Apply(h, a[0]), a[1..], b);
    }
  }

  lemma ReplayOne(h: Host, e: Effect)
    ensures Replay(h, [e]) == Apply(h, e) && (OkFrom(h, [e]) <==> EffectOk(h, e))
  {
    assert [e][1..] == [];
  }

  lemma OkPrefix(h: Host, effects: seq<Effect>, n: nat)
    requires OkFrom(h, effects) && n <= |effects|
    ensures OkFrom(h, effects[..n])
  {
    assert effects == effects[..n] + effects[n..];
    ReplayConcat(h, effects[..n], effects[n..]);
  }

  // ---- Each command only does what is allowed ----

  // Snapshot operations that spare a pending baseline.
  predicate Spares(h: Host, e: Effect) {
    e.Created? || e.Restored? || (e.Deleted? && (Pending(Load(h).phase) ==> e.name != Load(h).snapshot))
  }

  lemma {:induction false} SparingIsOk(h: Host, effects: seq<Effect>)
    requires forall e :: e in effects ==> Spares(h, e)
    ensures OkFrom(h, effects) && Replay(h, effects).file == h.file
    decreases effects
  {
    if effects != [] {
      assert effects[0] in effects && Spares(h, effects[0]);
      forall e | e in effects[1..] ensures Spares(Apply(h, effects[0]), e) {
        assert Spares(h, e);
      }
      SparingIsOk(Apply(h, effects[0]), effects[1..]);
    }
  }

  // Snapshot operations, then one save.
  lemma SaveAfterSparing(h: Host, effects: seq<Effect>, ok: bool, rec: Record, w: Writer)
    requires forall e :: e in effects ==> Spares(h, e)
    requires EffectOk(Replay(h, effects), Saved(rec, w))
    ensures OkFrom(h, effects + Saving(ok, rec, w))
    ensures Load(Replay(h, effects + Saving(ok, rec, w))) == if ok then rec else Load(h)
  {
    SparingIsOk(h, effects);
    ReplayConcat(h, effects, Saving(ok, rec, w));
    ReplayOne(Replay(h, effects), Saved(rec, w));
  }

  lemma PrepareOk(h: Host, x: PrepareIn)
    ensures OkFrom(h, Prepare(h, x).effects)
    ensures Prepare(h, x).failure.NoFailure? ==> Load(Replay(h, Prepare(h, x).effects)) == PreparedRecord(x)
    ensures !Prepare(h, x).failure.NoFailure? ==> Load(Replay(h, Prepare(h, x).effects)) == Load(h)
  {
    var made := Calling(x.snapshot, Created(SnapshotName(x.now)));
    SparingIsOk(h, made);
    if Prepare(h, x).failure.NoFailure? {
      ReplayOne(h, Created(SnapshotName(x.now)));
      UpgradeNameIsNotWatchdog(x.now);
      SaveAfterSparing(h, made, true, PreparedRecord(x), ByPrepare);
    }
  }

  lemma ExecuteOk(h: Host, x: ExecuteIn)
    ensures OkFrom(h, Execute(h, x).effects)
    ensures Execute(h, x).effects == [] || Load(Replay(h, Execute(h, x).effects))
         == Load(h).(phase := if x.savedEnd then RunPhase(x.run) else Executing)
  {
    var cur := Load(h);
    if Execute(h, x).effects != [] {
      var start := Saved(cur.(phase := Executing), ByExecute);
      ReplayOne(h, start);
      ReplayConcat(h, [start], Saving(x.savedEnd, cur.(phase := RunPhase(x.run)), ByExecute));
      ReplayOne(Apply(h, start), Saved(cur.(phase := RunPhase(x.run)), ByExecute));
    }
  }

  lemma {:induction false} PassesMeans(checks: seq<Check>)
    ensures Passes(checks) <= |checks|
    ensures Passes(checks) == |checks| <==> forall c :: c in checks ==> c.pass
    ensures Passes(checks) > 0 <==> exists c :: c in checks && c.pass
    decreases checks
  {
    if checks != [] {
      HeadTail(checks);
      PassesMeans(checks[1..]);
    }
  }

  // The outcome is a pass exactly when there is a check and every check passes,
  // and partial exactly when that is accepted and some pass and some fail.
  lemma AggregateMeans(checks: seq<Check>, acceptPartial: bool)
    ensures SelectValidatePhase(AggregateChecks(checks), acceptPartial) == ValidatedPass <==> AllPass(checks)
    ensures SelectValidatePhase(AggregateChecks(checks), acceptPartial) == ValidatedPartial <==>
              acceptPartial && (exists c :: c in checks && c.pass) && (exists c :: c in checks && !c.pass)
  {
    PassesMeans(checks);
  }

  // The failing names are those of the checks that fail, each as often as it does.
  lemma {:induction false} FailingNamesMean(checks: seq<Check>)
    ensures |FailingNames(checks)| + Passes(checks) == |checks|
    ensures forall n :: n in FailingNames(checks) <==> Check(n, false) in checks
    decreases checks
  {
    if checks != [] {
      HeadTail(checks);
      FailingNamesMean(checks[1..]);
    }
  }

  lemma ValidateOk(h: Host, x: ValidateIn)
    ensures OkFrom(h, Validate(h, x).effects)
    ensures Validate(h, x).failure.NoFailure? ==>
              && Load(Replay(h, Validate(h, x).effects)) == Validate(h, x).state
              && (Validate(h, x).state.phase == ValidatedPartial ==> x.acceptPartial)
    ensures !Validate(h, x).failure.NoFailure? ==> Validate(h, x).effects == []
  {
    var v := Validate(h, x);
    if v.effects != [] {
      AggregateMeans(x.checks, x.acceptPartial);
      ReplayOne(h, v.effects[0]);
    }
    if v.failure.NoFailure? {
      AggregateMeans(x.checks, x.acceptPartial);
    }
  }

  lemma {:induction false} BackwardDeletes(names: seq<string>, dels: nat -> Call, k: nat)
    ensures forall e :: e in DeleteBackward(names, dels, k) ==> e.Deleted? && e.name in names
    decreases names
  {
    if names != [] {
      BackwardDeletes(names[..|names| - 1], dels, k + 1);
    }
  }

  // Whatever the listing says, rollback deletes only watchdog snapshots.
  lemma RollbackSpares(h: Host, x: RollbackIn, target: string)
    requires Inv(h) && x.listing.Some?
    ensures forall e :: e in DeleteBackward(SnapshotsAfter(x.listing.value, target), x.dels, 0) ==>
              Spares(h, e) && e.Deleted? && IsWatchdog(e.name)
  {
    OnlyWatchdogsAfter(x.listing.value, target);
    BackwardDeletes(SnapshotsAfter(x.listing.value, target), x.dels, 0);
  }

  lemma RollbackOk(h: Host, x: RollbackIn)
    requires Inv(h)
    ensures OkFrom(h, Rollback(h, x).effects)
    ensures Rollback(h, x).failure.NoFailure? ==>
              Load(Replay(h, Rollback(h, x).effects)) == Rollback(h, x).state == Load(h).(phase := RolledBack)
    ensures forall e :: e in Rollback(h, x).effects ==>
              (e.Deleted? && IsWatchdog(e.name)) || e.Restored? || (e.Saved? && e.writer.ByRollback?)
  {
    var cur := Load(h);
    var target := Target(x.snapshot, cur);
    if Rollback(h, x).effects != [] {
      RollbackSpares(h, x, target);
      var cleared := DeleteBackward(SnapshotsAfter(x.listing.value, target), x.dels, 0);
      var restored := cleared + Calling(x.restore, Restored(target));
      SparingIsOk(h, restored);
      SaveAfterSparing(h, restored, x.saved, cur.(phase := RollbackFailed), ByRollback);
      SaveAfterSparing(h, restored, x.saved, cur.(phase := RolledBack), ByRollback);
    }
  }

  lemma CommitOk(h: Host, x: CommitIn)
    ensures OkFrom(h, Commit(h, x).effects)
  {
    var cur := Load(h);
    var target := Target(x.snapshot, cur);
    if Commit(h, x).effects != [] {
      var released := if !x.keep && target != "" then Calling(x.del, Deleted(target)) else [];
      SparingIsOk(h, released);
      SaveAfterSparing(h, released, x.saved, cur.(phase := Committed), ByCommit);
    }
  }

  lemma {:induction false} SweepDeletes(names: seq<string>, active: string, x: GCIn)
    ensures forall e :: e in Sweep(names, active, x).effects ==>
              e.Deleted? && exists k: nat :: k < |names| && names[k] == e.name && Judge(e.name, active, x, k).Swept?
    decreases names
  {
    if names != [] {
      var k := |names| - 1;
      SweepDeletes(names[..k], active, x);
      forall e | e in Sweep(names[..k], active, x).effects
        ensures exists j: nat :: j < |names| && names[j] == e.name && Judge(e.name, active, x, j).Swept?
      {
        var j: nat :| j < k && names[..k][j] == e.name && Judge(e.name, active, x, j).Swept?;
        assert names[j] == e.name;
      }
      if Judge(names[k], active, x, k).Swept? {
        assert names[k] == Deleted(names[k]).name;
      }
    }
  }

  // With a readable state file gc never deletes the active cycle's snapshot.
  lemma GCOk(h: Host, x: GCIn)
    requires x.readable && Inv(h)
    ensures OkFrom(h, GC(h, x).effects)
  {
    if x.ready && x.listing.Some? {
      SweepDeletes(ParseSnapshotNames(x.listing.value), ActiveSnapshot(h, x.readable), x);
    }
    SparingIsOk(h, GC(h, x).effects);
  }

  lemma {:induction false} UpgradeNamesExcept(names: seq<string>, except: string)
    ensures forall n :: n in UpgradeNames(names, except) ==> IsUpgradeSnapshot(n) && n != except && n in names
    decreases names
  {
    if names != [] {
      UpgradeNamesExcept(names[1..], except);
    }
  }

  lemma {:induction false} ForwardDeletes(names: seq<string>, dels: nat -> Call, k: nat)
    ensures forall e :: e in DeleteForward(names, dels, k).0 ==> e.Deleted? && e.name in names
    decreases names
  {
    if names != [] {
      ForwardDeletes(names[1..], dels, k + 1);
    }
  }

  lemma PlanSparesBaseline(h: Host, text: string)
    requires ResetPlan(h, text).Some?
    ensures var p := ResetPlan(h, text).value;
            forall n :: n in p.toDelete ==> n != RollbackTarget(h)
  {
    var names := UpgradeNames(ParseSnapshotNames(text), RollbackTarget(h));
    UpgradeNamesExcept(ParseSnapshotNames(text), RollbackTarget(h));
    SortedKeeps(names);
    forall n | n in Sorted(names) ensures n in names {
      assert n in multiset(Sorted(names));
    }
  }

  lemma ResetOk(h: Host, x: ResetIn)
    requires Inv(h)
    ensures OkFrom(h, Reset(h, x))
  {
    if Reset(h, x) != [] {
      var p := ResetPlan(h, x.listing.value).value;
      PlanSparesBaseline(h, x.listing.value);
      ForwardDeletes(p.toDelete, x.dels, 0);
      var deleting := DeleteForward(p.toDelete, x.dels, 0);
      var restoring := if p.rollbackTarget == "" then [] else Calling(x.restore, Restored(p.rollbackTarget));
      SparingIsOk(h, deleting.0);
      SparingIsOk(h, deleting.0 + restoring);
      ReplayConcat(h, deleting.0 + restoring, [FileRemoved]);
      ReplayOne(Replay(h, deleting.0 + restoring), FileRemoved);
      assert (deleting.0 + restoring) + [] == deleting.0 + restoring;
    }
  }

  // ---- What rollback and commit leave ----

  predicate RollbackStarts(h: Host, x: RollbackIn) {
    x.ready && RollbackAllowedFrom(Load(h).phase) && Target(x.snapshot, Load(h)) != "" && x.listing.Some?
  }

  predicate GuestReturns(x: RollbackIn) {
    x.restore.Works? && (x.running || x.starts) && x.guestAnswers
  }

  // A rollback that starts leaves rolled_back exactly when the restore works, the
  // guest comes back and the record is saved; rollback_failed when one of the
  // first two fails and the record is saved; and otherwise what was there. It
  // returns the record it tried to save, unless the guest could not be started:
  // then it returns the one it had loaded.
  lemma RollbackEndsIn(h: Host, x: RollbackIn)
    requires Inv(h) && RollbackStarts(h, x)
    ensures var end := Load(h).(phase := if GuestReturns(x) then RolledBack else RollbackFailed);
            && Load(Replay(h, Rollback(h, x).effects)) == (if x.saved then end else Load(h))
            && (Rollback(h, x).failure.NoFailure? <==> GuestReturns(x) && x.saved)
            && Rollback(h, x).state == if x.restore.Works? && !x.running && !x.starts then Load(h) else end
  {
    var cur, target := Load(h), Target(x.snapshot, Load(h));
    RollbackSpares(h, x, target);
    var restored := DeleteBackward(SnapshotsAfter(x.listing.value, target), x.dels, 0) + Calling(x.restore, Restored(target));
    SparingIsOk(h, restored);
    SaveAfterSparing(h, restored, x.saved, cur.(phase := RollbackFailed), ByRollback);
    SaveAfterSparing(h, restored, x.saved, cur.(phase := RolledBack), ByRollback);
  }

  // rolled_back is written only once the target has been restored.
  lemma RolledBackMeansRestored(h: Host, x: RollbackIn, i: nat)
    requires Inv(h) && i < |Rollback(h, x).effects|
    requires Rollback(h, x).effects[i].Saved? && Rollback(h, x).effects[i].rec.phase == RolledBack
    ensures exists j: nat :: j < i && Rollback(h, x).effects[j] == Restored(Target(x.snapshot, Load(h)))
  {
    var target := Target(x.snapshot, Load(h));
    RollbackSpares(h, x, target);
    var cleared := DeleteBackward(SnapshotsAfter(x.listing.value, target), x.dels, 0);
    assert forall k :: 0 <= k < |cleared| ==> cleared[k] in cleared;
    assert Rollback(h, x).effects[|cleared|] == Restored(target);
  }

  // Wherever a commit is cut short, committed is in the state file only when the
  // snapshot has been released, unless it was to be kept or there is none.
  lemma CommitReleases(h: Host, x: CommitIn, n: nat)
    requires Load(h).phase != Committed && n <= |Commit(h, x).effects|
    ensures var after, target := Replay(h, Commit(h, x).effects[..n]), Target(x.snapshot, Load(h));
            && (Load(after).phase == Committed && !x.keep && target != "" ==> target !in after.snaps)
            && (x.keep || target == "" ==> after.snaps == h.snaps)
  {
    var target, effects := Target(x.snapshot, Load(h)), Commit(h, x).effects;
    var done := Saved(Load(h).(phase := Committed), ByCommit);
    ReplayOne(h, done);
    if n == |effects| {
      assert effects[..n] == effects;
    }
    if !x.keep && target != "" && n > 0 {
      ReplayOne(h, Deleted(target));
      ReplayConcat(h, [Deleted(target)], [done]);
      ReplayOne(Apply(h, Deleted(target)), done);
      assert effects[..n] == [Deleted(target)] || effects[..n] == [Deleted(target)] + [done];
    }
  }

  // ---- Run ----

  // Snapshots Run deletes are the watchdog's, and it writes no committed phase.
  predicate RunMay(e: Effect) {
    (e.Deleted? ==> IsWatchdog(e.name)) && (e.Saved? ==> e.rec.phase != Committed) && !e.FileRemoved?
  }

  // What Run's last part ends in when it reports no error.
  predicate Settled(x: RunIn, end: RunOutcome, after: Record) {
    !end.failed ==>
      && end.state == after
      && (after.phase == ValidatedPass || after.phase == ValidatedPartial || after.phase == RolledBack)
      && (end.autoRollback <==> after.phase == RolledBack)
      && (after.phase == ValidatedPartial ==> x.validate.acceptPartial)
  }

  lemma RollbackMay(h: Host, x: RollbackIn)
    requires Inv(h)
    ensures forall e :: e in Rollback(h, x).effects ==> RunMay(e)
  {
    RollbackOk(h, x);
    OkSavesAreRollbacks(h, Rollback(h, x).effects);
  }

  lemma {:induction false} OkSavesAreRollbacks(h: Host, effects: seq<Effect>)
    requires OkFrom(h, effects)
    requires forall e :: e in effects ==>
               (e.Deleted? && IsWatchdog(e.name)) || e.Restored? || (e.Saved? && e.writer.ByRollback?)
    ensures forall e :: e in effects ==> RunMay(e)
    decreases effects
  {
    if effects != [] {
      assert effects[0] in effects;
      OkSavesAreRollbacks(Apply(h, effects[0]), effects[1..]);
    }
  }

  lemma SettleOk(h: Host, x: RunIn)
    requires Inv(h)
    requires Load(h).phase == Prepared || Load(h).phase == Executing || Load(h).phase == Executed
             || Load(h).phase == ExecuteFailed || Load(h).phase == ExecuteHung
    ensures OkFrom(h, Settle(h, x).effects)
    ensures forall e :: e in Settle(h, x).effects ==> RunMay(e)
    ensures Settled(x, Settle(h, x), Load(Replay(h, Settle(h, x).effects)))
  {
    if x.peeked && Load(h).phase == ExecuteHung {
      RollbackOk(h, x.rollback);
      RollbackMay(h, x.rollback);
    } else {
      var v := Validate(h, x.validate);
      ValidateOk(h, x.validate);
      if v.failure.NoFailure? && v.state.phase == ValidatedFail {
        var validated := Replay(h, v.effects);
        InvKept(h, v.effects);
        RollbackOk(validated, x.rollback);
        RollbackMay(validated, x.rollback);
        ReplayConcat(h, v.effects, Rollback(validated, x.rollback).effects);
      }
    }
  }

  // What an outcome has to satisfy for its effects to be those of a run.
  predicate GoodRun(h: Host, x: RunIn, r: RunOutcome) {
    && OkFrom(h, r.effects)
    && (forall e :: e in r.effects ==> RunMay(e))
    && Settled(x, r, Load(Replay(h, r.effects)))
  }

  // Allowed effects before a good outcome make a good outcome.
  lemma GoodAfter(h: Host, x: RunIn, first: seq<Effect>, r: RunOutcome)
    requires OkFrom(h, first) && (forall e :: e in first ==> RunMay(e))
    requires GoodRun(Replay(h, first), x, r)
    ensures GoodRun(h, x, r.(effects := first + r.effects))
  {
    ReplayConcat(h, first, r.effects);
  }

  // The part of Run after prepare.
  lemma RunTail(h: Host, x: RunIn)
    requires Inv(h) && Load(h).phase == Prepared
    ensures var e := Execute(h, x.execute);
            var end := Settle(Replay(h, e.effects), x);
            GoodRun(h, x, end.(effects := e.effects + end.effects))
  {
    var e := Execute(h, x.execute);
    ExecuteOk(h, x.execute);
    InvKept(h, e.effects);
    var executed := Replay(h, e.effects);
    SettleOk(executed, x);
    GoodAfter(h, x, e.effects, Settle(executed, x));
  }

  lemma RunOk(h: Host, x: RunIn)
    requires Inv(h)
    ensures GoodRun(h, x, Run(h, x))
  {
    var p := Prepare(h, x.prepare);
    PrepareOk(h, x.prepare);
    if p.failure.NoFailure? && x.reloaded {
      var prepared := Replay(h, p.effects);
      InvKept(h, p.effects);
      RunTail(prepared, x);
      var e := Execute(prepared, x.execute);
      var end := Settle(Replay(prepared, e.effects), x);
      GoodAfter(h, x, p.effects, end.(effects := e.effects + end.effects));
    }
  }

  // When Run reports no error, the persisted record is the returned one, in
  // validated_pass, validated_partial or rolled_back; AutoRollback says exactly
  // whether it is rolled_back; and validated_partial needs AcceptPartial.
  lemma RunEndsWell(h: Host, x: RunIn)
    requires Inv(h) && !Run(h, x).failed
    ensures var after := Load(Replay(h, Run(h, x).effects));
            && Run(h, x).state == after
            && (after.phase == ValidatedPass || after.phase == ValidatedPartial || after.phase == RolledBack)
            && (Run(h, x).autoRollback <==> after.phase == RolledBack)
            && (after.phase == ValidatedPartial ==> x.validate.acceptPartial)
  {
    RunOk(h, x);
  }

  // The same of the host it leaves, which is as sound as before.
  predicate RunPromise(x: RunIn, r: RunOutcome, after: Host) {
    Inv(after) && Settled(x, r, Load(after))
  }

  lemma RunKeepsPromise(h: Host, x: RunIn)
    requires Inv(h)
    ensures RunPromise(x, Run(h, x), Replay(h, Run(h, x).effects))
  {
    RunOk(h, x);
    InvKept(h, Run(h, x).effects);
  }

  // However it ends, and wherever it is cut short, Run never deletes the
  // baseline of its cycle and never writes committed.
  lemma RunSparesItsBaseline(h: Host, x: RunIn)
    requires Inv(h)
    ensures Deleted(SnapshotName(x.prepare.now)) !in Run(h, x).effects
    ensures forall e :: e in Run(h, x).effects ==> !(e.Saved? && e.rec.phase == Committed)
  {
    RunOk(h, x);
    UpgradeNameIsNotWatchdog(x.prepare.now);
  }

  // ---- Every history ----

  // The one assumption about the environment: gc can read state.json.
  predicate StateReadable(c: Command) {
    c.DoGC? ==> c.gc.readable
  }

  lemma CommandOk(h: Host, c: Command)
    requires Inv(h) && StateReadable(c)
    ensures OkFrom(h, Effects(h, c))
  {
    match c
    case DoPrepare(x) => PrepareOk(h, x);
    case DoExecute(x) => ExecuteOk(h, x);
    case DoValidate(x) => ValidateOk(h, x);
    case DoRollback(x) => RollbackOk(h, x);
    case DoCommit(x) => CommitOk(h, x);
    case DoGC(x) => GCOk(h, x);
    case DoReset(x) => ResetOk(h, x);
    case DoRun(x) => RunOk(h, x);
  }

  // A command that runs to its end leaves a sound host sound.
  lemma CommandKeeps(h: Host, c: Command)
    requires Inv(h) && StateReadable(c)
    ensures Inv(Replay(h, Effects(h, c)))
  {
    CommandOk(h, c);
    InvKept(h, Effects(h, c));
  }

  lemma {:induction false} HistoryOk(h: Host, attempts: seq<Attempt>)
    requires Inv(h) && forall a :: a in attempts ==> StateReadable(a.command)
    ensures OkFrom(h, History(h, attempts))
    decreases attempts
  {
    if attempts != [] {
      var a := attempts[0];
      assert a in attempts;
      var first := Performed(h, a);
      CommandOk(h, a.command);
      OkPrefix(h, Effects(h, a.command), Min(a.cut, |Effects(h, a.command)|));
      InvKept(h, first);
      HistoryOk(Replay(h, first), attempts[1..]);
      ReplayConcat(h, first, History(Replay(h, first), attempts[1..]));
    }
  }

  // At every point of every history, crashes between any two effects included:
  // whenever the persisted phase is one Rollback accepts, the recorded baseline
  // is still on the VM.
  lemma BaselineKept(snaps: set<string>, attempts: seq<Attempt>, n: nat)
    requires forall a :: a in attempts ==> StateReadable(a.command)
    requires n <= |History(Host(None, snaps), attempts)|
    ensures var h := Replay(Host(None, snaps), History(Host(None, snaps), attempts)[..n]);
            RollbackAllowedFrom(Load(h).phase) ==> Load(h).snapshot in h.snaps
  {
    var start := Host(None, snaps);
    HistoryOk(start, attempts);
    OkPrefix(start, History(start, attempts), n);
    InvKept(start, History(start, attempts)[..n]);
  }

  // ---- What justifies a commit ----

  predicate IsWrite(e: Effect) {
    e.Saved? || e.FileRemoved?
  }

  // The write the state file's content comes from.
  lemma {:induction false} LastWrite(h: Host, effects: seq<Effect>) returns (j: nat)
    requires h.file.None? && Replay(h, effects).file.Some?
    ensures j < |effects| && effects[j].Saved? && Some(effects[j].rec) == Replay(h, effects).file
    ensures forall k :: j < k < |effects| ==> !IsWrite(effects[k])
  {
    var n := |effects| - 1;
    if effects == [] {
      assert false;
    } else {
      assert effects == effects[..n] + [effects[n]];
      ReplayConcat(h, effects[..n], [effects[n]]);
      ReplayOne(Replay(h, effects[..n]), effects[n]);
      if effects[n].Saved? {
        j := n;
      } else {
        j := LastWrite(h, effects[..n]);
      }
    }
  }

  lemma EffectAt(h: Host, effects: seq<Effect>, i: nat)
    requires OkFrom(h, effects) && i < |effects|
    ensures EffectOk(Replay(h, effects[..i]), effects[i])
  {
    assert effects == effects[..i] + effects[i..];
    ReplayConcat(h, effects[..i], effects[i..]);
  }

  // A commit at i, justified by the write at j, with no other write between.
  predicate Justifies(log: seq<Effect>, j: nat, i: nat)
    requires j < i < |log| && log[i].Saved?
  {
    && log[j].Saved?
    && (|| (log[j].rec.phase == ValidatedPass && log[j].writer.ByValidate? && AllPass(log[j].writer.checks))
        || (log[j].rec.phase == RolledBack && log[j].writer.ByRollback?))
    && log[i].rec == log[j].rec.(phase := Committed, failing := log[i].rec.failing)
    && forall k :: j < k < i ==> !IsWrite(log[k])
  }

  lemma AllowedCommitIsJustified(start: Host, log: seq<Effect>, i: nat) returns (j: nat)
    requires start.file.None? && OkFrom(start, log)
    requires i < |log| && log[i].Saved? && log[i].rec.phase == Committed
    ensures j < i && Justifies(log, j, i)
  {
    EffectAt(start, log, i);
    var before := log[..i];
    j := LastWrite(start, before);
    assert log[j] == before[j];
    EffectAt(start, log, j);
    assert forall k :: j < k < i ==> log[k] == before[k];
  }

  // In every history the file write right before a write of committed is a
  // validation in which every check passed, or a rollback that saved
  // rolled_back. No prepare, reset or other write lies between them.
  lemma CommitIsJustified(snaps: set<string>, attempts: seq<Attempt>, i: nat)
    requires forall a :: a in attempts ==> StateReadable(a.command)
    requires i < |History(Host(None, snaps), attempts)|
    requires var e := History(Host(None, snaps), attempts)[i]; e.Saved? && e.rec.phase == Committed
    ensures exists j: nat :: j < i && Justifies(History(Host(None, snaps), attempts), j, i)
  {
    HistoryOk(Host(None, snaps), attempts);
    var j := AllowedCommitIsJustified(Host(None, snaps), History(Host(None, snaps), attempts), i);
  }

  // ---- Phases only reset leaves ----

  predicate Stuck(p: Phase) {
    p == RollbackFailed || p == Executing
  }

  lemma GCWritesNothing(h: Host, x: GCIn)
    ensures forall e :: e in GC(h, x).effects ==> !IsWrite(e)
  {
    if x.ready && x.listing.Some? {
      SweepDeletes(ParseSnapshotNames(x.listing.value), ActiveSnapshot(h, x.readable), x);
    }
  }

  // Every phase function refuses a stuck phase.
  lemma StuckRefuses(h: Host, c: Command)
    requires Stuck(Load(h).phase) && !c.DoReset? && !c.DoGC?
    ensures Effects(h, c) == []
  {
  }

  lemma StuckCommand(h: Host, c: Command)
    requires Stuck(Load(h).phase) && !c.DoReset?
    ensures forall e :: e in Effects(h, c) ==> !IsWrite(e)
  {
    if c.DoGC? {
      GCWritesNothing(h, c.gc);
    } else {
      StuckRefuses(h, c);
    }
  }

  lemma {:induction false} NoWrite(h: Host, effects: seq<Effect>)
    requires forall e :: e in effects ==> !IsWrite(e)
    ensures Replay(h, effects).file == h.file
    decreases effects
  {
    if effects != [] {
      assert effects[0] in effects;
      NoWrite(Apply(h, effects[0]), effects[1..]);
    }
  }

  // From rollback_failed, or from executing left by a crash, no history without
  // a reset writes or removes the state file, whatever it holds and wherever it
  // is cut short.
  lemma {:induction false} StuckUntilReset(h: Host, attempts: seq<Attempt>)
    requires Stuck(Load(h).phase) && forall a :: a in attempts ==> !a.command.DoReset?
    ensures forall e :: e in History(h, attempts) ==> !IsWrite(e)
    ensures Replay(h, History(h, attempts)).file == h.file
    decreases attempts
  {
    if attempts != [] {
      assert attempts[0] in attempts;
      var first := Performed(h, attempts[0]);
      StuckCommand(h, attempts[0].command);
      NoWrite(h, first);
      StuckUntilReset(Replay(h, first), attempts[1..]);
    }
    NoWrite(h, History(h, attempts));
  }

  // ---- A commit cut short ----

  // The cycle is over but for its commit, and its baseline is gone.
  predicate Stranded(h: Host) {
    CommitAllowedFrom(Load(h).phase) && Load(h).snapshot != "" && Load(h).snapshot !in h.snaps
  }

  // A commit that is cut short between the release and the save, or whose save
  // fails, leaves such a host.
  lemma CommitStrands(h: Host, x: CommitIn)
    requires CommitAllowedFrom(Load(h).phase) && Load(h).snapshot != ""
    requires x.ready && !x.keep && x.snapshot == "" && x.del.Works?
    ensures Stranded(Replay(h, Performed(h, Attempt(DoCommit(x), 1))))
    ensures !x.saved ==> Stranded(Replay(h, Commit(h, x).effects))
  {
    var gone := Deleted(Load(h).snapshot);
    ReplayOne(h, gone);
    assert Commit(h, x).effects[..1] == [gone];
    assert !x.saved ==> Commit(h, x).effects == [gone];
  }

  // What the VM answers about the host: a snapshot that is not there cannot be
  // deleted, and is not listed.
  predicate Honest(h: Host, c: Command) {
    match c
    case DoCommit(x) =>
      var target := Target(x.snapshot, Load(h));
      !x.keep && target != "" && !x.del.Fails? ==> target in h.snaps
    case DoReset(x) => x.listing.Some? ==> forall n :: n in ParseSnapshotNames(x.listing.value) ==> n in h.snaps
    case _ => true
  }

  // A commit that is told to keep the snapshot, or given another one to release.
  predicate CommitsAnyway(h: Host, c: Command) {
    c.DoCommit? && c.commit.ready && c.commit.saved
    && (c.commit.keep || (c.commit.snapshot != "" && c.commit.snapshot != Load(h).snapshot && c.commit.del.Works?))
  }

  // From a stranded host a command leads out exactly when it is such a commit.
  // Reset refuses, prepare and run refuse, a repeated commit asks for a snapshot
  // that is not there, and validate stays.
  lemma OnlyCommitLeads(h: Host, c: Command)
    requires Stranded(h) && Honest(h, c)
    ensures CommitAllowedFrom(Load(Replay(h, Effects(h, c))).phase) <==> !CommitsAnyway(h, c)
  {
    match c {
      case DoCommit(x) =>
        CommitLeaves(h, x);
      case DoValidate(x) => ValidateLeaves(h, x);
      case DoGC(x) =>
        GCWritesNothing(h, x);
        NoWrite(h, GC(h, x).effects);
      case DoReset(x) => assert Reset(h, x) == [];
      case _ => assert Effects(h, c) == [];
    }
  }

  lemma CommitLeaves(h: Host, x: CommitIn)
    requires CommitAllowedFrom(Load(h).phase)
    ensures var target := Target(x.snapshot, Load(h));
            Load(Replay(h, Commit(h, x).effects)).phase
            == if x.ready && x.saved && (x.keep || target == "" || x.del.Works?) then Committed else Load(h).phase
  {
    var target := Target(x.snapshot, Load(h));
    var released := if !x.keep && target != "" then Calling(x.del, Deleted(target)) else [];
    SparingIsOk(h, released);
    SaveAfterSparing(h, released, x.saved, Load(h).(phase := Committed), ByCommit);
  }

  lemma ValidateLeaves(h: Host, x: ValidateIn)
    requires CommitAllowedFrom(Load(h).phase)
    ensures CommitAllowedFrom(Load(Replay(h, Validate(h, x).effects)).phase)
  {
    var v := Validate(h, x);
    if v.effects != [] {
      ReplayOne(h, v.effects[0]);
    }
  }

  // Reset does leave the phases above when its calls work and the VM lists the
  // baseline.
  lemma ResetFrees(h: Host, x: ResetIn)
    requires Stuck(Load(h).phase)
    requires x.ready && x.apply && x.restore.Works? && x.removes && forall k: nat :: x.dels(k).Works?
    requires x.listing.Some? && Load(h).snapshot in ParseSnapshotNames(x.listing.value)
    ensures Replay(h, Reset(h, x)).file == None
  {
    var p := ResetPlan(h, x.listing.value).value;
    WorkingDeletes(p.toDelete, x.dels, 0);
    var before := DeleteForward(p.toDelete, x.dels, 0).0
                  + if p.rollbackTarget == "" then [] else Calling(x.restore, Restored(p.rollbackTarget));
    ReplayConcat(h, before, [FileRemoved]);
    ReplayOne(Replay(h, before), FileRemoved);
  }

  lemma {:induction false} WorkingDeletes(names: seq<string>, dels: nat -> Call, k: nat)
    requires forall i: nat :: dels(i).Works?
    ensures DeleteForward(names, dels, k).1
    decreases names
  {
    if names != [] {
      WorkingDeletes(names[1..], dels, k + 1);
    }
  }

  // ---- The documented table against the code ----

  // The command's i-th effect writes `to` over `from`.
  predicate Takes(h: Host, c: Command, i: nat, from: Phase, to: Phase) {
    var effects := Effects(h, c);
    && i < |effects| && effects[i].Saved? && effects[i].rec.phase == to
    && Load(Replay(h, effects[..i])).phase == from
  }

  // A host in the given phase, its baseline on the VM.
  function HostIn(p: Phase): Host {
    Host(Some(Record(p, SnapshotName(0), "", "", [])), {SnapshotName(0)})
  }

  lemma HostInIsSound(p: Phase)
    ensures Inv(HostIn(p)) && Load(HostIn(p)).phase == p
  {
    UpgradeNameIsNotWatchdog(0);
  }

  // A rollback with nothing in the way, whose restore works or fails.
  function PlainRollback(works: bool): RollbackIn {
    RollbackIn(true, "", Some(""), _ => Works, if works then Works else Fails, true, true, true, true)
  }

  lemma PlainEffects(from: Phase, works: bool)
    requires RollbackAllowedFrom(from)
    ensures var cur := Load(HostIn(from));
            Rollback(HostIn(from), PlainRollback(works)).effects
            == if works then [Restored(SnapshotName(0)), Saved(cur.(phase := RolledBack), ByRollback)]
               else [Saved(cur.(phase := RollbackFailed), ByRollback)]
  {
    assert Split("") == [""] && Entry("") == [];
    assert SnapshotsAfter("", SnapshotName(0)) == [];
  }

  lemma RollbackTakes(from: Phase, works: bool)
    requires RollbackAllowedFrom(from)
    ensures works ==> exists c, i :: Takes(HostIn(from), c, i, from, RolledBack)
    ensures !works ==> exists c, i :: Takes(HostIn(from), c, i, from, RollbackFailed)
  {
    var h, c := HostIn(from), DoRollback(PlainRollback(works));
    PlainEffects(from, works);
    var effects := Effects(h, c);
    assert works ==> effects[..1] == [Restored(SnapshotName(0))];
    ReplayOne(h, Restored(SnapshotName(0)));
    assert Takes(h, c, if works then 1 else 0, from, if works then RolledBack else RollbackFailed);
  }

  lemma ExecuteTakes(run: GuestRun)
    ensures exists c, i :: Takes(HostIn(Prepared), c, i, Prepared, Executing)
    ensures exists c, i :: Takes(HostIn(Prepared), c, i, Executing, RunPhase(run))
  {
    var c := DoExecute(ExecuteIn(true, true, run, true));
    var h := HostIn(Prepared);
    assert Effects(h, c)[..1] == [Effects(h, c)[0]];
    ReplayOne(h, Effects(h, c)[0]);
    assert Takes(h, c, 0, Prepared, Executing) && Takes(h, c, 1, Executing, RunPhase(run));
  }

  lemma PrepareTakes(from: Phase)
    requires CanTransition(from, Prepared)
    ensures exists c, i :: Takes(HostIn(from), c, i, from, Prepared)
  {
    var c := DoPrepare(PrepareIn(true, 0, "", "", true, Works, true, true));
    ReplayOne(HostIn(from), Created(SnapshotName(0)));
    assert Effects(HostIn(from), c)[..1] == [Created(SnapshotName(0))];
    assert Takes(HostIn(from), c, 1, from, Prepared);
  }

  lemma CommitTakes(from: Phase)
    requires CommitAllowedFrom(from)
    ensures exists c, i :: Takes(HostIn(from), c, i, from, Committed)
  {
    assert Takes(HostIn(from), DoCommit(CommitIn(true, "", true, Works, true)), 0, from, Committed);
  }

  lemma ValidateTakes(from: Phase, checks: seq<Check>, to: Phase)
    requires ValidateAllowedFrom(from) && to == SelectValidatePhase(AggregateChecks(checks), true)
    requires from == RolledBack ==> to == ValidatedPass
    ensures exists c, i :: Takes(HostIn(from), c, i, from, to)
  {
    assert Takes(HostIn(from), DoValidate(ValidateIn(true, true, checks, true, true)), 0, from, to);
  }

  // Checks that lead to each of the three outcomes.
  function ChecksFor(to: Phase): seq<Check> {
    if to == ValidatedPass then [Check("a", true)]
    else if to == ValidatedPartial then [Check("a", true), Check("b", false)] else []
  }

  lemma ChecksLeadTo(to: Phase)
    requires to == ValidatedPass || to == ValidatedPartial || to == ValidatedFail
    ensures SelectValidatePhase(AggregateChecks(ChecksFor(to)), true) == to
  {
    var good, bad := Check("a", true), Check("b", false);
    assert [good, bad][0] == good && [good, bad][1] == bad;
    AggregateMeans(ChecksFor(to), true);
  }

  // No edge is idle: some command, on a sound host, writes it.
  lemma EdgeIsTaken(from: Phase, to: Phase)
    requires Edge(from, to)
    ensures exists h, c, i :: Inv(h) && Takes(h, c, i, from, to)
  {
    HostInIsSound(from);
    HostInIsSound(Prepared);
    match to
    case Prepared => PrepareTakes(from);
    case RolledBack => RollbackTakes(from, true);
    case RollbackFailed => RollbackTakes(from, false);
    case Committed => CommitTakes(from);
    case Executing => ExecuteTakes(Finished);
    case Executed => ExecuteTakes(Finished);
    case ExecuteFailed => ExecuteTakes(Broke);
    case ExecuteHung => ExecuteTakes(Hung);
    case _ =>
      ChecksLeadTo(to);
      ValidateTakes(from, ChecksFor(to), to);
  }

  // The transitions the code writes and the table allowedTransitions differ in
  // exactly six pairs: five the code writes though the table omits them, and one
  // the table lists though no command takes it.
  lemma TableAgainstCode(from: Phase, to: Phase)
    ensures Edge(from, to) && !CanTransition(from, to) <==>
              (from, to) in {(Prepared, RolledBack), (Prepared, RollbackFailed), (Executed, RolledBack),
                             (Executed, RollbackFailed), (RolledBack, ValidatedPass)}
    ensures CanTransition(from, to) && !Edge(from, to) <==> (from, to) == (ValidatedPartial, Committed)
  {
  }

  // Every write in every history is one of the edges.
  lemma WritesAreEdges(snaps: set<string>, attempts: seq<Attempt>, i: nat)
    requires forall a :: a in attempts ==> StateReadable(a.command)
    requires i < |History(Host(None, snaps), attempts)| && History(Host(None, snaps), attempts)[i].Saved?
    ensures var log := History(Host(None, snaps), attempts);
            Edge(Load(Replay(Host(None, snaps), log[..i])).phase, log[i].rec.phase)
  {
    HistoryOk(Host(None, snaps), attempts);
    EffectAt(Host(None, snaps), History(Host(None, snaps), attempts), i);
  }
}
