/**
 The unattended pipeline, from its inputs: exactly when it rolls back, exactly when
 it reports no error, and what it leaves.
 */
module LifecycleRun {
  import opened Common
  import opened Text
  import opened Listing
  import opened Lifecycle
  import opened LifecycleProofs

  // The phase execute leaves when it begins from prepared.
  function AfterExecute(x: ExecuteIn): Phase {
    if !x.ready || !x.savedStart then Prepared
    else if !x.savedEnd then Executing
    else match x.run case Finished => Executed case Broke => ExecuteFailed case Hung => ExecuteHung
  }

  predicate SomePass(checks: seq<Check>) {
    (exists c :: c in checks && c.pass) && exists c :: c in checks && !c.pass
  }

  // Validate gets to save a result.
  predicate Validates(x: RunIn) {
    && (AfterExecute(x.execute) == Executed || AfterExecute(x.execute) == ExecuteFailed)
    && x.validate.ready && x.validate.answered && x.validate.saved
  }

  // All checks pass, or some do and that is accepted.
  predicate Accepted(x: RunIn) {
    AllPass(x.validate.checks) || (x.validate.acceptPartial && SomePass(x.validate.checks))
  }

  // The watchdog ended execute, or validation failed.
  predicate MustRollBack(x: RunIn) {
    (x.peeked && AfterExecute(x.execute) == ExecuteHung) || (Validates(x) && !Accepted(x))
  }

  predicate RollbackGoes(x: RollbackIn) {
    x.ready && x.listing.Some?
  }

  function RollbackTo(x: RunIn): string {
    if x.rollback.snapshot == "" then SnapshotName(x.prepare.now) else x.rollback.snapshot
  }

  // The phase at the end.
  function EndPhase(x: RunIn): Phase {
    if MustRollBack(x) then
      if RollbackGoes(x.rollback) && x.rollback.saved then (if GuestReturns(x.rollback) then RolledBack else RollbackFailed)
      else if Validates(x) then ValidatedFail else ExecuteHung
    else if Validates(x) then (if AllPass(x.validate.checks) then ValidatedPass else ValidatedPartial)
    else AfterExecute(x.execute)
  }

  lemma NameIsNotEmpty(unix: int)
    ensures SnapshotName(unix) != ""
  {
  }

  // What validate writes from the checks.
  lemma ValidateIsExact(h: Host, x: ValidateIn)
    ensures var v := Validate(h, x);
            && (v.effects != [] <==>
                  && x.ready && ValidateAllowedFrom(Load(h).phase) && x.answered && x.saved
                  && (Load(h).phase == RolledBack ==> AllPass(x.checks)))
            && (v.effects != [] ==>
                  && v.effects == [Saved(v.state, ByValidate(x.checks))] && v.failure.NoFailure?
                  && v.state == Load(h).(phase := if AllPass(x.checks) then ValidatedPass
                                                  else if x.acceptPartial && SomePass(x.checks) then ValidatedPartial
                                                  else ValidatedFail,
                                         failing := v.state.failing)
                  && |v.state.failing| + Passes(x.checks) == |x.checks|
                  && forall n :: n in v.state.failing <==> Check(n, false) in x.checks)
            && (v.effects == [] ==> !v.failure.NoFailure?)
            && (v.failure.Refused? ==> v.state == Load(h) && !ValidateAllowedFrom(Load(h).phase))
  {
    AggregateMeans(x.checks, x.acceptPartial);
    FailingNamesMean(x.checks);
    PassesMeans(x.checks);
  }

  // The rollback Run asks for, from a phase that allows it.
  lemma RollbackInRun(h: Host, x: RunIn)
    requires Inv(h) && RollbackAllowedFrom(Load(h).phase) && Load(h).snapshot == SnapshotName(x.prepare.now)
    ensures var rb := Rollback(h, x.rollback);
            && (rb.failure.NoFailure? <==> RollbackGoes(x.rollback) && GuestReturns(x.rollback) && x.rollback.saved)
            && Load(Replay(h, rb.effects))
               == (if RollbackGoes(x.rollback) && x.rollback.saved
                   then Load(h).(phase := if GuestReturns(x.rollback) then RolledBack else RollbackFailed) else Load(h))
            && (Restored(RollbackTo(x)) in rb.effects <==> RollbackGoes(x.rollback) && !x.rollback.restore.Fails?)
  {
    NameIsNotEmpty(x.prepare.now);
    var target := Target(x.rollback.snapshot, Load(h));
    assert target == RollbackTo(x) && target != "";
    if RollbackGoes(x.rollback) {
      RollbackEndsIn(h, x.rollback);
      RestoresTarget(h, x.rollback, target);
    }
  }

  lemma RestoresTarget(h: Host, x: RollbackIn, target: string)
    requires Inv(h) && RollbackStarts(h, x) && target == Target(x.snapshot, Load(h))
    ensures Restored(target) in Rollback(h, x).effects <==> !x.restore.Fails?
  {
    RollbackSpares(h, x, target);
    var cleared := DeleteBackward(SnapshotsAfter(x.listing.value, target), x.dels, 0);
    var phase := if GuestReturns(x) then RolledBack else RollbackFailed;
    var save := Saving(x.saved, Load(h).(phase := phase), ByRollback);
    assert Rollback(h, x).effects == (cleared + Calling(x.restore, Restored(target))) + save;
    if !x.restore.Fails? {
      assert Calling(x.restore, Restored(target))[0] == Restored(target);
      assert (cleared + Calling(x.restore, Restored(target)))[|cleared|] == Restored(target);
      assert Rollback(h, x).effects[|cleared|] == Restored(target);
    }
  }

  // What an outcome and the phase it leaves have to say about the inputs.
  predicate Exact(x: RunIn, r: RunOutcome, left: Phase) {
    && (r.autoRollback <==> MustRollBack(x))
    && (!r.failed <==> if MustRollBack(x) then RollbackGoes(x.rollback) && GuestReturns(x.rollback) && x.rollback.saved
                       else Validates(x))
    && left == EndPhase(x)
    && (Restored(RollbackTo(x)) in r.effects <==>
          MustRollBack(x) && RollbackGoes(x.rollback) && !x.rollback.restore.Fails?)
  }

  lemma SettleHung(h: Host, x: RunIn)
    requires Inv(h) && Load(h).phase == AfterExecute(x.execute) == ExecuteHung && x.peeked
    requires Load(h).snapshot == SnapshotName(x.prepare.now)
    ensures Exact(x, Settle(h, x), Load(Replay(h, Settle(h, x).effects)).phase)
  {
    RollbackInRun(h, x);
  }

  lemma SettleFailed(h: Host, x: RunIn)
    requires Inv(h) && Load(h).phase == AfterExecute(x.execute) && Load(h).snapshot == SnapshotName(x.prepare.now)
    requires Validates(x) && !Accepted(x)
    ensures Exact(x, Settle(h, x), Load(Replay(h, Settle(h, x).effects)).phase)
  {
    var v := Validate(h, x.validate);
    ValidateIsExact(h, x.validate);
    ValidateOk(h, x.validate);
    ReplayOne(h, v.effects[0]);
    var validated := Replay(h, v.effects);
    InvKept(h, v.effects);
    RollbackInRun(validated, x);
    ReplayConcat(h, v.effects, Rollback(validated, x.rollback).effects);
    assert v.effects[0].Saved?;
  }

  // The part of Run after execute.
  lemma SettleIsExact(h: Host, x: RunIn)
    requires Inv(h) && Load(h).phase == AfterExecute(x.execute) && Load(h).snapshot == SnapshotName(x.prepare.now)
    ensures Exact(x, Settle(h, x), Load(Replay(h, Settle(h, x).effects)).phase)
  {
    if x.peeked && Load(h).phase == ExecuteHung {
      SettleHung(h, x);
    } else if Validates(x) && !Accepted(x) {
      SettleFailed(h, x);
    } else {
      var v := Validate(h, x.validate);
      ValidateIsExact(h, x.validate);
      if v.effects != [] {
        ReplayOne(h, v.effects[0]);
      }
    }
  }

  // A run whose prepare works and whose state reads back: it rolls back, to the
  // baseline it made unless told otherwise, exactly when the watchdog ended
  // execute or validation saved a failure. It reports no error exactly when that
  // rollback goes through, or, without one, when validation saved a pass or an
  // accepted partial pass. The phase it leaves follows from the same.
  lemma RunIsExact(h: Host, x: RunIn)
    requires Inv(h) && Prepare(h, x.prepare).failure.NoFailure? && x.reloaded
    ensures Exact(x, Run(h, x), Load(Replay(h, Run(h, x).effects)).phase)
  {
    var p := Prepare(h, x.prepare);
    PrepareOk(h, x.prepare);
    InvKept(h, p.effects);
    var prepared := Replay(h, p.effects);
    var e := Execute(prepared, x.execute);
    ExecuteFrom(prepared, x.execute);
    var executed := Replay(prepared, e.effects);
    SettleIsExact(executed, x);
    var end := Settle(executed, x);
    ReplayConcat(h, p.effects, e.effects + end.effects);
    ReplayConcat(prepared, e.effects, end.effects);
  }

  lemma ExecuteFrom(h: Host, x: ExecuteIn)
    requires Inv(h) && Load(h).phase == Prepared
    ensures var after := Replay(h, Execute(h, x).effects);
            && Inv(after) && Load(after) == Load(h).(phase := AfterExecute(x))
            && forall e :: e in Execute(h, x).effects ==> e.Saved?
  {
    ExecuteOk(h, x);
    InvKept(h, Execute(h, x).effects);
  }

  // Without a prepared cycle that reads back, Run stops after prepare.
  lemma RunStops(h: Host, x: RunIn)
    requires !(Prepare(h, x.prepare).failure.NoFailure? && x.reloaded)
    ensures Run(h, x).failed && !Run(h, x).autoRollback && Run(h, x).effects == Prepare(h, x.prepare).effects
  {
  }
}
