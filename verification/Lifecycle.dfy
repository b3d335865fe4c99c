/**
 The upgrade lifecycle: what each command does to the persisted phase and to the
 VM's snapshots, one external effect at a time.

 A command is the list of effects it performs, so a crash leaves a prefix of
 that list. Every external call has an outcome the environment chooses, and a
 call that reports failure may still have taken effect.
 */
module Lifecycle {
  import opened Common
  import opened Text
  import opened Listing

  datatype Phase =
    | Empty
    | Prepared
    | Executing
    | Executed
    | ExecuteFailed
    | ExecuteHung
    | ValidatedPass
    | ValidatedPartial
    | ValidatedFail
    | RolledBack
    | RollbackFailed
    | Committed

  // state.json; UpdatedAt is left out.
  datatype Record = Record(phase: Phase, snapshot: string, deployId: string, target: string, failing: seq<string>)

  const NO_RECORD := Record(Empty, "", "", "", [])

  // The state file and the snapshots the VM holds.
  datatype Host = Host(file: Option<Record>, snaps: set<string>)

  datatype Check = Check(name: string, pass: bool)

  // Which command wrote the state file.
  datatype Writer = ByPrepare | ByExecute | ByValidate(checks: seq<Check>) | ByRollback | ByCommit

  datatype Effect =
    | Created(name: string)
    | Deleted(name: string)
    | Restored(name: string)
    | Saved(rec: Record, writer: Writer)
    | FileRemoved

  // How a snapshot call ends. FailedLate reports failure after the effect: the
  // wait for a detached qm process bounds the wait, not the operation.
  datatype Call = Works | Fails | FailedLate

  function Apply(h: Host, e: Effect): Host {
    match e
    case Created(name) => h.(snaps := h.snaps + {name})
    case Deleted(name) => h.(snaps := h.snaps - {name})
    case Restored(_) => h
    case Saved(rec, _) => h.(file := Some(rec))
    case FileRemoved => h.(file := None)
  }

  function Replay(h: Host, effects: seq<Effect>): Host
    decreases effects
  {
    if effects == [] then h else Replay(Apply(h, effects[0]), effects[1..])
  }

  // loadStateCtx: a missing file reads as the empty phase.
  function Load(h: Host): Record {
    match h.file case None => NO_RECORD case Some(rec) => rec
  }

  // ---- Which phase may follow which ----

  // allowedTransitions
  predicate CanTransition(from: Phase, to: Phase) {
    match from
    case Empty => to == Prepared
    case Prepared => to == Executing || to == Prepared
    case Executing => to == Executed || to == ExecuteFailed || to == ExecuteHung
    case Executed => to == ValidatedPass || to == ValidatedPartial || to == ValidatedFail
    case ExecuteFailed =>
      to == ValidatedPass || to == ValidatedPartial || to == ValidatedFail || to == RolledBack || to == RollbackFailed
    case ExecuteHung => to == RolledBack || to == RollbackFailed
    case ValidatedPass => to == Committed
    case ValidatedPartial => to == RolledBack || to == RollbackFailed || to == Committed
    case ValidatedFail => to == RolledBack || to == RollbackFailed
    case RolledBack => to == Committed
    case RollbackFailed => false
    case Committed => to == Prepared
  }

  predicate RollbackAllowedFrom(p: Phase) {
    p == Executed || p == ExecuteFailed || p == ExecuteHung || p == ValidatedFail || p == ValidatedPartial || p == Prepared
  }

  predicate CommitAllowedFrom(p: Phase) {
    p == ValidatedPass || p == RolledBack
  }

  predicate ValidateAllowedFrom(p: Phase) {
    p == Executed || p == ExecuteFailed || p == RolledBack
  }

  // What a phase function returns beside its effects.
  datatype Failure = NoFailure | Refused | Other

  datatype Outcome = Outcome(effects: seq<Effect>, state: Record, failure: Failure)

  function Calling(c: Call, e: Effect): seq<Effect> {
    if c.Fails? then [] else [e]
  }

  function Saving(ok: bool, rec: Record, writer: Writer): seq<Effect> {
    if ok then [Saved(rec, writer)] else []
  }

  // ---- Prepare ----

  // `ready`: the options are valid, the dependency is there, the state file can
  // be read. `captured`: the deploy directory and the artefacts were written.
  datatype PrepareIn = PrepareIn(ready: bool, now: int, deployId: string, target: string, captured: bool,
                                 snapshot: Call, metadata: bool, saved: bool)

  function PreparedRecord(x: PrepareIn): Record {
    Record(Prepared, SnapshotName(x.now), x.deployId, x.target, [])
  }

  function Prepare(h: Host, x: PrepareIn): Outcome {
    var cur := Load(h);
    if !x.ready then Outcome([], NO_RECORD, Other)
    else if !CanTransition(cur.phase, Prepared) then Outcome([], cur, Refused)
    else if !x.captured then Outcome([], NO_RECORD, Other)
    else
      var made := Calling(x.snapshot, Created(SnapshotName(x.now)));
      if !x.snapshot.Works? || !x.metadata || !x.saved then Outcome(made, NO_RECORD, Other)
      else Outcome(made + [Saved(PreparedRecord(x), ByPrepare)], PreparedRecord(x), NoFailure)
  }

  // ---- Execute ----

  // How the guest side of the run ended: firmwareChange reached finish (also for
  // a dry run), failed, or ran into the watchdog.
  datatype GuestRun = Finished | Broke | Hung

  datatype ExecuteIn = ExecuteIn(ready: bool, savedStart: bool, run: GuestRun, savedEnd: bool)

  function RunPhase(run: GuestRun): Phase {
    match run case Finished => Executed case Broke => ExecuteFailed case Hung => ExecuteHung
  }

  function Execute(h: Host, x: ExecuteIn): Outcome {
    var cur := Load(h);
    if !x.ready then Outcome([], NO_RECORD, Other)
    else if !CanTransition(cur.phase, Executing) then Outcome([], cur, Refused)
    else if !x.savedStart then Outcome([], NO_RECORD, Other)
    else
      var end := cur.(phase := RunPhase(x.run));
      Outcome([Saved(cur.(phase := Executing), ByExecute)] + Saving(x.savedEnd, end, ByExecute),
              if x.run.Finished? && !x.savedEnd then NO_RECORD else end,
              if x.run.Finished? && x.savedEnd then NoFailure else Other)
  }

  // ---- Validate ----

  datatype ValidateIn = ValidateIn(ready: bool, answered: bool, checks: seq<Check>, acceptPartial: bool, saved: bool)

  datatype Aggregate = Aggregate(allPass: bool, anyFail: bool, partial: bool)

  function Passes(checks: seq<Check>): nat
    decreases checks
  {
    if checks == [] then 0 else (if checks[0].pass then 1 else 0) + Passes(checks[1..])
  }

  function AggregateChecks(checks: seq<Check>): Aggregate {
    var pass, fail: int := Passes(checks), |checks| - Passes(checks);
    if checks == [] then Aggregate(false, false, false)
    else Aggregate(fail == 0, fail > 0, pass > 0 && fail > 0)
  }

  function SelectValidatePhase(a: Aggregate, acceptPartial: bool): Phase {
    if a.allPass then ValidatedPass else if a.partial && acceptPartial then ValidatedPartial else ValidatedFail
  }

  function FailingNames(checks: seq<Check>): seq<string>
    decreases checks
  {
    if checks == [] then []
    else (if checks[0].pass then [] else [checks[0].name]) + FailingNames(checks[1..])
  }

  function Validate(h: Host, x: ValidateIn): Outcome {
    var cur := Load(h);
    if !x.ready then Outcome([], NO_RECORD, Other)
    else if !ValidateAllowedFrom(cur.phase) then Outcome([], cur, Refused)
    else if !x.answered then Outcome([], cur, Other)
    else
      var target := SelectValidatePhase(AggregateChecks(x.checks), x.acceptPartial);
      if cur.phase == RolledBack && target != ValidatedPass then Outcome([], cur, Other)
      else
        var next := cur.(phase := target, failing := FailingNames(x.checks));
        Outcome(Saving(x.saved, next, ByValidate(x.checks)), next, if x.saved then NoFailure else Other)
  }

  // ---- Rollback ----

  // `listing` is None when listing the snapshots fails; `dels` answers the k-th
  // delete; `guestAnswers` is the liveness wait, true when there is no executor.
  datatype RollbackIn = RollbackIn(ready: bool, snapshot: string, listing: Option<string>, dels: nat -> Call,
                                   restore: Call, running: bool, starts: bool, guestAnswers: bool, saved: bool)

  function Target(snapshot: string, cur: Record): string {
    if snapshot == "" then cur.snapshot else snapshot
  }

  // Newest first; a child that cannot be deleted is only logged.
  function DeleteBackward(names: seq<string>, dels: nat -> Call, k: nat): seq<Effect>
    decreases names
  {
    if names == [] then []
    else Calling(dels(k), Deleted(names[|names| - 1])) + DeleteBackward(names[..|names| - 1], dels, k + 1)
  }

  function Rollback(h: Host, x: RollbackIn): Outcome {
    var cur := Load(h);
    var target := Target(x.snapshot, cur);
    if !x.ready then Outcome([], NO_RECORD, Other)
    else if !RollbackAllowedFrom(cur.phase) then Outcome([], cur, Refused)
    else if target == "" || x.listing.None? then Outcome([], cur, Other)
    else
      var cleared := DeleteBackward(SnapshotsAfter(x.listing.value, target), x.dels, 0);
      var failed := cur.(phase := RollbackFailed);
      var restored := cleared + Calling(x.restore, Restored(target));
      if !x.restore.Works? then Outcome(restored + Saving(x.saved, failed, ByRollback), failed, Other)
      else if !x.running && !x.starts then Outcome(restored + Saving(x.saved, failed, ByRollback), cur, Other)
      else if !x.guestAnswers then Outcome(restored + Saving(x.saved, failed, ByRollback), failed, Other)
      else
        var back := cur.(phase := RolledBack);
        Outcome(restored + Saving(x.saved, back, ByRollback), back, if x.saved then NoFailure else Other)
  }

  // ---- Commit ----

  datatype CommitIn = CommitIn(ready: bool, snapshot: string, keep: bool, del: Call, saved: bool)

  function Commit(h: Host, x: CommitIn): Outcome {
    var cur := Load(h);
    var target := Target(x.snapshot, cur);
    if !x.ready then Outcome([], NO_RECORD, Other)
    else if cur.phase == Committed then Outcome([], cur, NoFailure)
    else if !CommitAllowedFrom(cur.phase) then Outcome([], cur, Refused)
    else
      var deletes := !x.keep && target != "";
      var released := if deletes then Calling(x.del, Deleted(target)) else [];
      if deletes && !x.del.Works? then Outcome(released, cur, Other)
      else
        var done := cur.(phase := Committed);
        Outcome(released + Saving(x.saved, done, ByCommit), done, if x.saved then NoFailure else Other)
  }

  // ---- GC ----

  // `readable`: state.json could be loaded; the sweep goes on without it. Times
  // are in nanoseconds.
  datatype GCIn = GCIn(ready: bool, readable: bool, now: int, olderThan: int, listing: Option<string>, dels: nat -> Call, dryRun: bool)

  const SECOND: int := 1_000_000_000
  const DEFAULT_GC_THRESHOLD: int := 7 * 24 * 3600 * SECOND

  function ActiveSnapshot(h: Host, readable: bool): string {
    var cur := Load(h);
    if !readable || cur.phase == Empty || cur.phase == Committed || cur.phase == RollbackFailed then "" else cur.snapshot
  }

  function Threshold(x: GCIn): int {
    if x.olderThan <= 0 then DEFAULT_GC_THRESHOLD else x.olderThan
  }

  // time.Time.Sub saturates at the ends of int64.
  function Age(x: GCIn, unix: int): int {
    var d := x.now - unix * SECOND;
    if d >= INT64_LIMIT then INT64_LIMIT - 1 else if d < -INT64_LIMIT then -INT64_LIMIT else d
  }

  datatype Verdict = Ignored | Kept | Swept(call: Call) | WouldSweep

  // What gc decides for the k-th entry of the listing.
  function Judge(name: string, active: string, x: GCIn, k: nat): Verdict {
    if !IsUpgradeSnapshot(name) then Ignored
    else if active != "" && name == active then Kept
    else match TimestampOf(name)
         case None => Ignored
         case Some(unix) =>
           if Age(x, unix) < Threshold(x) then Kept else if x.dryRun then WouldSweep else Swept(x.dels(k))
  }

  datatype GCReport = GCReport(effects: seq<Effect>, deleted: seq<string>, skipped: seq<string>)

  function GCStep(r: GCReport, name: string, v: Verdict): GCReport {
    match v
    case Ignored => r
    case Kept => r.(skipped := r.skipped + [name])
    case WouldSweep => r.(deleted := r.deleted + [name])
    case Swept(call) =>
      var after := r.(effects := r.effects + Calling(call, Deleted(name)));
      if call.Works? then after.(deleted := r.deleted + [name]) else after.(skipped := r.skipped + [name])
  }

  function Sweep(names: seq<string>, active: string, x: GCIn): GCReport {
    if names == [] then GCReport([], [], [])
    else
      var k := |names| - 1;
      GCStep(Sweep(names[..k], active, x), names[k], Judge(names[k], active, x, k))
  }

  function GC(h: Host, x: GCIn): GCReport {
    if !x.ready || x.listing.None? then GCReport([], [], [])
    else Sweep(ParseSnapshotNames(x.listing.value), ActiveSnapshot(h, x.readable), x)
  }

  // ---- Reset ----

  // `apply` is reset_confirm. The plan and its execution are one command here.
  datatype ResetIn = ResetIn(ready: bool, listing: Option<string>, apply: bool, dels: nat -> Call, restore: Call, removes: bool)

  datatype Plan = Plan(toDelete: seq<string>, rollbackTarget: string, removesState: bool, nothingToDo: bool)

  function UpgradeNames(names: seq<string>, except: string): seq<string>
    decreases names
  {
    if names == [] then []
    else (if IsUpgradeSnapshot(names[0]) && names[0] != except then [names[0]] else []) + UpgradeNames(names[1..], except)
  }

  function RollbackTarget(h: Host): string {
    if h.file.Some? && h.file.value.phase != Committed then h.file.value.snapshot else ""
  }

  // None when reset refuses: the recorded baseline is not in the listing.
  function ResetPlan(h: Host, text: string): Option<Plan> {
    var names := ParseSnapshotNames(text);
    var target := RollbackTarget(h);
    if target != "" && target !in names then None
    else
      var toDelete := Sorted(UpgradeNames(names, target));
      Some(Plan(toDelete, target, h.file.Some?,
                toDelete == [] && target == "" && (h.file.None? || h.file.value.phase == Committed)))
  }

  // Deletes in order and stops at the first failure.
  function DeleteForward(names: seq<string>, dels: nat -> Call, k: nat): (seq<Effect>, bool)
    decreases names
  {
    if names == [] then ([], true)
    else
      var first := Calling(dels(k), Deleted(names[0]));
      if !dels(k).Works? then (first, false)
      else var rest := DeleteForward(names[1..], dels, k + 1); (first + rest.0, rest.1)
  }

  function ResetExecute(p: Plan, x: ResetIn): seq<Effect> {
    if p.nothingToDo then []
    else
      var deleting := DeleteForward(p.toDelete, x.dels, 0);
      if !deleting.1 then deleting.0
      else
        var restoring := if p.rollbackTarget == "" then [] else Calling(x.restore, Restored(p.rollbackTarget));
        if p.rollbackTarget != "" && !x.restore.Works? then deleting.0 + restoring
        else (deleting.0 + restoring) + if p.removesState && x.removes then [FileRemoved] else []
  }

  function Reset(h: Host, x: ResetIn): seq<Effect> {
    if !x.ready || x.listing.None? || !x.apply then []
    else match ResetPlan(h, x.listing.value)
         case None => []
         case Some(p) => ResetExecute(p, x)
  }

  // ---- Run, the unattended pipeline ----

  // `reloaded` and `peeked` are the two extra reads of state.json.
  datatype RunIn = RunIn(prepare: PrepareIn, reloaded: bool, execute: ExecuteIn, peeked: bool,
                         validate: ValidateIn, rollback: RollbackIn)

  datatype RunOutcome = RunOutcome(effects: seq<Effect>, state: Record, autoRollback: bool, failed: bool)

  // The part of Run after execute.
  function Settle(h: Host, x: RunIn): RunOutcome {
    if x.peeked && Load(h).phase == ExecuteHung then
      var rb := Rollback(h, x.rollback);
      RunOutcome(rb.effects, rb.state, true, !rb.failure.NoFailure?)
    else
      var v := Validate(h, x.validate);
      if v.failure.Other? then RunOutcome(v.effects, v.state, false, true)
      else match v.state.phase
           case ValidatedPass => RunOutcome(v.effects, v.state, false, false)
           case ValidatedPartial => RunOutcome(v.effects, v.state, false, false)
           case ValidatedFail =>
             var rb := Rollback(Replay(h, v.effects), x.rollback);
             RunOutcome(v.effects + rb.effects, rb.state, true, !rb.failure.NoFailure?)
           case _ => RunOutcome(v.effects, v.state, false, true)
  }

  function Run(h: Host, x: RunIn): RunOutcome {
    var p := Prepare(h, x.prepare);
    if !p.failure.NoFailure? || !x.reloaded then RunOutcome(p.effects, p.state, false, true)
    else
      var prepared := Replay(h, p.effects);
      var e := Execute(prepared, x.execute);
      var end := Settle(Replay(prepared, e.effects), x);
      end.(effects := p.effects + (e.effects + end.effects))
  }

  // ---- Whole histories ----

  datatype Command =
    | DoPrepare(prepare: PrepareIn)
    | DoExecute(execute: ExecuteIn)
    | DoValidate(validate: ValidateIn)
    | DoRollback(rollback: RollbackIn)
    | DoCommit(commit: CommitIn)
    | DoGC(gc: GCIn)
    | DoReset(reset: ResetIn)
    | DoRun(run: RunIn)

  function Effects(h: Host, c: Command): seq<Effect> {
    match c
    case DoPrepare(x) => Prepare(h, x).effects
    case DoExecute(x) => Execute(h, x).effects
    case DoValidate(x) => Validate(h, x).effects
    case DoRollback(x) => Rollback(h, x).effects
    case DoCommit(x) => Commit(h, x).effects
    case DoGC(x) => GC(h, x).effects
    case DoReset(x) => Reset(h, x)
    case DoRun(x) => Run(h, x).effects
  }

  // A command, cut short by a crash after `cut` effects if it performs more.
  datatype Attempt = Attempt(command: Command, cut: nat)

  function Performed(h: Host, a: Attempt): seq<Effect> {
    var all := Effects(h, a.command);
    all[..Min(a.cut, |all|)]
  }

  // Everything that happened, one command at a time.
  function History(h: Host, attempts: seq<Attempt>): seq<Effect>
    decreases attempts
  {
    if attempts == [] then []
    else var first := Performed(h, attempts[0]); first + History(Replay(h, first), attempts[1..])
  }
}
