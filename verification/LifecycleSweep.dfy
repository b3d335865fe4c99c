/**
 What gc and reset delete, exactly: gc the stale upgrade snapshots and nothing
 else, reset the orphans, and the state file only after everything before it.
 */
module LifecycleSweep {
  import opened Common
  import opened Text
  import opened Listing
  import opened Lifecycle
  import opened LifecycleProofs

  // ---- GC ----

  // Old enough to go, and not the active deploy's.
  predicate Stale(name: string, active: string, x: GCIn) {
    && IsUpgradeSnapshot(name)
    && name != active
    && x.now - TimestampOf(name).value * SECOND >= Threshold(x)
  }

  predicate DeletedAt(names: seq<string>, name: string, active: string, x: GCIn, k: nat) {
    k < |names| && names[k] == name && Stale(name, active, x) && !x.dryRun && !x.dels(k).Fails?
  }

  predicate ReportedAt(names: seq<string>, name: string, active: string, x: GCIn, k: nat) {
    k < |names| && names[k] == name && Stale(name, active, x) && (x.dryRun || x.dels(k).Works?)
  }

  ghost predicate Deletes(names: seq<string>, name: string, active: string, x: GCIn) {
    exists k: nat :: DeletedAt(names, name, active, x, k)
  }

  ghost predicate Reports(names: seq<string>, name: string, active: string, x: GCIn) {
    exists k: nat :: ReportedAt(names, name, active, x, k)
  }

  lemma JudgeMeans(name: string, active: string, x: GCIn, k: nat)
    requires IsInt64(x.olderThan)
    ensures Judge(name, active, x, k) ==
            if !IsUpgradeSnapshot(name) then Ignored
            else if !Stale(name, active, x) then Kept
            else if x.dryRun then WouldSweep else Swept(x.dels(k))
  {
    if IsUpgradeSnapshot(name) {
      assert name != "";
      assert TimestampOf(name).Some?;
    }
  }

  // What one entry adds to the report.
  lemma StepAdds(r: GCReport, name: string, v: Verdict)
    ensures var s := GCStep(r, name, v);
            forall n ::
              && (Deleted(n) in s.effects <==> Deleted(n) in r.effects || (n == name && v.Swept? && !v.call.Fails?))
              && (n in s.deleted <==> n in r.deleted || (n == name && (v.WouldSweep? || (v.Swept? && v.call.Works?))))
    ensures forall e :: e in GCStep(r, name, v).effects ==> e in r.effects || (e == Deleted(name) && v.Swept?)
  {
  }

  lemma StepCounts(r: GCReport, name: string, v: Verdict, n: string)
    ensures var s := GCStep(r, name, v);
            multiset(s.deleted)[n] + multiset(s.skipped)[n]
            == multiset(r.deleted)[n] + multiset(r.skipped)[n] + if n == name && !v.Ignored? then 1 else 0
  {
  }

  lemma LastEntry(names: seq<string>, name: string, active: string, x: GCIn)
    requires names != []
    ensures var k := |names| - 1;
            && (Deletes(names, name, active, x) <==> Deletes(names[..k], name, active, x) || DeletedAt(names, name, active, x, k))
            && (Reports(names, name, active, x) <==> Reports(names[..k], name, active, x) || ReportedAt(names, name, active, x, k))
  {
    var k := |names| - 1;
    assert forall j: nat :: j != k ==> (DeletedAt(names, name, active, x, j) <==> DeletedAt(names[..k], name, active, x, j));
    assert forall j: nat :: j != k ==> (ReportedAt(names, name, active, x, j) <==> ReportedAt(names[..k], name, active, x, j));
    assert !DeletedAt(names[..k], name, active, x, k) && !ReportedAt(names[..k], name, active, x, k);
  }

  lemma {:induction false} SweepIsExact(names: seq<string>, active: string, x: GCIn)
    requires IsInt64(x.olderThan)
    ensures forall name ::
              && (Deleted(name) in Sweep(names, active, x).effects <==> Deletes(names, name, active, x))
              && (name in Sweep(names, active, x).deleted <==> Reports(names, name, active, x))
    ensures forall e :: e in Sweep(names, active, x).effects ==> e.Deleted? && !x.dryRun
    decreases |names|
  {
    if names != [] {
      var k := |names| - 1;
      SweepIsExact(names[..k], active, x);
      JudgeMeans(names[k], active, x, k);
      StepAdds(Sweep(names[..k], active, x), names[k], Judge(names[k], active, x, k));
      forall name
        ensures (Deleted(name) in Sweep(names, active, x).effects <==> Deletes(names, name, active, x))
             && (name in Sweep(names, active, x).deleted <==> Reports(names, name, active, x))
      {
        LastEntry(names, name, active, x);
      }
    }
  }

  // Every upgrade-named entry is in Deleted or in Skipped as often as it is
  // listed, counting both, and no other name is in either.
  lemma {:induction false} SweepPartitions(names: seq<string>, active: string, x: GCIn)
    ensures var r := Sweep(names, active, x);
            forall name :: multiset(r.deleted)[name] + multiset(r.skipped)[name]
                        == if IsUpgradeSnapshot(name) then multiset(names)[name] else 0
    decreases |names|
  {
    if names != [] {
      var k := |names| - 1;
      SweepPartitions(names[..k], active, x);
      assert names == names[..k] + [names[k]];
      forall name
        ensures var r := Sweep(names, active, x);
                multiset(r.deleted)[name] + multiset(r.skipped)[name]
                == if IsUpgradeSnapshot(name) then multiset(names)[name] else 0
      {
        StepCounts(Sweep(names[..k], active, x), names[k], Judge(names[k], active, x, k), name);
      }
    }
  }

  // What gc reports and does: deletions are attempted on the stale entries and
  // no others, none in a dry run, and the report splits the upgrade snapshots.
  lemma GCIsExact(h: Host, x: GCIn)
    requires IsInt64(x.olderThan) && x.ready && x.listing.Some?
    ensures var names, active, r := ParseSnapshotNames(x.listing.value), ActiveSnapshot(h, x.readable), GC(h, x);
            forall name ::
              && (Deleted(name) in r.effects <==> Deletes(names, name, active, x))
              && (name in r.deleted <==> Reports(names, name, active, x))
              && multiset(r.deleted)[name] + multiset(r.skipped)[name]
                 == if IsUpgradeSnapshot(name) then multiset(names)[name] else 0
    ensures x.dryRun ==> GC(h, x).effects == []
  {
    var names, active := ParseSnapshotNames(x.listing.value), ActiveSnapshot(h, x.readable);
    SweepIsExact(names, active, x);
    SweepPartitions(names, active, x);
    assert GC(h, x).effects != [] ==> GC(h, x).effects[0] in GC(h, x).effects;
  }

  // gc goes on when state.json cannot be read. It deletes a baseline that is
  // still pending in that case, when the baseline is listed and old enough, and
  // in no other.
  lemma UnreadableStateLosesBaseline(h: Host, x: GCIn)
    requires IsInt64(x.olderThan) && Pending(Load(h).phase)
    ensures Deleted(Load(h).snapshot) in GC(h, x).effects <==>
            && x.ready && !x.readable && x.listing.Some?
            && Deletes(ParseSnapshotNames(x.listing.value), Load(h).snapshot, "", x)
  {
    if x.ready && x.listing.Some? {
      GCIsExact(h, x);
    }
  }

  // A listing of one snapshot.
  const ONE_ROW := Render([Row("", SnapshotName(0), "")])

  lemma NameAtZero()
    ensures SnapshotName(0) == "pre-upgrade-26x-0"
  {
    assert FormatInt(0) == "0";
  }

  lemma ZeroRowIsLegal()
    ensures LegalRow(Row("", SnapshotName(0), "")) && SnapshotName(0) != "current"
  {
    NameAtZero();
    var name := SnapshotName(0);
    assert forall c :: c in name ==> 'a' <= c <= 'z' || c == '-' || '0' <= c <= '9';
    assert name[0] == 'p';
  }

  lemma OneRowIsListed()
    ensures ParseSnapshotNames(ONE_ROW) == [SnapshotName(0)]
  {
    var rows := [Row("", SnapshotName(0), "")];
    ZeroRowIsLegal();
    ParseOfRender(rows);
    assert rows[1..] == [];
  }

  // gc a week after 1970, unable to read state.json.
  function WeekLater(): GCIn {
    GCIn(true, false, DEFAULT_GC_THRESHOLD, 0, Some(ONE_ROW), _ => Works, false)
  }

  // A host prepared at time 0, its baseline listed and a week old: an unreadable
  // state.json costs it the baseline its rollback needs.
  lemma WeekOldBaselineIsLost()
    ensures Inv(HostIn(Prepared)) && RollbackAllowedFrom(Load(HostIn(Prepared)).phase)
    ensures Deleted(Load(HostIn(Prepared)).snapshot) in GC(HostIn(Prepared), WeekLater()).effects
  {
    HostInIsSound(Prepared);
    OneRowIsListed();
    TimestampRoundTrip(0);
    assert Stale(SnapshotName(0), "", WeekLater());
    assert DeletedAt([SnapshotName(0)], SnapshotName(0), "", WeekLater(), 0);
    UnreadableStateLosesBaseline(HostIn(Prepared), WeekLater());
  }

  // ---- Rollback's children ----

  // The names from the last to the first, with the call that answers each.
  function Answered(names: seq<string>, dels: nat -> Call, k: nat): seq<(string, Call)> {
    seq(|names|, i requires 0 <= i < |names| => (names[|names| - 1 - i], dels(k + i)))
  }

  // The deletions that were not refused outright.
  function Taken(asked: seq<(string, Call)>): seq<Effect>
    decreases asked
  {
    if asked == [] then []
    else (if asked[0].1.Fails? then [] else [Deleted(asked[0].0)]) + Taken(asked[1..])
  }

  lemma AnsweredFirst(names: seq<string>, dels: nat -> Call, k: nat)
    requires names != []
    ensures var n := |names| - 1;
            Answered(names, dels, k) == [(names[n], dels(k))] + Answered(names[..n], dels, k + 1)
  {
  }

  lemma TakenFirst(name: string, c: Call, rest: seq<(string, Call)>)
    ensures Taken([(name, c)] + rest) == Calling(c, Deleted(name)) + Taken(rest)
  {
    assert ([(name, c)] + rest)[1..] == rest;
  }

  // The snapshots in the way are asked for newest first, each once and whatever
  // became of the others; what happens is that list less the calls that fail.
  lemma {:induction false} NewestFirst(names: seq<string>, dels: nat -> Call, k: nat)
    ensures DeleteBackward(names, dels, k) == Taken(Answered(names, dels, k))
    decreases names
  {
    if names != [] {
      var n := |names| - 1;
      NewestFirst(names[..n], dels, k + 1);
      AnsweredFirst(names, dels, k);
      TakenFirst(names[n], dels(k), Answered(names[..n], dels, k + 1));
    }
  }

  // What a rollback that starts does: the watchdog's snapshots listed below the
  // target are asked for newest first, then the target is restored, as its call
  // ends, and then the record is saved if that works.
  lemma RollbackIsExact(h: Host, x: RollbackIn)
    requires RollbackStarts(h, x)
    ensures var target := if x.snapshot == "" then Load(h).snapshot else x.snapshot;
            var children := Watchdogs(AfterFirst(Entries(Split(x.listing.value)), target));
            var phase := if x.restore.Works? && (x.running || x.starts) && x.guestAnswers then RolledBack else RollbackFailed;
            var save := if x.saved then [Saved(Load(h).(phase := phase), ByRollback)] else [];
            Rollback(h, x).effects
            == Taken(Answered(children, x.dels, 0)) + ((if x.restore.Fails? then [] else [Restored(target)]) + save)
  {
    var target := Target(x.snapshot, Load(h));
    var children := Watchdogs(AfterFirst(Entries(Split(x.listing.value)), target));
    AfterLinesIsFilter(Split(x.listing.value), target, false);
    NewestFirst(children, x.dels, 0);
    var phase := if GuestReturns(x) then RolledBack else RollbackFailed;
    var save := Saving(x.saved, Load(h).(phase := phase), ByRollback);
    var restoring := if x.restore.Fails? then [] else [Restored(target)];
    Associates(Taken(Answered(children, x.dels, 0)), restoring, save);
  }

  lemma {:induction false} TakenDeletes(h: Host, asked: seq<(string, Call)>)
    ensures var after := Replay(h, Taken(asked));
            && (forall n :: n in after.snaps <==>
                  n in h.snaps && forall a :: a in asked && a.0 == n ==> a.1.Fails?)
            && after.file == h.file
    decreases asked
  {
    if asked != [] {
      var rest := asked[1..];
      HeadTail(asked);
      if asked[0].1.Fails? {
        TakenDeletes(h, rest);
        assert Taken(asked) == [] + Taken(rest) == Taken(rest);
      } else {
        var gone := Deleted(asked[0].0);
        TakenDeletes(Apply(h, gone), rest);
        ReplayConcat(h, [gone], Taken(rest));
        ReplayOne(h, gone);
      }
    }
  }

  lemma AnsweredNames(names: seq<string>, dels: nat -> Call, n: string)
    requires forall k: nat :: k < |names| ==> !dels(k).Fails?
    ensures (exists a :: a in Answered(names, dels, 0) && a.0 == n && !a.1.Fails?) <==> n in names
  {
    if n in names {
      var i :| 0 <= i < |names| && names[i] == n;
      var k := |names| - 1 - i;
      assert Answered(names, dels, 0)[k] == (n, dels(k));
    }
  }

  // Where the deletes take effect, no watchdog snapshot listed below the target
  // is on the VM any more when the restore is made; everything else still is.
  lemma ChildrenAreGone(h: Host, x: RollbackIn, n: string)
    requires RollbackStarts(h, x) && x.restore.Works? && forall k: nat :: !x.dels(k).Fails?
    ensures var target := if x.snapshot == "" then Load(h).snapshot else x.snapshot;
            exists i: nat :: i < |Rollback(h, x).effects| && Rollback(h, x).effects[i] == Restored(target)
              && (n in Replay(h, Rollback(h, x).effects[..i]).snaps <==>
                    n in h.snaps && n !in Watchdogs(AfterFirst(Entries(Split(x.listing.value)), target)))
  {
    var target := Target(x.snapshot, Load(h));
    var children := Watchdogs(AfterFirst(Entries(Split(x.listing.value)), target));
    RollbackIsExact(h, x);
    var asked := Answered(children, x.dels, 0);
    var i := |Taken(asked)|;
    assert Rollback(h, x).effects[i] == Restored(target);
    assert Rollback(h, x).effects[..i] == Taken(asked);
    TakenDeletes(h, asked);
    AnsweredNames(children, x.dels, n);
  }

  // ---- Reset ----

  function Deletions(names: seq<string>): seq<Effect> {
    seq(|names|, i requires 0 <= i < |names| => Deleted(names[i]))
  }

  lemma {:induction false} ForwardIsPrefix(names: seq<string>, dels: nat -> Call, k: nat)
    ensures var d := DeleteForward(names, dels, k);
            d.0 <= Deletions(names) && (d.1 ==> d.0 == Deletions(names))
    decreases names
  {
    if names != [] {
      ForwardIsPrefix(names[1..], dels, k + 1);
      assert Deletions(names) == [Deleted(names[0])] + Deletions(names[1..]);
      var rest := DeleteForward(names[1..], dels, k + 1);
      assert ([Deleted(names[0])] + Deletions(names[1..]))[..1 + |rest.0|]
          == [Deleted(names[0])] + Deletions(names[1..])[..|rest.0|];
    }
  }

  // The orphans of a plan, with their multiplicity: every upgrade snapshot the
  // VM lists but the rollback target.
  lemma {:induction false} UpgradeNamesCount(names: seq<string>, except: string)
    ensures forall n :: multiset(UpgradeNames(names, except))[n]
                     == if IsUpgradeSnapshot(n) && n != except then multiset(names)[n] else 0
    decreases names
  {
    if names != [] {
      HeadTail(names);
      assert multiset(names) == multiset([names[0]]) + multiset(names[1..]);
      UpgradeNamesCount(names[1..], except);
    }
  }

  lemma PlanIsExact(h: Host, text: string)
    ensures var names, target := ParseSnapshotNames(text), RollbackTarget(h);
            && (ResetPlan(h, text).None? <==> target != "" && target !in names)
            && (ResetPlan(h, text).Some? ==>
                && InOrder(ResetPlan(h, text).value.toDelete)
                && forall n :: multiset(ResetPlan(h, text).value.toDelete)[n]
                            == if IsUpgradeSnapshot(n) && n != target then multiset(names)[n] else 0)
  {
    SortedOrders(UpgradeNames(ParseSnapshotNames(text), RollbackTarget(h)));
    UpgradeNamesCount(ParseSnapshotNames(text), RollbackTarget(h));
    SortedKeeps(UpgradeNames(ParseSnapshotNames(text), RollbackTarget(h)));
  }

  // Reset works in order and stops at the first failure: whatever it did is a
  // prefix of deleting the orphans, rolling back, removing the state file.
  lemma ResetIsOrdered(h: Host, x: ResetIn)
    requires x.ready && x.apply && x.listing.Some? && ResetPlan(h, x.listing.value).Some?
    ensures var p := ResetPlan(h, x.listing.value).value;
            Reset(h, x) <= (Deletions(p.toDelete)
                                  + ((if p.rollbackTarget == "" then [] else [Restored(p.rollbackTarget)])
                                  + if p.removesState then [FileRemoved] else []))
  {
    var p := ResetPlan(h, x.listing.value).value;
    var deleting := DeleteForward(p.toDelete, x.dels, 0);
    var restore := if p.rollbackTarget == "" then [] else [Restored(p.rollbackTarget)];
    var remove := if p.removesState then [FileRemoved] else [];
    ForwardIsPrefix(p.toDelete, x.dels, 0);
    PrefixOfSum(Deletions(p.toDelete), restore + remove);
    PrefixTrans(deleting.0, Deletions(p.toDelete), Deletions(p.toDelete) + (restore + remove));
    if deleting.1 && !p.nothingToDo {
      Associates(Deletions(p.toDelete), restore, remove);
      PrefixOfSum(Deletions(p.toDelete) + restore, remove);
    }
  }
}
