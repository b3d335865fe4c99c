/**
 The firmware step of execute: the plan drawn from what the repository offers,
 the update the guest is put through, and the check that what was pending landed.

 The guest follows the documented update commands: a package update takes every
 package that is older than the repository's to the repository's version, and
 the base and kernel sets follow the updater package's version without its
 revision. What "older" means is the parameter `older`.
 */
module Firmware {
  import opened Common

  type Version = string

  datatype Guest = Guest(core: string, packages: map<string, Version>, base: Version, kernel: Version, alwaysReboot: bool)

  type Repo = map<string, Version>

  type Order = (Version, Version) -> bool

  const UPDATER := "opnsense-update"

  // firmwareState: what prepare writes to firmware.pre.json.
  datatype State = State(core: string, coreVersion: Version, base: Version, kernel: Version)

  datatype Mode = Update | Major

  datatype Plan = Plan(mode: Mode, target: Version, installed: State, coreAvailable: Version, corePending: bool,
                       setsAvailable: Version, basePending: bool, kernelPending: bool,
                       alwaysReboot: bool, rebootRequired: bool)

  datatype Result = Result(setsApplied: bool, setsRelease: Version, packagesChanged: bool, rebootRequired: bool)

  const EMPTY_RESULT := Result(false, "", false, false)

  // ---- Versions ----

  // The part of a version before the first `stop`, and what follows it.
  function Cut(s: string, stop: char): (string, string) {
    if s == "" then ("", "")
    else if s[0] == stop then ("", s[1..])
    else var rest := Cut(s[1..], stop); ([s[0]] + rest.0, rest.1)
  }

  function StripPackageRevision(version: Version): Version {
    Cut(version, '_').0
  }

  // The first two dotted components, without a package revision.
  function ReleaseSeries(version: Version): Version {
    var base := StripPackageRevision(version);
    if '.' !in base then base
    else Cut(base, '.').0 + "." + Cut(Cut(base, '.').1, '.').0
  }

  function IsMajorUpgrade(target: Version, coreVersion: Version): bool {
    target != "" && ReleaseSeries(target) != ReleaseSeries(coreVersion)
  }

  lemma {:induction false} CutBefore(s: string, stop: char, rest: string)
    requires stop !in s && (rest == "" || rest[0] == stop)
    ensures Cut(s + rest, stop) == (s, if rest == "" then "" else rest[1..])
  {
    if s == "" {
      assert s + rest == rest;
    } else {
      assert (s + rest)[1..] == s[1..] + rest;
      CutBefore(s[1..], stop, rest);
      assert s[0] in s && (s + rest)[0] == s[0];
      HeadTail(s);
    }
  }

  lemma {:induction false} CutParts(s: string, stop: char)
    ensures stop !in Cut(s, stop).0
    ensures forall c :: c in Cut(s, stop).0 || c in Cut(s, stop).1 ==> c in s
    ensures s == Cut(s, stop).0 || s == Cut(s, stop).0 + [stop] + Cut(s, stop).1
  {
    if s != "" && s[0] != stop {
      CutParts(s[1..], stop);
      assert s == [s[0]] + s[1..];
    }
  }

  // A version of series a.b is in that series, whatever patch level or package
  // revision follows.
  lemma SeriesOfVersion(a: string, b: string, patch: string, revision: string)
    requires '.' !in a && '_' !in a && '.' !in b && '_' !in b && '_' !in patch
    requires patch == "" || patch[0] == '.'
    requires revision == "" || revision[0] == '_'
    ensures ReleaseSeries(a + "." + b + patch + revision) == a + "." + b
  {
    var base, tail := a + "." + b + patch, "." + b + patch;
    CutBefore(base, '_', revision);
    assert base == a + tail && tail[1..] == b + patch;
    CutBefore(a, '.', tail);
    CutBefore(b, '.', patch);
    assert base[|a|] == '.';
  }

  // Upgrading to the series a version is in is no major upgrade.
  lemma SeriesIsItsOwn(version: Version)
    ensures ReleaseSeries(ReleaseSeries(version)) == ReleaseSeries(version)
    ensures !IsMajorUpgrade(ReleaseSeries(version), version)
  {
    var base := StripPackageRevision(version);
    CutParts(version, '_');
    if '.' in base {
      var a, b := Cut(base, '.').0, Cut(Cut(base, '.').1, '.').0;
      CutParts(base, '.');
      CutParts(Cut(base, '.').1, '.');
      SeriesOfVersion(a, b, "", "");
      assert a + "." + b + "" + "" == a + "." + b;
    } else {
      CutBefore(base, '_', "");
      assert base + "" == base;
    }
  }

  // ---- The guest's commands ----

  function Upgraded(packages: map<string, Version>, repo: Repo, older: Order): map<string, Version> {
    map n | n in packages :: if n in repo && older(packages[n], repo[n]) then repo[n] else packages[n]
  }

  // opnsense-update -v: the release of the sets the updater installs.
  function SetsRelease(g: Guest): Version {
    if UPDATER in g.packages then StripPackageRevision(g.packages[UPDATER]) else ""
  }

  // opnsense-update -bk -c exits 0.
  predicate SetsDiffer(g: Guest) {
    SetsRelease(g) != g.base || SetsRelease(g) != g.kernel
  }

  function Capture(g: Guest): Option<State> {
    if g.core !in g.packages || g.packages[g.core] == "" || g.base == "" || g.kernel == "" then None
    else Some(State(g.core, g.packages[g.core], g.base, g.kernel))
  }

  // ---- probeUpdatePlan, majorPlan ----

  // None when the repository does not have a package it is asked for.
  function PlanChange(g: Guest, repo: Repo, older: Order, pre: State, target: Version): Option<Plan> {
    if IsMajorUpgrade(target, pre.coreVersion)
    then Some(Plan(Major, target, pre, "", true, target, true, true, false, true))
    else if pre.core !in repo || repo[pre.core] == "" || UPDATER !in repo || repo[UPDATER] == "" then None
    else
      var sets := StripPackageRevision(repo[UPDATER]);
      var corePending := older(pre.coreVersion, repo[pre.core]);
      Some(Plan(Update, target, pre, repo[pre.core], corePending, sets, sets != pre.base, sets != pre.kernel, g.alwaysReboot,
                sets != pre.base || sets != pre.kernel || (g.alwaysReboot && corePending)))
  }

  // ---- applyPendingUpdate ----

  function UpdatedGuest(g: Guest, repo: Repo, older: Order): Guest {
    var updated := g.(packages := Upgraded(g.packages, repo, older));
    if SetsDiffer(updated) then updated.(base := SetsRelease(updated), kernel := SetsRelease(updated)) else updated
  }

  function UpdateResult(g: Guest, repo: Repo, older: Order, plan: Plan): Result {
    var updated := g.(packages := Upgraded(g.packages, repo, older));
    var changed := plan.alwaysReboot && updated.packages != g.packages;
    Result(SetsDiffer(updated), if SetsDiffer(updated) then SetsRelease(updated) else "", changed, SetsDiffer(updated) || changed)
  }

  // The commands of one update, in the order they are given.
  datatype Command = QueryBefore | UpdatePackages | CheckSets | QueryRelease | InstallSets | QueryAfter

  // The guest as the update's commands change it.
  class GuestRunner {
    var guest: Guest
    const repo: Repo
    const older: Order

    constructor (g: Guest, repo: Repo, older: Order)
      ensures guest == g && this.repo == repo && this.older == older
    {
      guest, this.repo, this.older := g, repo, older;
    }

    // None is an error from one of the commands. `fails` says which of them do;
    // a command that fails may or may not have changed the guest.
    method ApplyPendingUpdate(plan: Plan, fails: Command -> bool, late: bool) returns (r: Option<Result>)
      modifies this
      ensures r.Some? ==> r.value == UpdateResult(old(guest), repo, older, plan) && guest == UpdatedGuest(old(guest), repo, older)
      ensures (forall c :: !fails(c)) && SetsRelease(UpdatedGuest(old(guest), repo, older)) != "" ==> r.Some?
    {
      var result := EMPTY_RESULT;
      if plan.alwaysReboot && fails(QueryBefore) {
        return None;
      }
      var before := guest.packages;
      if !fails(UpdatePackages) || late {
        guest := guest.(packages := Upgraded(guest.packages, repo, older));
      }
      if fails(UpdatePackages) || fails(CheckSets) {
        return None;
      }
      if SetsDiffer(guest) {
        var release := SetsRelease(guest);
        if fails(QueryRelease) || release == "" {
          return None;
        }
        if !fails(InstallSets) || late {
          guest := guest.(base := release, kernel := release);
        }
        if fails(InstallSets) {
          return None;
        }
        result := Result(true, release, false, true);
      }
      if plan.alwaysReboot {
        if fails(QueryAfter) {
          return None;
        }
        result := result.(packagesChanged := guest.packages != before);
        result := result.(rebootRequired := result.rebootRequired || result.packagesChanged);
      }
      return Some(result);
    }
  }

  // ---- verifyFirmware ----

  datatype Problem = CoreMissed | BaseMissed | KernelMissed | SeriesMissed

  method VerifyFirmware(plan: Plan, r: Result, post: State) returns (problems: seq<Problem>)
    ensures problems == [] <==> Verified(plan, r, post)
    ensures CoreMissed in problems <==> plan.mode == Update && plan.corePending && post.coreVersion != plan.coreAvailable
    ensures BaseMissed in problems <==> plan.mode == Update && (plan.basePending || r.setsApplied) && post.base != Wanted(plan, r)
    ensures KernelMissed in problems <==> plan.mode == Update && (plan.kernelPending || r.setsApplied) && post.kernel != Wanted(plan, r)
    ensures SeriesMissed in problems <==> plan.mode == Major && ReleaseSeries(post.coreVersion) != ReleaseSeries(plan.target)
  {
    problems := [];
    if plan.mode == Major {
      if ReleaseSeries(post.coreVersion) != ReleaseSeries(plan.target) {
        problems := problems + [SeriesMissed];
      }
      return;
    }
    if plan.corePending && post.coreVersion != plan.coreAvailable {
      problems := problems + [CoreMissed];
    }
    var wantSets := plan.setsAvailable;
    if r.setsApplied {
      wantSets := r.setsRelease;
    }
    if (plan.basePending || r.setsApplied) && post.base != wantSets {
      problems := problems + [BaseMissed];
    }
    if (plan.kernelPending || r.setsApplied) && post.kernel != wantSets {
      problems := problems + [KernelMissed];
    }
  }

  // The release the sets must be at.
  function Wanted(plan: Plan, r: Result): Version {
    if r.setsApplied then r.setsRelease else plan.setsAvailable
  }

  // Everything the plan had pending, or the update applied, is there.
  predicate Verified(plan: Plan, r: Result, post: State) {
    match plan.mode
    case Major => ReleaseSeries(post.coreVersion) == ReleaseSeries(plan.target)
    case Update =>
      var want := Wanted(plan, r);
      && (plan.corePending ==> post.coreVersion == plan.coreAvailable)
      && (plan.basePending || r.setsApplied ==> post.base == want)
      && (plan.kernelPending || r.setsApplied ==> post.kernel == want)
  }

  // ---- What is planned and what is checked ----

  // The sets on offer are the updater's version up to its package revision.
  predicate SetsOf(updater: Version, sets: Version) {
    '_' !in sets && sets <= updater && (sets == updater || updater[|sets|] == '_')
  }

  lemma {:induction false} CutStops(s: string, stop: char)
    ensures var a := Cut(s, stop).0; stop !in a && a <= s && (a == s || s[|a|] == stop)
  {
    if s != "" && s[0] != stop {
      CutStops(s[1..], stop);
      HeadTail(s);
    }
  }

  // A target in another release series plans a major upgrade with its reboot.
  // Otherwise there is a plan exactly when the repository has both packages; the
  // core is pending when it is older than the one on offer, base and kernel when
  // they are not at the sets on offer, and a reboot is due for base or kernel, or,
  // with the setting on, for the core.
  lemma PlanIsExact(g: Guest, repo: Repo, older: Order, pre: State, target: Version)
    ensures var p := PlanChange(g, repo, older, pre, target);
            if target != "" && ReleaseSeries(target) != ReleaseSeries(pre.coreVersion) then
              p.Some? && p.value.mode == Major && p.value.target == target && p.value.rebootRequired
            else
              && (p.Some? <==> pre.core in repo && repo[pre.core] != "" && UPDATER in repo && repo[UPDATER] != "")
              && (p.Some? ==>
                    var plan := p.value;
                    && plan.mode == Update && plan.installed == pre && plan.alwaysReboot == g.alwaysReboot
                    && plan.coreAvailable == repo[pre.core] && SetsOf(repo[UPDATER], plan.setsAvailable)
                    && (plan.corePending <==> older(pre.coreVersion, repo[pre.core]))
                    && (plan.basePending <==> !SetsOf(repo[UPDATER], pre.base))
                    && (plan.kernelPending <==> !SetsOf(repo[UPDATER], pre.kernel))
                    && (plan.rebootRequired <==>
                          plan.basePending || plan.kernelPending || (g.alwaysReboot && plan.corePending)))
  {
    if UPDATER in repo {
      CutStops(repo[UPDATER], '_');
      OneCut(repo[UPDATER], StripPackageRevision(repo[UPDATER]), pre.base);
      OneCut(repo[UPDATER], StripPackageRevision(repo[UPDATER]), pre.kernel);
    }
  }

  lemma NotShorter(updater: Version, a: Version, b: Version)
    requires SetsOf(updater, a) && SetsOf(updater, b)
    ensures |a| <= |b|
  {
    forall i | 0 <= i < |a| ensures updater[i] != '_' {
      assert updater[i] == a[i] && a[i] in a;
    }
  }

  lemma OneCut(updater: Version, a: Version, b: Version)
    requires SetsOf(updater, a)
    ensures SetsOf(updater, b) <==> a == b
  {
    if SetsOf(updater, b) {
      NotShorter(updater, a, b);
      NotShorter(updater, b, a);
    }
  }

  // After the update and its reboot, a base or a kernel that is not where it
  // should be fails the check, each for itself; so does a core that stayed behind.
  lemma MissedFails(g: Guest, repo: Repo, older: Order, pre: State, target: Version, post: State)
    requires PlanChange(g, repo, older, pre, target).Some? && !IsMajorUpgrade(target, pre.coreVersion)
    ensures var plan := PlanChange(g, repo, older, pre, target).value;
            var r := UpdateResult(g, repo, older, plan);
            var sets := if r.setsApplied then r.setsRelease else plan.setsAvailable;
            && (older(pre.coreVersion, repo[pre.core]) && post.coreVersion != repo[pre.core] ==> !Verified(plan, r, post))
            && ((r.setsApplied || pre.base != plan.setsAvailable) && post.base != sets ==> !Verified(plan, r, post))
            && ((r.setsApplied || pre.kernel != plan.setsAvailable) && post.kernel != sets ==> !Verified(plan, r, post))
  {
  }

  // A major upgrade is verified exactly when the core is in the target's series.
  lemma MajorIsVerified(g: Guest, repo: Repo, older: Order, pre: State, target: Version, r: Result, post: State)
    requires IsMajorUpgrade(target, pre.coreVersion)
    ensures Verified(PlanChange(g, repo, older, pre, target).value, r, post) <==>
            ReleaseSeries(post.coreVersion) == ReleaseSeries(target)
    ensures !Verified(PlanChange(g, repo, older, pre, target).value, r, pre)
  {
  }

  // ---- The update lands ----

  // The installed updater brings the sets the repository promises, or the sets
  // are not where that updater has them yet. Fails only when the repository
  // offers an updater of other sets that the guest does not take.
  predicate SetsReachable(g: Guest, repo: Repo, older: Order)
    requires UPDATER in g.packages && UPDATER in repo
  {
    || older(g.packages[UPDATER], repo[UPDATER])
    || SetsRelease(g) == StripPackageRevision(repo[UPDATER])
    || SetsRelease(g) != g.base || SetsRelease(g) != g.kernel
  }

  // For a guest whose installed state is the one the plan was drawn from, an
  // update no command of which fails passes the check exactly when the sets are
  // reachable. It asks for the reboot the plan predicted exactly when they are,
  // or when the setting is on and a package changed.
  lemma UpdateIsVerified(g: Guest, repo: Repo, older: Order, pre: State, target: Version)
    requires Capture(g) == Some(pre) && UPDATER in g.packages
    requires PlanChange(g, repo, older, pre, target).Some? && !IsMajorUpgrade(target, pre.coreVersion)
    requires SetsRelease(UpdatedGuest(g, repo, older)) != "" && forall a, b :: older(a, b) ==> a != b
    ensures var plan := PlanChange(g, repo, older, pre, target).value;
            var r, after := UpdateResult(g, repo, older, plan), UpdatedGuest(g, repo, older);
            && Capture(after).Some?
            && (Verified(plan, r, Capture(after).value) <==> SetsReachable(g, repo, older))
            && ((plan.rebootRequired ==> r.rebootRequired) <==>
                SetsReachable(g, repo, older) || (g.alwaysReboot && Upgraded(g.packages, repo, older) != g.packages))
  {
    var plan := PlanChange(g, repo, older, pre, target).value;
    if plan.corePending {
      assert Upgraded(g.packages, repo, older)[g.core] == repo[g.core] != g.packages[g.core];
    }
  }

  // A guest whose core and updater are at one version, base and kernel too, and a
  // repository with another updater.
  function Settled(core: string, have: Version): Guest {
    Guest(core, map[core := have, UPDATER := have], StripPackageRevision(have), StripPackageRevision(have), false)
  }

  function Offering(core: string, have: Version, updater: Version): Repo {
    map[core := have, UPDATER := updater]
  }

  // The plan predicts a reboot, the update changes nothing and asks for none, and
  // the check fails.
  predicate FailsTheCheck(g: Guest, repo: Repo, older: Order) {
    && Capture(g).Some? && PlanChange(g, repo, older, Capture(g).value, "").Some?
    && UpdatedGuest(g, repo, older) == g
    && PlanFails(PlanChange(g, repo, older, Capture(g).value, "").value, g, repo, older)
  }

  predicate PlanFails(plan: Plan, g: Guest, repo: Repo, older: Order) {
    && plan.rebootRequired && !UpdateResult(g, repo, older, plan).rebootRequired
    && Capture(g).Some? && !Verified(plan, UpdateResult(g, repo, older, plan), Capture(g).value)
  }

  // If the guest does not take that updater there is nothing to install, and yet
  // the plan wants the other sets.
  lemma UntakenUpdaterFails(core: string, have: Version, offered: Version, older: Order)
    requires core != UPDATER && have != "" && offered != "" && have != offered && '_' !in have && '_' !in offered
    requires !older(have, offered) && !older(have, have)
    ensures FailsTheCheck(Settled(core, have), Offering(core, have, offered), older)
  {
    var g, repo := Settled(core, have), Offering(core, have, offered);
    NoRevision(have);
    NoRevision(offered);
    assert Upgraded(g.packages, repo, older) == g.packages;
  }

  // For example a guest at 26.7.3 and a repository that still offers 26.7.2.
  lemma NewerUpdaterFailsTheCheck(older: Order)
    requires !older("26.7.3", "26.7.2") && !older("26.7.3", "26.7.3")
    ensures FailsTheCheck(Settled("opnsense", "26.7.3"), Offering("opnsense", "26.7.3", "26.7.2"), older)
  {
    assert "26.7.3"[5] != "26.7.2"[5] && "opnsense" != UPDATER;
    UntakenUpdaterFails("opnsense", "26.7.3", "26.7.2", older);
  }

  lemma NoRevision(version: Version)
    requires '_' !in version
    ensures StripPackageRevision(version) == version
  {
    CutBefore(version, '_', "");
    assert version + "" == version;
  }
}
