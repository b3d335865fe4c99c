/**
 DeployManager as the source writes it: methods that rename, copy and remove
 slot files and rewrite the state file. Each is proved to perform exactly the
 operations of its specification in Deploy, in that order.
 */
module DeployManager {
  import opened Common
  import opened Text
  import opened DeployState
  import opened Deploy
  import DeployProofs

  class DeployManager {
    var files: map<Slot, Bytes>
    var state: Option<string>
    var marker: bool
    const hash: Bytes -> string
    ghost const start: Disk
    ghost var log: seq<Effect>

    // Every file operation since construction is in the log.
    ghost predicate Valid()
      reads this
    {
      View() == Replay(start, log)
    }

    function View(): Disk
      reads this
    {
      Disk(files, state, marker)
    }

    constructor (hash: Bytes -> string, d: Disk)
      ensures Valid() && View() == d && this.hash == hash && log == []
    {
      this.hash := hash;
      files, state, marker := d.files, d.state, d.marker;
      start, log := d, [];
    }

    // ---- File operations ----

    ghost method Log(e: Effect, was: Disk)
      requires was == Replay(start, log) && View() == Apply(was, e)
      modifies this`log
      ensures Valid() && log == old(log) + [e]
    {
      DeployProofs.ReplayConcat(start, log, [e]);
      DeployProofs.ReplayOne(was, e);
      log := log + [e];
    }

    method Rename(from: Slot, to: Slot)
      requires Valid() && from in files
      modifies this
      ensures Valid() && View() == Apply(old(View()), Renamed(from, to)) && log == old(log) + [Renamed(from, to)]
    {
      ghost var was := View();
      if from != to {
        files := (files - {from})[to := files[from]];
      }
      Log(Renamed(from, to), was);
    }

    method Remove(slot: Slot, env: Env)
      requires Valid()
      modifies this
      ensures Valid() && View() == Replay(old(View()), Tidy(env, slot)) && log == old(log) + Tidy(env, slot)
    {
      ghost var was := View();
      if env.removes {
        files := files - {slot};
        Log(Removed(slot), was);
        DeployProofs.ReplayOne(was, Removed(slot));
      }
    }

    method Write(slot: Slot, content: Bytes)
      requires Valid()
      modifies this
      ensures Valid() && View() == Apply(old(View()), Wrote(slot, content)) && log == old(log) + [Wrote(slot, content)]
    {
      ghost var was := View();
      files := files[slot := content];
      Log(Wrote(slot, content), was);
    }

    method WriteState(text: string)
      requires Valid()
      modifies this
      ensures Valid() && View() == old(View()).(state := Some(text)) && log == old(log) + [StateWritten(text)]
    {
      ghost var was := View();
      state := Some(text);
      Log(StateWritten(text), was);
    }

    method SetMarker(present: bool)
      requires Valid()
      modifies this
      ensures Valid() && View() == old(View()).(marker := present)
      ensures log == old(log) + [if present then MarkerWritten else MarkerRemoved]
    {
      ghost var was := View();
      marker := present;
      Log(if present then MarkerWritten else MarkerRemoved, was);
    }

    // fileSHA256 where the caller ignores its error.
    method HashFile(slot: Slot, works: bool) returns (sum: string)
      ensures sum == HashOrNone(hash, View(), slot, works)
    {
      sum := if works && slot in files then hash(files[slot]) else "";
    }

    // The disk after a call that will have logged these effects.
    lemma Lands(effects: seq<Effect>)
      requires Valid()
      ensures Replay(start, log + effects) == Replay(View(), effects)
    {
      DeployProofs.ReplayConcat(start, log, effects);
    }

    // ---- copyFile ----

    method CopyFile(src: Slot, dst: Slot, fault: CopyFault, env: Env) returns (ok: bool)
      requires Valid() && src in files
      modifies this
      ensures Valid() && ok == Copy(old(files[src]), dst, fault, env).ok
      ensures log == old(log) + Copy(old(files[src]), dst, fault, env).effects
    {
      if fault.OpenSource? || fault.OpenTemp? {
        return false;
      }
      var content := files[src];
      var tmp := TempOf(dst);
      Write(tmp, []);
      Write(tmp, content[..Min(env.partial, |content|)]);
      if fault.CopyData? {
        Remove(tmp, env);
        return false;
      }
      Write(tmp, content);
      if !fault.CopyFine? {
        Remove(tmp, env);
        return false;
      }
      Rename(tmp, dst);
      return true;
    }

    // ---- DeployFromPath and finishSwap ----

    method DeployFromPath(src: Slot, want: string, version: string, fault: Fault, env: Env)
      returns (stagedSum: string, ok: bool)
      requires Valid()
      modifies this
      ensures Valid() && ok == DeployFrom(hash, old(View()), src, want, version, fault, env).ok
      ensures log == old(log) + DeployFrom(hash, old(View()), src, want, version, fault, env).effects
      ensures ok ==> stagedSum == HashOf(hash, old(View()), src)
      ensures src != Current && !ok ==> File(View(), Current) == old(File(View(), Current))
      ensures src != Current && ok ==> File(View(), Current) == old(File(View(), src)) && EqualFold(stagedSum, want)
      ensures LowerHashes(hash) && NoUpper(want) && src != Current && ok ==> stagedSum == want
      ensures var c := DeployProofs.DeployCommand(src, want, version, fault, env);
              HashText(hash) && DeployProofs.Succeeds(hash, old(View()), c) ==>
                DeployProofs.Agrees(hash, View()) && DeployProofs.MarkerTells(hash, View())
    {
      Foreseen(src, want, version, fault, env);
      stagedSum, ok := StageAndSwap(src, want, version, fault, env);
      if ok && src != Current && LowerHashes(hash) && NoUpper(want) {
        FoldIsEqual(stagedSum, want);
      }
    }

    // What the claims about a deploy say of this one.
    lemma Foreseen(src: Slot, want: string, version: string, fault: Fault, env: Env)
      requires Valid()
      ensures var out := DeployFrom(hash, View(), src, want, version, fault, env);
              var c, after := DeployProofs.DeployCommand(src, want, version, fault, env), Replay(start, log + out.effects);
              && (src != Current && !out.ok ==> File(after, Current) == File(View(), Current))
              && (src != Current && out.ok ==>
                  File(after, Current) == File(View(), src) && src in files && EqualFold(hash(files[src]), want))
              && (HashText(hash) && DeployProofs.Succeeds(hash, View(), c) ==>
                  DeployProofs.Agrees(hash, after) && DeployProofs.MarkerTells(hash, after))
    {
      Lands(DeployFrom(hash, View(), src, want, version, fault, env).effects);
      if src != Current {
        DeployProofs.DeployResult(hash, View(), src, want, version, fault, env);
      }
      var c := DeployProofs.DeployCommand(src, want, version, fault, env);
      if HashText(hash) && DeployProofs.Succeeds(hash, View(), c) {
        DeployProofs.DeployAgrees(hash, View(), c);
      }
    }

    method StageAndSwap(src: Slot, want: string, version: string, fault: Fault, env: Env) returns (stagedSum: string, ok: bool)
      requires Valid()
      modifies this
      ensures Valid() && ok == DeployFrom(hash, old(View()), src, want, version, fault, env).ok
      ensures log == old(log) + DeployFrom(hash, old(View()), src, want, version, fault, env).effects
      ensures ok ==> stagedSum == HashOf(hash, old(View()), src)
    {
      if want == "" || fault.StatSource? || src !in files || files[src] == [] || fault.HashSource? {
        return "", false;
      }
      stagedSum := hash(files[src]);
      if !EqualFold(stagedSum, want) || fault.StageRename? {
        return "", false;
      }
      ok := Stage(src, version, stagedSum, fault, env);
    }

    // What a deploy does once its source is accepted.
    ghost function Staging(d: Disk, src: Slot, version: string, fault: Fault, env: Env): Outcome
      requires src in d.files
    {
      var staging := Renamed(src, Staged);
      if fault.Chmod? then Outcome([staging] + Tidy(env, Staged), false)
      else
        var rest := Deploy.FinishSwap(hash, Apply(d, staging), d.files[src], version, fault, env);
        Outcome([staging] + rest.effects, rest.ok)
    }

    method Stage(src: Slot, version: string, computed: string, fault: Fault, env: Env) returns (ok: bool)
      requires Valid() && src in files && computed == hash(files[src])
      modifies this
      ensures Valid() && ok == Staging(old(View()), src, version, fault, env).ok
      ensures log == old(log) + Staging(old(View()), src, version, fault, env).effects
    {
      ghost var content := files[src];
      Rename(src, Staged);
      if fault.Chmod? {
        Remove(Staged, env);
        Associates(old(log), [Renamed(src, Staged)], Tidy(env, Staged));
        return false;
      }
      ghost var staged := View();
      ok := FinishSwap(content, version, computed, fault, env);
      Associates(old(log), [Renamed(src, Staged)],
                 Deploy.FinishSwap(hash, staged, content, version, fault, env).effects);
    }

    // `content` names the bytes whose hash is `computed`.
    method FinishSwap(ghost content: Bytes, version: string, computed: string, fault: Fault, env: Env) returns (ok: bool)
      requires Valid() && Staged in files && computed == hash(content)
      modifies this
      ensures Valid() && ok == Deploy.FinishSwap(hash, old(View()), content, version, fault, env).ok
      ensures log == old(log) + Deploy.FinishSwap(hash, old(View()), content, version, fault, env).effects
    {
      ok := SwapIn(fault, env);
      if ok {
        var previousSum := HashFile(Previous, env.hashesPrevious);
        WriteNotes(Encode(DeployState(computed, previousSum, version, env.now, PENDING)), env);
      }
    }

    // The backup and the rename of the staged file to .current.
    ghost function Swapping(d: Disk, fault: Fault, env: Env): Outcome {
      var backup := Backup(d, fault, env);
      if !backup.ok || fault.Swap? then Outcome(backup.effects + Tidy(env, Staged), false)
      else Outcome(backup.effects + [Renamed(Staged, Current)], true)
    }

    method SwapIn(fault: Fault, env: Env) returns (ok: bool)
      requires Valid() && Staged in files
      modifies this
      ensures Valid() && ok == Swapping(old(View()), fault, env).ok
      ensures log == old(log) + Swapping(old(View()), fault, env).effects
      ensures View() == Replay(old(View()), Swapping(old(View()), fault, env).effects)
    {
      Lands(Swapping(View(), fault, env).effects);
      ghost var backup := Backup(View(), fault, env).effects;
      var backed := BackUp(fault, env);
      if !backed || fault.Swap? {
        Remove(Staged, env);
        Associates(old(log), backup, Tidy(env, Staged));
        return false;
      }
      Rename(Staged, Current);
      Associates(old(log), backup, [Renamed(Staged, Current)]);
      return true;
    }

    // The copy of .current over .previous; the staged file stays.
    method BackUp(fault: Fault, env: Env) returns (ok: bool)
      requires Valid() && Staged in files
      modifies this
      ensures Valid() && ok == Backup(old(View()), fault, env).ok && Staged in files
      ensures log == old(log) + Backup(old(View()), fault, env).effects
    {
      ghost var effects := Backup(View(), fault, env).effects;
      DeployProofs.BackupLeaves(View(), fault, env);
      DeployProofs.LeftAlone(View(), effects, Staged);
      if fault.StatCurrent? {
        return false;
      }
      ok := true;
      if Current in files {
        ok := CopyFile(Current, Previous, if fault.CopyCurrent? then fault.copy else CopyFine, env);
        DeployProofs.ReplayConcat(start, old(log), effects);
      }
    }

    method WriteNotes(text: string, env: Env)
      requires Valid()
      modifies this
      ensures Valid() && log == old(log) + Notes(text, env)
    {
      if env.writesState {
        WriteState(text);
      }
      if env.writesMarker {
        SetMarker(true);
      }
    }

    // ---- Revert, MarkHealthy, Status ----

    method RevertToPrevious(readable: bool, fault: CopyFault, env: Env) returns (revertedTo: string, ok: bool)
      requires Valid()
      modifies this
      ensures Valid() && ok == Revert(hash, old(View()), readable, fault, env).ok
      ensures log == old(log) + Revert(hash, old(View()), readable, fault, env).effects
      ensures ok ==> revertedTo == HashOf(hash, old(View()), Previous)
      ensures File(View(), Current) == if ok then old(File(View(), Previous)) else old(File(View(), Current))
      ensures var c := DeployProofs.RevertCommand(readable, fault, env);
              HashText(hash) && DeployProofs.Succeeds(hash, old(View()), c) ==>
                DeployProofs.Agrees(hash, View()) && DeployProofs.MarkerTells(hash, View())
    {
      RevertForeseen(readable, fault, env);
      revertedTo, ok := CopyBack(readable, fault, env);
    }

    lemma RevertForeseen(readable: bool, fault: CopyFault, env: Env)
      requires Valid()
      ensures var out := Revert(hash, View(), readable, fault, env);
              var c, after := DeployProofs.RevertCommand(readable, fault, env), Replay(start, log + out.effects);
              && File(after, Current) == (if out.ok then File(View(), Previous) else File(View(), Current))
              && (HashText(hash) && DeployProofs.Succeeds(hash, View(), c) ==>
                  DeployProofs.Agrees(hash, after) && DeployProofs.MarkerTells(hash, after))
    {
      Lands(Revert(hash, View(), readable, fault, env).effects);
      DeployProofs.RevertResult(hash, View(), readable, fault, env);
      var c := DeployProofs.RevertCommand(readable, fault, env);
      if HashText(hash) && DeployProofs.Succeeds(hash, View(), c) {
        DeployProofs.RevertAgrees(hash, View(), c);
      }
    }

    method CopyBack(readable: bool, fault: CopyFault, env: Env) returns (revertedTo: string, ok: bool)
      requires Valid()
      modifies this
      ensures Valid() && ok == Revert(hash, old(View()), readable, fault, env).ok
      ensures log == old(log) + Revert(hash, old(View()), readable, fault, env).effects
      ensures ok ==> revertedTo == HashOf(hash, old(View()), Previous)
    {
      if Previous !in files || !readable {
        return "", false;
      }
      revertedTo := HashFile(Previous, true);
      ok := CopyFile(Previous, Current, fault, env);
      if !ok {
        return "", false;
      }
      WriteNotes(Encode(DeployState(revertedTo, revertedTo, "reverted", env.now, PENDING)), env);
    }

    method MarkCurrentHealthy(readable: bool, env: Env) returns (s: DeployState, ok: bool)
      requires Valid()
      modifies this
      ensures Valid() && ok == MarkHealthy(hash, old(View()), readable, env).ok
      ensures log == old(log) + MarkHealthy(hash, old(View()), readable, env).effects
      ensures ok ==> s == Healthy(hash, old(View()), env) && s.health == "ok"
      ensures HashText(hash) && IsInt64(env.now) && ok ==> DeployProofs.ReportedHealth(hash, View()) == "ok" && !marker
      ensures var c := DeployProofs.HealthyCommand(readable, env);
              HashText(hash) && DeployProofs.Succeeds(hash, old(View()), c) && DeployProofs.Agrees(hash, old(View())) ==>
                DeployProofs.Agrees(hash, View()) && DeployProofs.MarkerTells(hash, View())
    {
      HealthForeseen(readable, env);
      s, ok := StampHealthy(readable, env);
    }

    lemma HealthForeseen(readable: bool, env: Env)
      requires Valid()
      ensures var c := DeployProofs.HealthyCommand(readable, env);
              var after := Replay(start, log + MarkHealthy(hash, View(), readable, env).effects);
              && (HashText(hash) && DeployProofs.Succeeds(hash, View(), c) && DeployProofs.Agrees(hash, View()) ==>
                    DeployProofs.Agrees(hash, after) && DeployProofs.MarkerTells(hash, after))
              && (HashText(hash) && IsInt64(env.now) && MarkHealthy(hash, View(), readable, env).ok ==>
                    DeployProofs.ReportedHealth(hash, after) == "ok" && !after.marker)
    {
      if HashText(hash) && IsInt64(env.now) {
        DeployProofs.HealthyIsExact(hash, View(), readable, env);
      }
      Lands(MarkHealthy(hash, View(), readable, env).effects);
      var c := DeployProofs.HealthyCommand(readable, env);
      if HashText(hash) && DeployProofs.Succeeds(hash, View(), c) && DeployProofs.Agrees(hash, View()) {
        DeployProofs.HealthyAgrees(hash, View(), c);
      }
    }

    method StampHealthy(readable: bool, env: Env) returns (s: DeployState, ok: bool)
      requires Valid()
      modifies this
      ensures Valid() && ok == MarkHealthy(hash, old(View()), readable, env).ok
      ensures log == old(log) + MarkHealthy(hash, old(View()), readable, env).effects
      ensures ok ==> s == Healthy(hash, old(View()), env)
    {
      if !readable {
        return EMPTY, false;
      }
      s := HealthyRecord(env);
      if !env.writesState {
        return s, false;
      }
      WriteState(Encode(s));
      if env.removes {
        SetMarker(false);
      }
      return s, env.removes;
    }

    method ReadState() returns (s: DeployState)
      ensures s == Recorded(View())
    {
      s := EMPTY;
      if state.Some? {
        s := ParseStateFile(state.value);
      }
    }

    method HealthyRecord(env: Env) returns (s: DeployState)
      ensures s == Healthy(hash, View(), env)
    {
      s := ReadState();
      s := s.(health := HEALTHY);
      if s.active == "" {
        var sum := HashFile(Current, env.hashesCurrent);
        s := s.(active := sum);
      }
      if s.previous == "" {
        var sum := HashFile(Previous, env.hashesPrevious);
        s := s.(previous := sum);
      }
      if s.deployedAt == 0 {
        s := s.(deployedAt := env.now);
      }
    }

    method ReportStatus(readable: bool, hashesCurrent: bool, hashesPrevious: bool) returns (r: Option<Report>)
      ensures r == Status(hash, View(), readable, hashesCurrent, hashesPrevious)
      ensures readable && hashesCurrent && hashesPrevious && DeployProofs.Agrees(hash, View()) ==>
                r.Some? && r.value.active == HashOf(hash, View(), Current) && r.value.previous == HashOf(hash, View(), Previous)
    {
      if !readable {
        return None;
      }
      var s := ReadState();
      var current := HashFile(Current, hashesCurrent);
      var previous := HashFile(Previous, hashesPrevious);
      r := Some(Report(if s.active == "" then current else s.active,
                       if s.previous == "" then previous else s.previous,
                       if s.health == "" then PENDING else s.health,
                       s.deployedAt));
    }
  }
}
