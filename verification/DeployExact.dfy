/**
 When a deploy and a revert work, from their inputs, and that they leave no
 temporary file behind.
 */
module DeployExact {
  import opened Common
  import opened Text
  import opened DeployState
  import opened Deploy
  import opened DeployProofs

  // A deploy works exactly when the source is there, is not empty and has the hash
  // asked for, and no operation fails; a copy that fails is none when there is
  // nothing to copy. What is refused before the first rename changes nothing.
  lemma DeployIsExact(hash: Bytes -> string, d: Disk, src: Slot, want: string, version: string, fault: Fault, env: Env)
    requires src != Current
    ensures var out := DeployFrom(hash, d, src, want, version, fault, env);
            var given := want != "" && src in d.files && d.files[src] != [] && EqualFold(hash(d.files[src]), want);
            && (out.ok <==>
                  given && (fault.Fine? || (fault.CopyCurrent? && (Current in d.files ==> fault.copy.CopyFine?))))
            && (!given ==> out.effects == [])
            && (fault in {StatSource, HashSource, StageRename} ==> out.effects == [])
  {
    if Accepted(hash, d, src, want, fault) {
      DeployShape(hash, d, src, want, version, fault, env);
      var staged := Apply(d, Renamed(src, Staged));
      if Current in staged.files {
        CopySteps(staged.files[Current], Previous, if fault.CopyCurrent? then fault.copy else CopyFine, env);
      }
    }
  }

  lemma RevertIsExact(hash: Bytes -> string, d: Disk, readable: bool, fault: CopyFault, env: Env)
    ensures var out := Revert(hash, d, readable, fault, env);
            && (out.ok <==> Previous in d.files && readable && fault.CopyFine?)
            && (Previous !in d.files || !readable ==> out.effects == [])
  {
    if Previous in d.files {
      CopySteps(d.files[Previous], Current, fault, env);
    }
  }

  // ---- Temporary files ----

  lemma CopyLeavesNoTemp(d: Disk, content: Bytes, dst: Slot, fault: CopyFault, env: Env)
    requires env.removes && (dst == Current || dst == Previous)
    ensures TempOf(dst) in Replay(d, Copy(content, dst, fault, env).effects).files ==> TempOf(dst) in d.files
  {
    var tmp := TempOf(dst);
    var begun := [Wrote(tmp, [])] + [Wrote(tmp, content[..Min(env.partial, |content|)])];
    match fault
    case OpenSource =>
    case OpenTemp =>
    case CopyData => EndsWith(d, begun, Removed(tmp));
    case CopyFine => EndsWith(d, begun + [Wrote(tmp, content)], Renamed(tmp, dst));
    case _ => EndsWith(d, begun + [Wrote(tmp, content)], Removed(tmp));
  }

  lemma EndsWith(d: Disk, before: seq<Effect>, e: Effect)
    ensures Replay(d, before + [e]) == Apply(Replay(d, before), e)
  {
    ReplayConcat(d, before, [e]);
    ReplayOne(Replay(d, before), e);
  }

  // Where removals work, whatever fails, an accepted deploy leaves neither the
  // staged file nor a temporary one that was not there before.
  lemma DeployTidies(hash: Bytes -> string, d: Disk, src: Slot, want: string, version: string, fault: Fault, env: Env)
    requires Accepted(hash, d, src, want, fault) && env.removes
    requires src !in {Current, Previous, CurrentTmp, PreviousTmp}
    ensures var after := Replay(d, DeployFrom(hash, d, src, want, version, fault, env).effects);
            && Staged !in after.files
            && (PreviousTmp in after.files ==> PreviousTmp in d.files)
            && (src != Staged ==> src !in after.files || src in {Current, Previous})
  {
    var staged := Apply(d, Renamed(src, Staged));
    ReplayOne(d, Renamed(src, Staged));
    DeployShape(hash, d, src, want, version, fault, env);
    if fault.Chmod? {
      EndsWith(d, [Renamed(src, Staged)], Removed(Staged));
    } else {
      var backup := Backup(staged, fault, env);
      ReplayConcat(d, [Renamed(src, Staged)], backup.effects);
      BackupTidies(staged, src, fault, env);
      var backed := Replay(d, [Renamed(src, Staged)] + backup.effects);
      if backup.ok && !fault.Swap? {
        var notes := Notes(AfterSwap(hash, d, src, version, fault, env), env);
        ReplayConcat(d, [Renamed(src, Staged)] + backup.effects, [Renamed(Staged, Current)] + notes);
        ReplayConcat(backed, [Renamed(Staged, Current)], notes);
        ReplayOne(backed, Renamed(Staged, Current));
        NotesKeepFiles(Apply(backed, Renamed(Staged, Current)), AfterSwap(hash, d, src, version, fault, env), env);
      } else {
        Associates([Renamed(src, Staged)], backup.effects, [Removed(Staged)]);
        EndsWith(d, [Renamed(src, Staged)] + backup.effects, Removed(Staged));
      }
    }
  }

  lemma BackupTidies(d: Disk, src: Slot, fault: Fault, env: Env)
    requires env.removes && Staged in d.files && src !in {Current, Previous, CurrentTmp, PreviousTmp}
    requires src != Staged ==> src !in d.files
    ensures var after := Replay(d, Backup(d, fault, env).effects);
            && (PreviousTmp in after.files ==> PreviousTmp in d.files)
            && Staged in after.files && (src != Staged ==> src !in after.files)
  {
    if Current in d.files && !fault.StatCurrent? {
      var copyFault := if fault.CopyCurrent? then fault.copy else CopyFine;
      CopyLeavesNoTemp(d, d.files[Current], Previous, copyFault, env);
      CopyDone(d, d.files[Current], Previous, copyFault, env);
      var effects := Copy(d.files[Current], Previous, copyFault, env).effects;
      LeftAlone(d, effects, Staged);
      LeftAlone(d, effects, src);
    }
  }

  lemma NotesKeepFiles(d: Disk, text: string, env: Env)
    ensures Replay(d, Notes(text, env)).files == d.files
  {
    var state := if env.writesState then [StateWritten(text)] else [];
    var mark := if env.writesMarker then [MarkerWritten] else [];
    ReplayConcat(d, state, mark);
    ReplayOne(d, StateWritten(text));
    ReplayOne(Replay(d, state), MarkerWritten);
  }

  lemma RevertTidies(hash: Bytes -> string, d: Disk, readable: bool, fault: CopyFault, env: Env)
    requires env.removes
    ensures CurrentTmp in Replay(d, Revert(hash, d, readable, fault, env).effects).files ==> CurrentTmp in d.files
  {
    if Previous in d.files && readable {
      var content := d.files[Previous];
      var copy := Copy(content, Current, fault, env);
      CopyLeavesNoTemp(d, content, Current, fault, env);
      if copy.ok {
        ReplayConcat(d, copy.effects, Notes(Reverted(hash, content, env), env));
        NotesKeepFiles(Replay(d, copy.effects), Reverted(hash, content, env), env);
      }
    }
  }
}
