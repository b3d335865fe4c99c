/**
 The binary deploy slots: what DeployFromPath, Revert and MarkHealthy do to the
 disk, one file operation at a time.

 A command is the list of file operations it performs, so a crash leaves a
 prefix of that list. SHA-256 is the parameter `hash`; nothing but its text form
 is assumed of it.
 */
module Deploy {
  import opened Common
  import opened Text
  import opened DeployState

  datatype Slot = Current | Previous | Staged | CurrentTmp | PreviousTmp | Other(name: string)

  datatype Disk = Disk(files: map<Slot, Bytes>, state: Option<string>, marker: bool)

  datatype Effect =
    | Renamed(from: Slot, to: Slot)
    | Removed(slot: Slot)
    | Wrote(slot: Slot, content: Bytes)
    | StateWritten(text: string)
    | MarkerWritten
    | MarkerRemoved

  // The first operation to fail, if any. CopyData fails after some bytes.
  datatype CopyFault = CopyFine | OpenSource | OpenTemp | CopyData | SyncTemp | CloseTemp | RenameTemp

  datatype Fault =
    | Fine
    | StatSource
    | HashSource
    | StageRename
    | Chmod
    | StatCurrent
    | CopyCurrent(copy: CopyFault)
    | Swap

  // What else the environment decides: how many bytes a copy wrote before it was
  // whole or failed, whether removals and the state and marker writes succeed,
  // and whether .current and .previous can be hashed where an error is ignored.
  datatype Env = Env(partial: nat, removes: bool, writesState: bool, writesMarker: bool,
                     hashesCurrent: bool, hashesPrevious: bool, now: int)

  datatype Outcome = Outcome(effects: seq<Effect>, ok: bool)

  const PENDING := "pending"
  const HEALTHY := "ok"

  // What the model needs of a hash's text form.
  ghost predicate HashText(hash: Bytes -> string) {
    forall b: Bytes :: hash(b) != "" && Clean(hash(b))
  }

  // ---- The disk ----

  function Apply(d: Disk, e: Effect): Disk {
    match e
    case Renamed(from, to) =>
      if from !in d.files then d
      else d.(files := if from == to then d.files else (d.files - {from})[to := d.files[from]])
    case Removed(slot) => d.(files := d.files - {slot})
    case Wrote(slot, content) => d.(files := d.files[slot := content])
    case StateWritten(text) => d.(state := Some(text))
    case MarkerWritten => d.(marker := true)
    case MarkerRemoved => d.(marker := false)
  }

  function Replay(d: Disk, effects: seq<Effect>): Disk
    decreases effects
  {
    if effects == [] then d else Replay(Apply(d, effects[0]), effects[1..])
  }

  function File(d: Disk, slot: Slot): Option<Bytes> {
    if slot in d.files then Some(d.files[slot]) else None
  }

  // fileSHA256: the empty string when the file is absent.
  function HashOf(hash: Bytes -> string, d: Disk, slot: Slot): string {
    if slot in d.files then hash(d.files[slot]) else ""
  }

  // A hash whose error the caller ignores.
  function HashOrNone(hash: Bytes -> string, d: Disk, slot: Slot, works: bool): string {
    if works then HashOf(hash, d, slot) else ""
  }

  // ---- copyFile ----

  function TempOf(dst: Slot): Slot {
    if dst == Current then CurrentTmp else PreviousTmp
  }

  function Tidy(env: Env, slot: Slot): seq<Effect> {
    if env.removes then [Removed(slot)] else []
  }

  function Copy(content: Bytes, dst: Slot, fault: CopyFault, env: Env): Outcome {
    var tmp := TempOf(dst);
    var begun := [Wrote(tmp, [])] + [Wrote(tmp, content[..Min(env.partial, |content|)])];
    match fault
    case OpenSource => Outcome([], false)
    case OpenTemp => Outcome([], false)
    case CopyData => Outcome(begun + Tidy(env, tmp), false)
    case CopyFine => Outcome((begun + [Wrote(tmp, content)]) + [Renamed(tmp, dst)], true)
    case _ => Outcome((begun + [Wrote(tmp, content)]) + Tidy(env, tmp), false)
  }

  // ---- DeployFromPath ----

  // The bytes the caller asks to deploy, once every check before the first
  // rename has passed.
  predicate Accepted(hash: Bytes -> string, d: Disk, src: Slot, want: string, fault: Fault) {
    && want != ""
    && !fault.StatSource? && src in d.files
    && d.files[src] != []
    && !fault.HashSource? && EqualFold(hash(d.files[src]), want)
    && !fault.StageRename?
  }

  // finishSwap's copy of .current over .previous.
  function Backup(d: Disk, fault: Fault, env: Env): Outcome {
    if fault.StatCurrent? then Outcome([], false)
    else if Current !in d.files then Outcome([], true)
    else Copy(d.files[Current], Previous, if fault.CopyCurrent? then fault.copy else CopyFine, env)
  }

  // The state text finishSwap writes for the content it just made current.
  function Record(hash: Bytes -> string, d: Disk, content: Bytes, version: string, env: Env): string {
    Encode(DeployState(hash(content), HashOrNone(hash, d, Previous, env.hashesPrevious), version, env.now, PENDING))
  }

  function Notes(text: string, env: Env): seq<Effect> {
    (if env.writesState then [StateWritten(text)] else []) + (if env.writesMarker then [MarkerWritten] else [])
  }

  // finishSwap, from the disk the staging rename left.
  function FinishSwap(hash: Bytes -> string, d: Disk, content: Bytes, version: string, fault: Fault, env: Env): Outcome {
    var backup := Backup(d, fault, env);
    if !backup.ok || fault.Swap? then Outcome(backup.effects + Tidy(env, Staged), false)
    else
      var swap := backup.effects + [Renamed(Staged, Current)];
      Outcome(swap + Notes(Record(hash, Replay(d, swap), content, version, env), env), true)
  }

  function DeployFrom(hash: Bytes -> string, d: Disk, src: Slot, want: string, version: string, fault: Fault, env: Env): Outcome {
    if !Accepted(hash, d, src, want, fault) then Outcome([], false)
    else
      var staging := Renamed(src, Staged);
      if fault.Chmod? then Outcome([staging] + Tidy(env, Staged), false)
      else
        var rest := FinishSwap(hash, Apply(d, staging), d.files[src], version, fault, env);
        Outcome([staging] + rest.effects, rest.ok)
  }

  // ---- Revert, MarkHealthy, Status ----

  function Reverted(hash: Bytes -> string, content: Bytes, env: Env): string {
    Encode(DeployState(hash(content), hash(content), "reverted", env.now, PENDING))
  }

  // `readable` is whether .previous can be hashed.
  function Revert(hash: Bytes -> string, d: Disk, readable: bool, fault: CopyFault, env: Env): Outcome {
    if Previous !in d.files || !readable then Outcome([], false)
    else
      var content := d.files[Previous];
      var copy := Copy(content, Current, fault, env);
      if !copy.ok then copy
      else Outcome(copy.effects + Notes(Reverted(hash, content, env), env), true)
  }

  function Recorded(d: Disk): DeployState {
    match d.state case None => EMPTY case Some(text) => Parse(text)
  }

  function Healthy(hash: Bytes -> string, d: Disk, env: Env): DeployState {
    var s := Recorded(d);
    DeployState(if s.active == "" then HashOrNone(hash, d, Current, env.hashesCurrent) else s.active,
                if s.previous == "" then HashOrNone(hash, d, Previous, env.hashesPrevious) else s.previous,
                s.version,
                if s.deployedAt == 0 then env.now else s.deployedAt,
                HEALTHY)
  }

  function MarkHealthy(hash: Bytes -> string, d: Disk, readable: bool, env: Env): Outcome {
    if !readable || !env.writesState then Outcome([], false)
    else Outcome([StateWritten(Encode(Healthy(hash, d, env)))] + if env.removes then [MarkerRemoved] else [], env.removes)
  }

  datatype Report = Report(active: string, previous: string, health: string, deployedAt: int)

  // `readable` is whether the state file can be read, if there is one; without
  // it there is no report.
  function Status(hash: Bytes -> string, d: Disk, readable: bool, hashesCurrent: bool, hashesPrevious: bool): Option<Report> {
    var s := Recorded(d);
    if !readable then None
    else Some(Report(if s.active == "" then HashOrNone(hash, d, Current, hashesCurrent) else s.active,
                     if s.previous == "" then HashOrNone(hash, d, Previous, hashesPrevious) else s.previous,
                     if s.health == "" then PENDING else s.health,
                     s.deployedAt))
  }
}
