/**
 The server side of a resumable upload: one transfer, from the stream that opens
 it through checkpoints, broken streams, crashes and resumes to the rename that
 installs it.

 A command is the list of file operations it performs, so a crash leaves a
 prefix of that list; what survives the crash is then chosen from what the
 operations so far allow. SHA-256 is the parameter `hash`, and the rolling
 hasher is the byte sequence it has absorbed.
 */
module Upload {
  import opened Common
  import opened Text

  const CHECKPOINT_INTERVAL := 16 * 1024 * 1024

  // ---- The disk ----

  // Which name the upload's file has: none, the temp path, or the path a finish
  // step renamed it to, with the checksum that Final gave.
  datatype Place = Nowhere | AtTemp | Installed(staged: bool, sum: string)

  /**
   `content` is the file as the process sees it and `floor` the prefix a crash
   cannot take away; `clean` says that nothing changed since the last fsync.
   `places` and `states` hold what the two directories said since they were last
   fsynced, the current entry last; a crash may bring back any of them. A state
   entry is the committed offset in the state file. `target` and `staged` are the
   earlier contents of the two paths an upload may finish into. `binds` is a
   property of the file system: an fsync of a file makes its name durable too.
   */
  datatype Disk = Disk(content: Bytes, floor: Bytes, clean: bool, places: seq<Place>, states: seq<Option<nat>>,
                       backup: Option<Bytes>, target: Option<Bytes>, staged: Option<Bytes>, binds: bool)

  datatype Effect =
    | TempCreated
    | Appended(data: Bytes)
    | TempSynced
    | Truncated(size: nat)
    | TempUnlinked
    | StateSet(offset: nat)
    | StateDirSynced
    | StateRemoved
    | BackedUp(data: Bytes)
    | RenamedTo(place: Place)
    | DirSynced

  function Where(d: Disk): Place {
    if d.places == [] then Nowhere else d.places[|d.places| - 1]
  }

  // The committed offset a reader of the state file gets.
  function Offset(d: Disk): Option<nat> {
    if d.states == [] then None else d.states[|d.states| - 1]
  }

  // What the target path, or the staged one, holds.
  function Content(d: Disk, staged: bool): Option<Bytes> {
    if Where(d).Installed? && Where(d).staged == staged then Some(d.content)
    else if staged then d.staged else d.target
  }

  // What an fsync of the file leaves of its directory's history.
  function Bound(d: Disk): seq<Place> {
    if d.binds && Where(d).AtTemp? then [AtTemp] else d.places
  }

  function Zeros(n: nat): Bytes {
    seq(n, _ => 0 as Byte)
  }

  function Apply(d: Disk, e: Effect): Disk {
    match e
    case TempCreated => d.(content := [], floor := [], clean := false, places := d.places + [AtTemp])
    case Appended(data) => d.(content := d.content + data, clean := false)
    case TempSynced => d.(floor := d.content, clean := true, places := Bound(d))
    case Truncated(n) =>
      if n <= |d.content|
      then d.(content := d.content[..n], floor := d.floor[..Min(n, |d.floor|)], clean := false)
      else d.(content := d.content + Zeros(n - |d.content|), clean := false)
    case TempUnlinked => if Where(d).AtTemp? then d.(places := d.places + [Nowhere]) else d
    case StateSet(offset) => d.(states := d.states + [Some(offset)])
    case StateDirSynced => d.(states := [Offset(d)])
    case StateRemoved => d.(states := d.states + [None])
    case BackedUp(data) => d.(backup := Some(data))
    case RenamedTo(place) => if Where(d).AtTemp? then d.(places := d.places + [place]) else d
    case DirSynced => d.(places := [Where(d)])
  }

  function Replay(d: Disk, effects: seq<Effect>): Disk
    decreases effects
  {
    if effects == [] then d else Replay(Apply(d, effects[0]), effects[1..])
  }

  // What a crash left of the disk. A crash of the daemon alone keeps everything.
  datatype Recovery = Recovery(content: Bytes, place: Place, state: Option<nat>)

  predicate CanLeave(d: Disk, r: Recovery) {
    && d.floor <= r.content && (d.clean ==> r.content == d.content)
    && r.place in d.places && r.state in d.states
  }

  function Recovered(d: Disk, r: Recovery): Disk {
    d.(content := r.content, places := [r.place], states := [r.state])
  }

  // ---- The server's memory ----

  // writeTransfer: the offset the next chunk must have, the offset of the last
  // checkpoint, and the hasher. The file position is the end of the file.
  datatype Live = Live(committed: nat, lastChkpt: nat, absorbed: Bytes)

  /**
   `sent` is the client's side: the bytes it has sent at the offsets the server
   asked for. `acked` is the last offset the server acknowledged.
   */
  datatype Sys = Sys(disk: Disk, live: Option<Live>, begun: bool, sent: Bytes, acked: nat)

  function Fresh(binds: bool, target: Option<Bytes>, staged: Option<Bytes>): Sys {
    Sys(Disk([], [], true, [Nowhere], [None], None, target, staged, binds), None, false, [], 0)
  }

  datatype Reply =
    | NoStream
    | Failed
    | Ack(resumed: bool, committed: nat)
    | DataAck(offset: nat)
    | Terminal(sum: string, total: nat, backedUp: bool)

  datatype Outcome = Outcome(effects: seq<Effect>, live: Option<Live>, reply: Reply)

  // ---- Outcomes the environment chooses ----

  // An atomic write: done, renamed with the directory fsync failed, or not done.
  datatype Save = Saved | Unsynced | Unsaved

  // Whether the removals of cleanup succeed.
  datatype Tidy = Tidy(unlinks: bool, removes: bool)

  datatype FinishStep = Unspecified | Replace | SnapshotThenReplace | Stage

  datatype ChunkIn = ChunkIn(offset: nat, data: Bytes, written: bool, partial: nat, synced: bool, save: Save,
                             acks: bool, tidy: Tidy)

  datatype ResumeIn = ResumeIn(ready: bool, opens: bool, truncates: bool, rehashes: bool, acks: bool, tidy: Tidy)

  datatype FinishIn = FinishIn(sum: string, step: FinishStep, synced: bool, closes: bool, readable: bool, backs: Save,
                               renames: bool, dirSynced: bool, tidy: Tidy, sends: bool)

  // RecvError is a broken stream, Abort a cancelled one or a body that does not
  // belong there, Cancel the separate call.
  datatype Command =
    | Open(creates: bool, save: Save, acks: bool, tidy: Tidy)
    | Chunk(chunk: ChunkIn)
    | RecvError(synced: bool, save: Save)
    | Abort(tidy: Tidy)
    | Resume(resume: ResumeIn)
    | Finish(finish: FinishIn)
    | Cancel(tidy: Tidy)

  function Saving(offset: nat, save: Save): seq<Effect> {
    match save
    case Saved => [StateSet(offset), StateDirSynced]
    case Unsynced => [StateSet(offset)]
    case Unsaved => []
  }

  function Persist(offset: nat, synced: bool, save: Save): seq<Effect> {
    if synced then [TempSynced] + Saving(offset, save) else []
  }

  function Cleanup(t: Tidy): seq<Effect> {
    (if t.unlinks then [TempUnlinked] else []) + (if t.removes then [StateRemoved] else [])
  }

  // A stream that ends in an error and removes what it had.
  function GivingUp(effects: seq<Effect>, t: Tidy): Outcome {
    Outcome(effects + Cleanup(t), None, Failed)
  }

  // ---- openWriteState ----

  function OpenWrite(creates: bool, save: Save, acks: bool, tidy: Tidy): Outcome {
    if !creates then Outcome([], None, Failed)
    else
      var made := [TempCreated] + Saving(0, save);
      if !save.Saved? then Outcome(made + (if tidy.unlinks then [TempUnlinked] else []), None, Failed)
      else if !acks then GivingUp(made, tidy)
      else Outcome(made, Some(Live(0, 0, [])), Ack(false, 0))
  }

  // ---- resumeWriteState ----

  function ResumeWrite(d: Disk, x: ResumeIn): Outcome {
    if !x.ready || Offset(d).None? || !Where(d).AtTemp? || !x.opens || !x.truncates then Outcome([], None, Failed)
    else
      var k := Offset(d).value;
      if k > 0 && !x.rehashes then Outcome([Truncated(k)], None, Failed)
      else if !x.acks then GivingUp([Truncated(k)], x.tidy)
      else Outcome([Truncated(k)], Some(Live(k, k, Apply(d, Truncated(k)).content[..k])), Ack(true, k))
  }

  // ---- writeChunk and the data ack ----

  predicate Due(m: Live, x: ChunkIn) {
    m.committed + |x.data| - m.lastChkpt >= CHECKPOINT_INTERVAL
  }

  // A written chunk, and the checkpoint after it when one is due.
  function Writing(m: Live, x: ChunkIn): seq<Effect> {
    [Appended(x.data)] + if Due(m, x) then Persist(m.committed + |x.data|, x.synced, x.save) else []
  }

  function WriteChunk(m: Live, x: ChunkIn): Outcome {
    if x.offset != m.committed then GivingUp([], x.tidy)
    else if !x.written then GivingUp([Appended(x.data[..Min(x.partial, |x.data|)])], x.tidy)
    else if (Due(m, x) && !(x.synced && x.save.Saved?)) || !x.acks then GivingUp(Writing(m, x), x.tidy)
    else
      var committed := m.committed + |x.data|;
      Outcome(Writing(m, x), Some(Live(committed, if Due(m, x) then committed else m.lastChkpt, m.absorbed + x.data)),
              DataAck(committed))
  }

  // ---- finalizeWrite ----

  function Renaming(place: Place, x: FinishIn): seq<Effect> {
    if !x.renames then [] else [RenamedTo(place)] + if x.dirSynced then [DirSynced] else []
  }

  // snapshotThenReplace's copy of the target; without a target there is none.
  function BackingUp(d: Disk, x: FinishIn): seq<Effect> {
    if x.step.SnapshotThenReplace? && x.readable && Content(d, false).Some? && !x.backs.Unsaved?
    then [BackedUp(Content(d, false).value)] else []
  }

  predicate BackupWorks(d: Disk, x: FinishIn) {
    x.step.SnapshotThenReplace? ==> x.readable && (Content(d, false).Some? ==> x.backs.Saved?)
  }

  predicate FinishWorks(d: Disk, x: FinishIn) {
    !x.step.Unspecified? && BackupWorks(d, x) && x.renames && Where(d).AtTemp? && x.dirSynced
  }

  // The finish step's own operations.
  function Finishing(d: Disk, x: FinishIn): seq<Effect> {
    if x.step.Unspecified? then []
    else if !BackupWorks(d, x) then BackingUp(d, x)
    else BackingUp(d, x) + if Where(d).AtTemp? then Renaming(Installed(x.step.Stage?, x.sum), x) else []
  }

  function FinalizeWrite(hash: Bytes -> string, d: Disk, m: Live, x: FinishIn): Outcome {
    if !EqualFold(hash(m.absorbed), x.sum) || !x.synced then GivingUp([], x.tidy)
    else if !x.closes then GivingUp([TempSynced], x.tidy)
    else
      var effects := [TempSynced] + Finishing(d, x);
      if !FinishWorks(d, x) then GivingUp(effects, x.tidy)
      else Outcome(effects + (if x.tidy.removes then [StateRemoved] else []), None,
                   if x.sends then Terminal(hash(m.absorbed), m.committed, BackingUp(d, x) != []) else Failed)
  }

  // ---- Commands ----

  // One stream at a time: Open and Resume need that there is none, the others
  // that there is one. Cancel does not care.
  function Run(hash: Bytes -> string, s: Sys, c: Command): Outcome {
    match c
    case Open(creates, save, acks, tidy) =>
      if s.begun then Outcome([], s.live, NoStream) else OpenWrite(creates, save, acks, tidy)
    case Resume(x) =>
      if s.live.Some? || !s.begun then Outcome([], s.live, NoStream) else ResumeWrite(s.disk, x)
    case Cancel(tidy) =>
      Outcome(if Offset(s.disk).None? then [] else Cleanup(tidy), s.live, NoStream)
    case Chunk(x) => if s.live.None? then Idle() else WriteChunk(s.live.value, x)
    case RecvError(synced, save) =>
      if s.live.None? then Idle() else Outcome(Persist(s.live.value.committed, synced, save), None, Failed)
    case Abort(tidy) => if s.live.None? then Idle() else GivingUp([], tidy)
    case Finish(x) => if s.live.None? then Idle() else FinalizeWrite(hash, s.disk, s.live.value, x)
  }

  function Idle(): Outcome {
    Outcome([], None, NoStream)
  }

  // What the client has sent once it has issued the command.
  function Sending(s: Sys, c: Command): Bytes {
    if c.Chunk? && s.live.Some? && c.chunk.offset == s.live.value.committed then s.sent + c.chunk.data else s.sent
  }

  // A client that resumes goes on from the offset it is given.
  function Sent(sent: Bytes, r: Reply): Bytes {
    if r.Ack? then sent[..Min(r.committed, |sent|)] else sent
  }

  function Acked(acked: nat, r: Reply): nat {
    match r
    case Ack(_, committed) => committed
    case DataAck(offset) => offset
    case _ => acked
  }

  // A command runs to its end, or a crash stops it after `cut` operations.
  datatype Event = Done(command: Command) | Crashed(command: Command, cut: nat, left: Recovery)

  function AtCrash(hash: Bytes -> string, s: Sys, c: Command, cut: nat): Disk {
    var effects := Run(hash, s, c).effects;
    Replay(s.disk, effects[..Min(cut, |effects|)])
  }

  predicate Possible(hash: Bytes -> string, s: Sys, e: Event) {
    e.Crashed? ==> CanLeave(AtCrash(hash, s, e.command, e.cut), e.left)
  }

  function Next(hash: Bytes -> string, s: Sys, e: Event): Sys {
    var begun := s.begun || e.command.Open?;
    var sent := Sending(s, e.command);
    match e
    case Done(c) =>
      var r := Run(hash, s, c);
      Sys(Replay(s.disk, r.effects), r.live, begun, Sent(sent, r.reply), Acked(s.acked, r.reply))
    case Crashed(c, cut, left) =>
      Sys(Recovered(AtCrash(hash, s, c, cut), left), None, begun, sent, s.acked)
  }

  function After(hash: Bytes -> string, s: Sys, events: seq<Event>): Sys
    decreases events
  {
    if events == [] then s else After(hash, Next(hash, s, events[0]), events[1..])
  }

  predicate Feasible(hash: Bytes -> string, s: Sys, events: seq<Event>)
    decreases events
  {
    events == [] || (Possible(hash, s, events[0]) && Feasible(hash, Next(hash, s, events[0]), events[1..]))
  }
}
