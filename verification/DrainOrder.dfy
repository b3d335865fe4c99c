/**
 What a client that stays attached while the chardev is re-opened receives, across
 the sessions: exactly when its stream is in order and without a gap.
 */
module DrainOrder {
  import opened Common
  import opened Drain
  import opened DrainProofs

  // A chunk, named by its session; within a session serials tell chunks apart.
  datatype Id = Id(session: nat, chunk: Chunk)

  // The writes to c, in the order they returned.
  function Seen(log: seq<Write>, c: nat): seq<Id> {
    if log == [] then []
    else
      var w := log[|log| - 1];
      Seen(log[..|log| - 1], c) + if w.sent.conn == c then [Id(w.session, w.sent.chunk)] else []
  }

  // The bytes c received, in the order it received them.
  function Received(log: seq<Write>, c: nat): Bytes {
    if log == [] then [] else Received(log[..|log| - 1], c) + Arrived(log[|log| - 1].sent, c)
  }

  function Tag(i: nat, cs: seq<Chunk>): seq<Id> {
    seq(|cs|, k requires 0 <= k < |cs| => Id(i, cs[k]))
  }

  // Everything stamped e, session after session.
  function Expected(sessions: seq<Session>, e: nat): seq<Id> {
    if sessions == [] then []
    else
      var n := |sessions| - 1;
      Expected(sessions[..n], e) + Tag(n, For(sessions[n].stamped, e))
  }

  function ExpectedBytes(sessions: seq<Session>, e: nat): Bytes {
    if sessions == [] then []
    else ExpectedBytes(sessions[..|sessions| - 1], e) + Stream(sessions[|sessions| - 1].stamped, e)
  }

  // One session's part.
  function Only(ids: seq<Id>, i: nat): seq<Chunk> {
    if ids == [] then []
    else
      var x := ids[|ids| - 1];
      Only(ids[..|ids| - 1], i) + if x.session == i then [x.chunk] else []
  }

  function Mine(log: seq<Write>, i: nat): seq<Sent> {
    if log == [] then []
    else
      var w := log[|log| - 1];
      Mine(log[..|log| - 1], i) + if w.session == i then [w.sent] else []
  }

  // ---- Sequences of chunks by session ----

  lemma OnlySnoc(ids: seq<Id>, x: Id, i: nat)
    ensures Only(ids + [x], i) == Only(ids, i) + if x.session == i then [x.chunk] else []
  {
    assert (ids + [x])[..|ids + [x]| - 1] == ids;
  }

  lemma {:induction false} OnlyConcat(a: seq<Id>, b: seq<Id>, i: nat)
    ensures Only(a + b, i) == Only(a, i) + Only(b, i)
  {
    if b == [] {
      assert a + b == a;
    } else {
      var n := |b| - 1;
      assert (a + b)[..|a + b| - 1] == a + b[..n];
      OnlyConcat(a, b[..n], i);
      Associates(Only(a, i), Only(b[..n], i), if b[n].session == i then [b[n].chunk] else []);
    }
  }

  lemma {:induction false} OnlyTag(j: nat, cs: seq<Chunk>, i: nat)
    ensures Only(Tag(j, cs), i) == if i == j then cs else []
  {
    if cs != [] {
      var n := |cs| - 1;
      assert Tag(j, cs) == Tag(j, cs[..n]) + [Id(j, cs[n])];
      OnlyTag(j, cs[..n], i);
      OnlySnoc(Tag(j, cs[..n]), Id(j, cs[n]), i);
    }
  }

  lemma {:induction false} ExpectedOnly(ss: seq<Session>, e: nat, i: nat)
    ensures Only(Expected(ss, e), i) == if i < |ss| then For(ss[i].stamped, e) else []
  {
    if ss != [] {
      var n := |ss| - 1;
      var last := For(ss[n].stamped, e);
      ExpectedOnly(ss[..n], e, i);
      OnlyConcat(Expected(ss[..n], e), Tag(n, last), i);
      OnlyTag(n, last, i);
      if i < n {
        assert ss[..n][i] == ss[i];
      }
    }
  }

  lemma {:induction false} ExpectedSessions(ss: seq<Session>, e: nat, p: nat)
    requires p < |Expected(ss, e)|
    ensures Expected(ss, e)[p].session < |ss|
  {
    var n := |ss| - 1;
    if p < |Expected(ss[..n], e)| {
      ExpectedSessions(ss[..n], e, p);
    }
  }

  lemma CutConcat<T>(a: seq<T>, b: seq<T>, q: nat)
    requires q <= |a + b|
    ensures q <= |a| ==> (a + b)[..q] == a[..q]
    ensures q >= |a| ==> (a + b)[..q] == a + b[..q - |a|]
    ensures q < |a| ==> (a + b)[q] == a[q]
    ensures |a| <= q < |a + b| ==> (a + b)[q] == b[q - |a|]
  {
  }

  lemma CutTag(n: nat, cs: seq<Chunk>, k: nat)
    requires k <= |cs|
    ensures Tag(n, cs)[..k] == Tag(n, cs[..k])
    ensures k < |cs| ==> Tag(n, cs)[k] == Id(n, cs[k])
  {
  }

  // The first q of all, when the n-th session's chunks begin at `start` and q is
  // among them; `earlier` are those of an earlier session i.
  predicate ReachesInto(all: seq<Id>, start: nat, n: nat, last: seq<Chunk>, q: nat, i: nat, earlier: seq<Chunk>)
    requires start <= q <= |all|
  {
    && q - start <= |last|
    && Only(all[..q], i) == (if i < n then earlier else if i == n then last[..q - start] else [])
    && (q < |all| ==> q - start < |last| && all[q] == Id(n, last[q - start]))
  }

  // The first q expected when they reach into the last session.
  lemma LastBlock(ss: seq<Session>, e: nat, q: nat, i: nat)
    requires ss != [] && |Expected(ss[..|ss| - 1], e)| <= q <= |Expected(ss, e)|
    ensures ReachesInto(Expected(ss, e), |Expected(ss[..|ss| - 1], e)|, |ss| - 1, For(ss[|ss| - 1].stamped, e), q, i,
                        if i < |ss| - 1 then For(ss[i].stamped, e) else [])
  {
    var n := |ss| - 1;
    var before, last := Expected(ss[..n], e), For(ss[n].stamped, e);
    var k := q - |before|;
    CutConcat(before, Tag(n, last), q);
    CutTag(n, last, k);
    OnlyConcat(before, Tag(n, last[..k]), i);
    ExpectedOnly(ss[..n], e, i);
    OnlyTag(n, last[..k], i);
  }

  // The first q expected when they do not.
  lemma EarlierBlock(ss: seq<Session>, e: nat, q: nat)
    requires ss != [] && q <= |Expected(ss[..|ss| - 1], e)|
    ensures q <= |Expected(ss, e)| && Expected(ss, e)[..q] == Expected(ss[..|ss| - 1], e)[..q]
    ensures q < |Expected(ss[..|ss| - 1], e)| ==>
              q < |Expected(ss, e)| && Expected(ss, e)[q] == Expected(ss[..|ss| - 1], e)[q]
  {
    var n := |ss| - 1;
    CutConcat(Expected(ss[..n], e), Tag(n, For(ss[n].stamped, e)), q);
  }

  // What stands before an entry is all of the earlier sessions.
  lemma {:induction false} BlockBefore(ss: seq<Session>, e: nat, p: nat, i: nat)
    requires p < |Expected(ss, e)| && i < Expected(ss, e)[p].session
    ensures i < |ss| && Only(Expected(ss, e)[..p], i) == For(ss[i].stamped, e)
  {
    var n := |ss| - 1;
    if p < |Expected(ss[..n], e)| {
      EarlierBlock(ss, e, p);
      BlockBefore(ss[..n], e, p, i);
    } else {
      LastBlock(ss, e, p, i);
    }
  }

  // An entry's own session is not complete before it.
  lemma {:induction false} BlockAt(ss: seq<Session>, e: nat, q: nat, i: nat)
    requires q < |Expected(ss, e)| && i == Expected(ss, e)[q].session && i < |ss|
    ensures |Only(Expected(ss, e)[..q], i)| < |For(ss[i].stamped, e)|
  {
    var n := |ss| - 1;
    if q < |Expected(ss[..n], e)| {
      EarlierBlock(ss, e, q);
      ExpectedSessions(ss[..n], e, q);
      BlockAt(ss[..n], e, q, i);
      assert ss[..n][i] == ss[i];
    } else {
      LastBlock(ss, e, q, i);
    }
  }

  // If the first q expected hold all of the sessions before the last, they reach
  // into the last.
  lemma ReachesLast(ss: seq<Session>, e: nat, q: nat)
    requires ss != [] && q <= |Expected(ss, e)|
    requires forall i: nat :: i < |ss| - 1 ==> Only(Expected(ss, e)[..q], i) == For(ss[i].stamped, e)
    ensures q >= |Expected(ss[..|ss| - 1], e)|
  {
    var n := |ss| - 1;
    if q < |Expected(ss[..n], e)| {
      EarlierBlock(ss, e, q);
      var i := Expected(ss, e)[q].session;
      ExpectedSessions(ss[..n], e, q);
      BlockAt(ss, e, q, i);
      assert false;
    }
  }

  // If they do not hold all of an earlier session, they do not.
  lemma StaysEarlier(ss: seq<Session>, e: nat, q: nat, j: nat)
    requires ss != [] && q <= |Expected(ss, e)| && j < |ss| - 1
    requires |Only(Expected(ss, e)[..q], j)| < |For(ss[j].stamped, e)|
    ensures q < |Expected(ss[..|ss| - 1], e)|
  {
    if q >= |Expected(ss[..|ss| - 1], e)| {
      LastBlock(ss, e, q, j);
    }
  }

  // If the first q expected hold all of the sessions before j and not all of j,
  // the next one is j's next chunk.
  lemma {:induction false} NextExpected(ss: seq<Session>, e: nat, q: nat, j: nat, c: Chunk)
    requires q <= |Expected(ss, e)| && j < |ss|
    requires forall i: nat :: i < j ==> Only(Expected(ss, e)[..q], i) == For(ss[i].stamped, e)
    requires Only(Expected(ss, e)[..q], j) + [c] <= For(ss[j].stamped, e)
    ensures q < |Expected(ss, e)| && Expected(ss, e)[q] == Id(j, c)
  {
    var n := |ss| - 1;
    if j < n {
      StaysEarlier(ss, e, q, j);
      EarlierBlock(ss, e, q);
      NextExpected(ss[..n], e, q, j, c);
    } else {
      ReachesLast(ss, e, q);
      LastBlock(ss, e, q, n);
    }
  }

  // Each entry comes when the earlier sessions are complete.
  ghost predicate OnTime(ids: seq<Id>, ss: seq<Session>, e: nat) {
    forall p: nat, i: nat :: p < |ids| && i < ids[p].session ==> CompleteAt(ids, ss, e, p, i)
  }

  predicate CompleteAt(ids: seq<Id>, ss: seq<Session>, e: nat, p: nat, i: nat) {
    i < |ss| && p <= |ids| && Only(ids[..p], i) == For(ss[i].stamped, e)
  }

  lemma PrefixIsOnTime(ids: seq<Id>, ss: seq<Session>, e: nat)
    requires ids <= Expected(ss, e)
    ensures OnTime(ids, ss, e)
  {
    forall p: nat, i: nat | p < |ids| && i < ids[p].session ensures CompleteAt(ids, ss, e, p, i) {
      assert ids[..p] == Expected(ss, e)[..p] && ids[p] == Expected(ss, e)[p];
      BlockBefore(ss, e, p, i);
    }
  }

  // The session by session parts are prefixes of what is expected of each.
  ghost predicate PartsOk(ids: seq<Id>, ss: seq<Session>, e: nat) {
    && (forall p: nat :: p < |ids| ==> ids[p].session < |ss|)
    && (forall i: nat :: i < |ss| ==> Only(ids, i) <= For(ss[i].stamped, e))
  }

  lemma {:induction false} OnTimeIsPrefix(ids: seq<Id>, ss: seq<Session>, e: nat)
    requires OnTime(ids, ss, e) && PartsOk(ids, ss, e)
    ensures ids <= Expected(ss, e)
  {
    if ids != [] {
      var q := |ids| - 1;
      var front, x := ids[..q], ids[q];
      assert ids == front + [x];
      FrontOk(ids, ss, e);
      OnTimeIsPrefix(front, ss, e);
      assert front == Expected(ss, e)[..q];
      OnlySnoc(front, x, x.session);
      forall i: nat | i < x.session ensures Only(Expected(ss, e)[..q], i) == For(ss[i].stamped, e) {
        assert CompleteAt(ids, ss, e, q, i);
      }
      NextExpected(ss, e, q, x.session, x.chunk);
    }
  }

  lemma FrontOk(ids: seq<Id>, ss: seq<Session>, e: nat)
    requires OnTime(ids, ss, e) && PartsOk(ids, ss, e) && ids != []
    ensures OnTime(ids[..|ids| - 1], ss, e) && PartsOk(ids[..|ids| - 1], ss, e)
  {
    var q := |ids| - 1;
    var front := ids[..q];
    forall p: nat, i: nat | p < q && i < front[p].session ensures CompleteAt(front, ss, e, p, i) {
      assert CompleteAt(ids, ss, e, p, i);
      assert front[..p] == ids[..p];
    }
    forall i: nat | i < |ss| ensures Only(front, i) <= For(ss[i].stamped, e) {
      assert ids == front + [ids[q]];
      OnlySnoc(front, ids[q], i);
      PrefixOfSum(Only(front, i), if ids[q].session == i then [ids[q].chunk] else []);
      PrefixTrans(Only(front, i), Only(ids, i), For(ss[i].stamped, e));
    }
  }

  lemma OnTimeSnoc(ids: seq<Id>, x: Id, ss: seq<Session>, e: nat)
    ensures OnTime(ids + [x], ss, e) <==>
            OnTime(ids, ss, e) && forall i: nat :: i < x.session ==> CompleteAt(ids, ss, e, |ids|, i)
  {
    var all := ids + [x];
    forall p: nat, i: nat | p <= |ids| ensures CompleteAt(all, ss, e, p, i) <==> CompleteAt(ids, ss, e, p, i) {
      assert all[..p] == ids[..p];
    }
    forall p: nat | p < |ids| ensures all[p] == ids[p] {}
    assert all[|ids|] == x;
    if OnTime(all, ss, e) {
      forall p: nat, i: nat | p < |ids| && i < ids[p].session ensures CompleteAt(ids, ss, e, p, i) {
        assert CompleteAt(all, ss, e, p, i);
      }
      forall i: nat | i < x.session ensures CompleteAt(ids, ss, e, |ids|, i) {
        assert CompleteAt(all, ss, e, |ids|, i);
      }
    }
  }

  // ---- The log against the sessions ----

  ghost predicate LogOk(s: Relay) {
    && (forall w :: w in s.log ==> w.session < |s.sessions|)
    && (forall i: nat :: i < |s.sessions| ==> Mine(s.log, i) == s.sessions[i].sent)
  }

  lemma {:induction false} MineNone(log: seq<Write>, i: nat)
    requires forall w :: w in log ==> w.session != i
    ensures Mine(log, i) == []
  {
    if log != [] {
      MineNone(log[..|log| - 1], i);
    }
  }

  lemma MineSnoc(log: seq<Write>, w: Write, i: nat)
    ensures Mine(log + [w], i) == Mine(log, i) + if w.session == i then [w.sent] else []
  {
    assert (log + [w])[..|log + [w]| - 1] == log;
  }

  lemma LogKeeps(s: Relay, step: Step)
    requires LogOk(s) && Enabled(s, step)
    ensures LogOk(Next(s, step))
  {
    var s' := Next(s, step);
    if step.Act? {
      var ws := Returned(step.session, s.sessions[step.session], step.action);
      assert s.log + [] == s.log;
      if ws != [] {
        assert ws == [ws[0]];
        forall i: nat | i < |s'.sessions| ensures Mine(s'.log, i) == s'.sessions[i].sent {
          MineSnoc(s.log, ws[0], i);
        }
      }
    } else if step.OpenSession? {
      MineNone(s.log, |s.sessions|);
    }
  }

  lemma {:induction false} SeenOnly(log: seq<Write>, c: nat, i: nat)
    ensures Only(Seen(log, c), i) == To(Mine(log, i), c)
  {
    if log != [] {
      var n := |log| - 1;
      var w := log[n];
      var x := Id(w.session, w.sent.chunk);
      SeenOnly(log[..n], c, i);
      if w.sent.conn == c {
        OnlySnoc(Seen(log[..n], c), x, i);
      } else {
        assert Seen(log[..n], c) + [] == Seen(log[..n], c);
      }
      if w.session == i {
        ToSnoc(Mine(log[..n], i), w.sent, c);
      } else {
        assert Mine(log[..n], i) + [] == Mine(log[..n], i);
      }
    }
  }

  lemma {:induction false} SeenSessions(log: seq<Write>, c: nat, n: nat)
    requires forall w :: w in log ==> w.session < n
    ensures forall p: nat :: p < |Seen(log, c)| ==> Seen(log, c)[p].session < n
  {
    if log != [] {
      SeenSessions(log[..|log| - 1], c, n);
      assert log[|log| - 1] in log;
    }
  }

  // ---- Along an execution ----

  lemma {:induction false} RunKeeps(states: seq<Relay>, steps: seq<Step>)
    requires Execution(states, steps)
    ensures forall s :: s in states ==> LogOk(s)
    ensures forall s :: s in states ==> Inv(s)
  {
    ExecutionKeeps(states, steps);
    if steps == [] {
      assert states == [INIT];
    } else {
      var n := |steps| - 1;
      RunKeeps(states[..n + 1], steps[..n]);
      assert states[n] in states[..n + 1];
      LogKeeps(states[n], steps[n]);
      assert states == states[..n + 1] + [states[n + 1]];
    }
  }

  // A session only ever stamps more, and the epoch only grows.
  lemma StepGrows(s: Relay, step: Step, i: nat, e: nat)
    requires Enabled(s, step) && i < |s.sessions|
    ensures s.hub.epoch <= Next(s, step).hub.epoch && |s.sessions| <= |Next(s, step).sessions|
    ensures For(s.sessions[i].stamped, e) <= For(Next(s, step).sessions[i].stamped, e)
  {
    if step.Act? && step.session == i && step.action.Stamp? {
      var t := s.sessions[i];
      ForSnoc(t.stamped, Chunk(t.reader.data, s.hub.epoch, |t.stamped|), e);
    }
  }

  // A session whose stream is live after a step that swaps nothing was so before.
  lemma StepLives(s: Relay, step: Step, i: nat, e: nat)
    requires Inv(s) && Enabled(s, step) && i < |s.sessions| && s.hub.epoch == e
    requires Live(Next(s, step).hub, Next(s, step).sessions[i], e)
    ensures Live(s.hub, s.sessions[i], e)
  {
  }

  // So the sessions at step k, against those at the end.
  lemma {:induction false} GrowsTo(states: seq<Relay>, steps: seq<Step>, k: nat, m: nat, i: nat, e: nat)
    requires Execution(states, steps) && k <= m <= |steps| && i < |states[k].sessions|
    ensures states[k].hub.epoch <= states[m].hub.epoch && i < |states[m].sessions|
    ensures For(states[k].sessions[i].stamped, e) <= For(states[m].sessions[i].stamped, e)
    ensures states[k].hub.epoch == e && Live(states[m].hub, states[m].sessions[i], e) && states[m].hub.epoch == e ==>
              Live(states[k].hub, states[k].sessions[i], e)
    decreases m - k
  {
    RunKeeps(states, steps);
    if k < m {
      assert states[k] in states;
      StepGrows(states[k], steps[k], i, e);
      if states[k].hub.epoch == e && Live(states[k + 1].hub, states[k + 1].sessions[i], e) {
        StepLives(states[k], steps[k], i, e);
      }
      GrowsTo(states, steps, k + 1, m, i, e);
      PrefixTrans(For(states[k].sessions[i].stamped, e), For(states[k + 1].sessions[i].stamped, e),
                  For(states[m].sessions[i].stamped, e));
    }
  }

  // Step k is a write to e by session j that returns.
  predicate WritesTo(s: Relay, step: Step, e: nat, j: nat) {
    && step.Act? && step.session == j && (step.action.WriteOk? || step.action.WriteError?)
    && j < |s.sessions| && s.sessions[j].writer.Writing? && s.sessions[j].writer.conn == e
  }

  // Every session before j is through with e: nothing of it is on its way, and it
  // stamps nothing more for it up to `last`.
  predicate EarlierDone(s: Relay, j: nat, last: Relay, e: nat) {
    forall i | 0 <= i < j :: DoneWith(s, i, last, e)
  }

  predicate DoneWith(s: Relay, i: nat, last: Relay, e: nat) {
    && i < |s.sessions| && i < |last.sessions|
    && Flight(s.sessions[i], e) == [] && For(s.sessions[i].stamped, e) == For(last.sessions[i].stamped, e)
  }

  // The client e, attached at the end, and no write to it left failed.
  ghost predicate Attached(s: Relay, e: nat) {
    s.hub.client == Some(e) && forall t :: t in s.sessions ==> t.writer != WriteFailed(e)
  }

  // At a step that writes to e, a session is through with e exactly when all that
  // it will ever have stamped for it has been written.
  lemma DoneIsComplete(states: seq<Relay>, steps: seq<Step>, k: nat, j: nat, i: nat, e: nat)
    requires Execution(states, steps) && k < |steps| && Attached(states[|steps|], e)
    requires WritesTo(states[k], steps[k], e, j) && i < j
    ensures var ids := Seen(states[k].log, e);
            DoneWith(states[k], i, states[|steps|], e) <==> CompleteAt(ids, states[|steps|].sessions, e, |ids|, i)
  {
    var s, last := states[k], states[|steps|];
    RunKeeps(states, steps);
    assert s in states && last in states;
    assert SessionInv(s.hub, s.sessions[j], s.acceptor.Flushing?);
    assert e <= s.hub.epoch;
    GrowsTo(states, steps, k, |steps|, i, e);
    assert last.sessions[i] in last.sessions && last.hub.epoch == e;
    assert Live(s.hub, s.sessions[i], e);
    assert SessionInv(s.hub, s.sessions[i], s.acceptor.Flushing?);
    SeenOnly(s.log, e, i);
    var ids := Seen(s.log, e);
    assert ids[..|ids|] == ids;
    assert Only(ids, i) == To(s.sessions[i].sent, e);
    SumIsWhole(To(s.sessions[i].sent, e), Flight(s.sessions[i], e), For(last.sessions[i].stamped, e));
  }

  lemma SumIsWhole<T>(a: seq<T>, b: seq<T>, whole: seq<T>)
    requires a + b <= whole
    ensures a == whole <==> b == [] && a + b == whole
  {
  }

  // What a step adds to what e has seen.
  lemma StepSees(s: Relay, step: Step, e: nat)
    requires Enabled(s, step)
    ensures if step.Act? && WritesTo(s, step, e, step.session)
            then Seen(Next(s, step).log, e) == Seen(s.log, e) + [Id(step.session, s.sessions[step.session].writer.chunk)]
            else Seen(Next(s, step).log, e) == Seen(s.log, e)
  {
    assert s.log + [] == s.log;
    if step.Act? {
      var ws := Returned(step.session, s.sessions[step.session], step.action);
      if ws != [] {
        assert ws == [ws[0]] && (s.log + ws)[..|s.log + ws| - 1] == s.log;
        assert Seen(s.log, e) + [] == Seen(s.log, e);
      }
    }
  }

  // Up to step m, what e has seen came on time exactly when at each write to it
  // every earlier session was through with it.
  lemma {:induction false} OnTimeSteps(states: seq<Relay>, steps: seq<Step>, m: nat, e: nat)
    requires Execution(states, steps) && m <= |steps| && Attached(states[|steps|], e)
    ensures OnTime(Seen(states[m].log, e), states[|steps|].sessions, e) <==>
            forall k: nat, j: nat :: k < m && WritesTo(states[k], steps[k], e, j) ==>
              EarlierDone(states[k], j, states[|steps|], e)
  {
    if m > 0 {
      var k := m - 1;
      OnTimeSteps(states, steps, k, e);
      StepSees(states[k], steps[k], e);
      if steps[k].Act? && WritesTo(states[k], steps[k], e, steps[k].session) {
        OneWrite(states, steps, k, e);
      }
    }
  }

  lemma OneWrite(states: seq<Relay>, steps: seq<Step>, k: nat, e: nat)
    requires Execution(states, steps) && k < |steps| && Attached(states[|steps|], e)
    requires steps[k].Act? && WritesTo(states[k], steps[k], e, steps[k].session)
    ensures OnTime(Seen(states[k + 1].log, e), states[|steps|].sessions, e) <==>
            OnTime(Seen(states[k].log, e), states[|steps|].sessions, e)
            && EarlierDone(states[k], steps[k].session, states[|steps|], e)
  {
    var j, ids, ss := steps[k].session, Seen(states[k].log, e), states[|steps|].sessions;
    var x := Id(j, states[k].sessions[j].writer.chunk);
    StepSees(states[k], steps[k], e);
    OnTimeSnoc(ids, x, ss, e);
    forall i: nat | i < j ensures DoneWith(states[k], i, states[|steps|], e) <==> CompleteAt(ids, ss, e, |ids|, i) {
      DoneIsComplete(states, steps, k, j, i, e);
    }
  }

  lemma SeenParts(states: seq<Relay>, steps: seq<Step>, e: nat)
    requires Execution(states, steps) && Attached(states[|steps|], e)
    ensures PartsOk(Seen(states[|steps|].log, e), states[|steps|].sessions, e)
    ensures forall w :: w in states[|steps|].log && w.sent.conn == e ==> w.sent.count == |w.sent.chunk.data|
  {
    var s := states[|steps|];
    RunKeeps(states, steps);
    assert s in states;
    SeenSessions(s.log, e, |s.sessions|);
    forall i: nat | i < |s.sessions|
      ensures Only(Seen(s.log, e), i) <= For(s.sessions[i].stamped, e)
      ensures forall x :: x in Mine(s.log, i) && x.conn == e ==> x.count == |x.chunk.data|
    {
      assert s.sessions[i] in s.sessions;
      assert SessionInv(s.hub, s.sessions[i], s.acceptor.Flushing?);
      assert Live(s.hub, s.sessions[i], e);
      SeenOnly(s.log, e, i);
      PrefixOfSum(To(s.sessions[i].sent, e), Flight(s.sessions[i], e));
    }
    forall w | w in s.log && w.sent.conn == e ensures w.sent.count == |w.sent.chunk.data| {
      InMine(s.log, w);
    }
  }

  lemma {:induction false} InMine(log: seq<Write>, w: Write)
    requires w in log
    ensures w.sent in Mine(log, w.session)
  {
    if log[|log| - 1] != w {
      InMine(log[..|log| - 1], w);
    }
  }

  // For every execution and the client attached at its end: over all the sessions
  // the chardev has been opened for, the chunks it received are in order and
  // without a gap exactly when each write to it by one session returned when
  // every earlier session had nothing on its way for it and stamped nothing more
  // for it. Every write to it was whole.
  lemma ReopenIsInOrderWhen(states: seq<Relay>, steps: seq<Step>, e: nat)
    requires Execution(states, steps) && Attached(states[|steps|], e)
    ensures Seen(states[|steps|].log, e) <= Expected(states[|steps|].sessions, e) <==>
            forall k: nat, j: nat :: k < |steps| && WritesTo(states[k], steps[k], e, j) ==>
              EarlierDone(states[k], j, states[|steps|], e)
    ensures forall w :: w in states[|steps|].log && w.sent.conn == e ==> w.sent.count == |w.sent.chunk.data|
  {
    var s := states[|steps|];
    OnTimeSteps(states, steps, |steps|, e);
    SeenParts(states, steps, e);
    if OnTime(Seen(s.log, e), s.sessions, e) {
      OnTimeIsPrefix(Seen(s.log, e), s.sessions, e);
    }
    if Seen(s.log, e) <= Expected(s.sessions, e) {
      PrefixIsOnTime(Seen(s.log, e), s.sessions, e);
    }
  }

  // ---- The same in bytes ----

  function Chunks(ids: seq<Id>): seq<Chunk> {
    seq(|ids|, k requires 0 <= k < |ids| => ids[k].chunk)
  }

  lemma ChunksConcat(a: seq<Id>, b: seq<Id>)
    ensures Chunks(a + b) == Chunks(a) + Chunks(b)
  {
  }

  lemma {:induction false} ReceivedIsData(log: seq<Write>, c: nat)
    requires forall w :: w in log && w.sent.conn == c ==> w.sent.count == |w.sent.chunk.data|
    ensures Received(log, c) == Data(Chunks(Seen(log, c)))
  {
    if log != [] {
      var n := |log| - 1;
      var w := log[n];
      assert w in log;
      ReceivedIsData(log[..n], c);
      if w.sent.conn == c {
        DataSnoc(Seen(log[..n], c), Id(w.session, w.sent.chunk));
        assert Arrived(w.sent, c) == w.sent.chunk.data;
      } else {
        assert Seen(log, c) == Seen(log[..n], c) && Received(log, c) == Received(log[..n], c);
      }
    }
  }

  lemma DataSnoc(ids: seq<Id>, x: Id)
    ensures Data(Chunks(ids + [x])) == Data(Chunks(ids)) + x.chunk.data
  {
    var cs := Chunks(ids + [x]);
    assert cs[..|cs| - 1] == Chunks(ids);
  }

  lemma {:induction false} ExpectedIsData(ss: seq<Session>, e: nat)
    ensures ExpectedBytes(ss, e) == Data(Chunks(Expected(ss, e)))
  {
    if ss != [] {
      var n := |ss| - 1;
      var last := For(ss[n].stamped, e);
      ExpectedIsData(ss[..n], e);
      ChunksConcat(Expected(ss[..n], e), Tag(n, last));
      assert Chunks(Tag(n, last)) == last;
      DataConcat(Chunks(Expected(ss[..n], e)), last);
      StreamIsData(ss[n].stamped, e);
    }
  }

  // So the client's bytes are then a prefix of all that was stamped for it, one
  // session after the other.
  lemma InOrderBytes(states: seq<Relay>, steps: seq<Step>, e: nat)
    requires Execution(states, steps) && Attached(states[|steps|], e)
    requires forall k: nat, j: nat :: k < |steps| && WritesTo(states[k], steps[k], e, j) ==>
               EarlierDone(states[k], j, states[|steps|], e)
    ensures Received(states[|steps|].log, e) <= ExpectedBytes(states[|steps|].sessions, e)
  {
    var s := states[|steps|];
    ReopenIsInOrderWhen(states, steps, e);
    ReceivedIsData(s.log, e);
    ExpectedIsData(s.sessions, e);
    DataGrows(Seen(s.log, e), Expected(s.sessions, e));
  }

  lemma DataGrows(a: seq<Id>, b: seq<Id>)
    requires a <= b
    ensures Data(Chunks(a)) <= Data(Chunks(b))
  {
    var rest := b[|a|..];
    assert b == a + rest;
    ChunksConcat(a, rest);
    DataConcat(Chunks(a), Chunks(rest));
    PrefixOfSum(Data(Chunks(a)), Data(Chunks(rest)));
  }
}
