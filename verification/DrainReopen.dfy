/**
 Two executions in which a client stays attached while the chardev session is
 re-opened: one leaves a gap in its stream, the other turns it around.
 */
module DrainReopen {
  import opened Common
  import opened Drain
  import opened DrainProofs
  import opened DrainOrder

  const A := Chunk([1], 1, 0)
  const B := Chunk([2], 1, 0)

  lemma Extend(states: seq<Relay>, steps: seq<Step>, s: Relay, step: Step) returns (states': seq<Relay>, steps': seq<Step>)
    requires Segment(states, steps) && states[|steps|] == s && Enabled(s, step)
    ensures Segment(states', steps') && |steps'| == |steps| + 1
    ensures states'[0] == states[0] && states'[|steps'|] == Next(s, step)
  {
    states', steps' := states + [Next(s, step)], steps + [step];
  }

  // The first session with client 1, about to read.
  function Opened(first: Session): Relay {
    Relay(Hub(Some(1), 1, Some(0), {}), Accepting, [first], [])
  }

  // The second session with the same client.
  function Reopened(first: Session, second: Session, log: seq<Write>): Relay {
    Relay(Hub(Some(1), 1, Some(1), {}), Accepting, [first, second], log)
  }

  lemma Attach() returns (states: seq<Relay>, steps: seq<Step>)
    ensures Execution(states, steps) && states[|steps|] == Opened(EMPTY_SESSION)
  {
    states, steps := [INIT], [];
    states, steps := Extend(states, steps, INIT, OpenSession);
    states, steps := Extend(states, steps, Relay(Hub(None, 0, Some(0), {}), Accepting, [EMPTY_SESSION], []), Install);
    states, steps := Extend(states, steps, Relay(Hub(Some(1), 1, Some(0), {}), Flushing(None), [EMPTY_SESSION], []), FlushEnd);
  }

  // The first session reads and queues a chunk, and the chardev fails.
  lemma ReadFirst() returns (states: seq<Relay>, steps: seq<Step>)
    ensures Execution(states, steps) && states[|steps|] == Opened(Session(Ended, Waiting, [A], [A], [], []))
  {
    assert EMPTY_SESSION.stamped + [A] == [A];
    states, steps := Attach();
    states, steps := Extend(states, steps, Opened(EMPTY_SESSION), Act(0, ReadData(A.data)));
    states, steps := Extend(states, steps, Opened(Session(HasData(A.data), Waiting, [], [], [], [])), Act(0, Stamp));
    states, steps := Extend(states, steps, Opened(Session(Stamped(A), Waiting, [], [A], [], [])), Act(0, Enqueue));
    states, steps := Extend(states, steps, Opened(Session(Reading, Waiting, [A], [A], [], [])), Act(0, ReadError));
  }

  // Its chunk is still queued, or in its writer's hands, when it ends.
  lemma Reopen(states0: seq<Relay>, steps0: seq<Step>, first: Session) returns (states: seq<Relay>, steps: seq<Step>)
    requires Execution(states0, steps0) && states0[|steps0|] == Opened(first)
    ensures Execution(states, steps) && states[|steps|] == Reopened(first, EMPTY_SESSION, [])
  {
    assert [first] + [EMPTY_SESSION] == [first, EMPTY_SESSION];
    states, steps := Extend(states0, steps0, Opened(first), EndSession);
    states, steps := Extend(states, steps, Relay(Hub(Some(1), 1, None, {}), Accepting, [first], []), OpenSession);
  }

  // The next session relays a chunk of its own.
  lemma SecondRelays(states0: seq<Relay>, steps0: seq<Step>, first: Session) returns (states: seq<Relay>, steps: seq<Step>)
    requires Execution(states0, steps0) && states0[|steps0|] == Opened(first)
    ensures Execution(states, steps)
    ensures states[|steps|] == Reopened(first, Session(Reading, Waiting, [], [B], [Sent(1, B, 1)], []), [Write(1, Sent(1, B, 1))])
  {
    assert EMPTY_SESSION.stamped + [B] == [B];
    states, steps := Reopen(states0, steps0, first);
    states, steps := Extend(states, steps, Reopened(first, EMPTY_SESSION, []), Act(1, ReadData(B.data)));
    states, steps := Extend(states, steps, Reopened(first, Session(HasData(B.data), Waiting, [], [], [], []), []), Act(1, Stamp));
    states, steps := Extend(states, steps, Reopened(first, Session(Stamped(B), Waiting, [], [B], [], []), []), Act(1, Enqueue));
    states, steps := SecondWrites(states, steps, first);
  }

  lemma SecondWrites(states0: seq<Relay>, steps0: seq<Step>, first: Session) returns (states: seq<Relay>, steps: seq<Step>)
    requires Execution(states0, steps0)
    requires states0[|steps0|] == Reopened(first, Session(Reading, Waiting, [B], [B], [], []), [])
    ensures Execution(states, steps)
    ensures states[|steps|] == Reopened(first, Session(Reading, Waiting, [], [B], [Sent(1, B, 1)], []), [Write(1, Sent(1, B, 1))])
  {
    assert [B][1..] == [] && EMPTY_SESSION.sent + [Sent(1, B, 1)] == [Sent(1, B, 1)];
    assert INIT.log + [Write(1, Sent(1, B, 1))] == [Write(1, Sent(1, B, 1))];
    states, steps := Extend(states0, steps0, states0[|steps0|], Act(1, Take));
    states, steps := Extend(states, steps, Reopened(first, Session(Reading, Holding(B), [], [B], [], []), []), Act(1, Snapshot));
    states, steps := Extend(states, steps, Reopened(first, Session(Reading, Writing(B, 1), [], [B], [], []), []), Act(1, WriteOk));
  }

  // The old session's queue is abandoned, and the new one writes to the same
  // connection: the client misses the chunk in between.
  lemma ReopenCanLeaveGap() returns (states: seq<Relay>, steps: seq<Step>, s: Relay)
    ensures Execution(states, steps) && s == states[|steps|] && Attached(s, 1)
    ensures Received(s.log, 1) == [2] && ExpectedBytes(s.sessions, 1) == [1, 2]
  {
    states, steps := ReadFirst();
    states, steps := SecondRelays(states, steps, Session(Ended, Waiting, [A], [A], [], []));
    s := states[|steps|];
    BothExpected(s.sessions);
    OneReceived(1, B);
  }

  // The first session's writer is in a write when the session ends.
  lemma FirstHolds() returns (states: seq<Relay>, steps: seq<Step>)
    ensures Execution(states, steps) && states[|steps|] == Opened(Session(Ended, Writing(A, 1), [], [A], [], []))
  {
    assert [A][1..] == [];
    states, steps := ReadFirst();
    states, steps := Extend(states, steps, Opened(Session(Ended, Waiting, [A], [A], [], [])), Act(0, Take));
    states, steps := Extend(states, steps, Opened(Session(Ended, Holding(A), [], [A], [], [])), Act(0, Snapshot));
  }

  // It returns only after the second session's.
  lemma FirstWritesLate() returns (states: seq<Relay>, steps: seq<Step>)
    ensures Execution(states, steps)
    ensures states[|steps|] == Reopened(Session(Ended, Waiting, [], [A], [Sent(1, A, 1)], []),
                                        Session(Reading, Waiting, [], [B], [Sent(1, B, 1)], []),
                                        [Write(1, Sent(1, B, 1)), Write(0, Sent(1, A, 1))])
  {
    var second := Session(Reading, Waiting, [], [B], [Sent(1, B, 1)], []);
    states, steps := FirstHolds();
    states, steps := SecondRelays(states, steps, Session(Ended, Writing(A, 1), [], [A], [], []));
    assert EMPTY_SESSION.sent + [Sent(1, A, 1)] == [Sent(1, A, 1)];
    states, steps := Extend(states, steps, Reopened(Session(Ended, Writing(A, 1), [], [A], [], []), second,
                                                    [Write(1, Sent(1, B, 1))]), Act(0, WriteOk));
  }

  // The old session's writer holds one chunk when the session ends and writes it
  // only after the new session's writer: nothing is lost and nothing is on its
  // way any more, and yet the client received the chunks in the wrong order.
  lemma ReopenCanReorder() returns (states: seq<Relay>, steps: seq<Step>, s: Relay)
    ensures Execution(states, steps) && s == states[|steps|] && Attached(s, 1)
    ensures |s.sessions| == 2 && Flight(s.sessions[0], 1) == [] == Flight(s.sessions[1], 1)
    ensures Received(s.log, 1) == [2, 1] && ExpectedBytes(s.sessions, 1) == [1, 2]
  {
    states, steps := FirstWritesLate();
    s := states[|steps|];
    BothExpected(s.sessions);
    BothReceived();
  }

  lemma BothReceived()
    ensures Received([Write(1, Sent(1, B, 1)), Write(0, Sent(1, A, 1))], 1) == [2, 1]
  {
    var log := [Write(1, Sent(1, B, 1)), Write(0, Sent(1, A, 1))];
    assert log[..1] == [Write(1, Sent(1, B, 1))];
    OneReceived(1, B);
    assert B.data + A.data == [2, 1];
  }

  lemma BothExpected(ss: seq<Session>)
    requires |ss| == 2 && ss[0].stamped == [A] && ss[1].stamped == [B]
    ensures ExpectedBytes(ss, 1) == [1, 2]
  {
    StreamSnoc([], A, 1);
    StreamSnoc([], B, 1);
    assert [] + [A] == [A] && [] + [B] == [B];
    assert Stream([A], 1) == [1] && Stream([B], 1) == [2];
    assert ss[..1][..0] == [] && ss[..1][0] == ss[0];
    assert ExpectedBytes(ss[..1], 1) == [1];
    assert A.data + B.data == [1, 2];
  }

  lemma OneReceived(i: nat, c: Chunk)
    requires |c.data| == 1
    ensures Received([Write(i, Sent(1, c, 1))], 1) == c.data
  {
    var log := [Write(i, Sent(1, c, 1))];
    assert log[..0] == [] && c.data[..1] == c.data;
    assert Received([], 1) == [];
  }
}
