/**
 The reboot step of execute: the guest's boot ID is read, the guest is shut down,
 and the boot ID is polled until it is another one.
 */
module Reboot {
  import opened Common
  import opened Text

  // One guest command's end: a transport error, or an exit status and its output.
  datatype Answer = NoAnswer | Answer(exit: int, stdout: string)

  /**
   What the outside does: `first` answers the read before shutdown, `probes(k)`
   the k-th probe, counting from 1. The clock reads `now(0)` at the start of the
   wait and `now(k)` after the k-th probe, and `ended(k)` says that the context
   has ended by then.
   */
  datatype Outside = Outside(first: Answer, probes: nat -> Answer, now: nat -> int, ended: nat -> bool)

  // Durations are in milliseconds.
  datatype Wait = Wait(timeout: int, interval: int)

  const DEFAULT_WAIT := Wait(600_000, 2_000)

  // ---- The boot ID ----

  const BOOT_ID_HEAD := "Format: Length:16 Dump:0x"

  predicate IsBootId(id: string) {
    |id| == 32 && forall c :: c in id ==> '0' <= c <= '9' || 'a' <= c <= 'f'
  }

  function ParseBootID(out: string): (id: Option<string>)
    ensures id.Some? <==> exists i :: IsBootId(i) && TrimSpace(out) == "Format: Length:16 Dump:0x" + i
    ensures id.Some? ==> IsBootId(id.value) && TrimSpace(out) == "Format: Length:16 Dump:0x" + id.value
  {
    var text := TrimSpace(out);
    if BOOT_ID_HEAD <= text && IsBootId(text[|BOOT_ID_HEAD|..]) then
      assert text == BOOT_ID_HEAD + text[|BOOT_ID_HEAD|..];
      Some(text[|BOOT_ID_HEAD|..])
    else
      assert forall i :: text == BOOT_ID_HEAD + i ==> i == text[|BOOT_ID_HEAD|..];
      None
  }

  // An answer counts only when the command exits 0 with a boot ID.
  function BootIdOf(a: Answer): Option<string> {
    if a.NoAnswer? || a.exit != 0 then None else ParseBootID(a.stdout)
  }

  // ---- The wait ----

  predicate NewBoot(o: Outside, before: string, k: nat) {
    BootIdOf(o.probes(k)).Some? && BootIdOf(o.probes(k)).value != before
  }

  // The wait ends after the k-th probe, one way or another.
  predicate Stops(o: Outside, before: string, w: Wait, k: nat) {
    NewBoot(o, before, k) || o.now(k) >= o.now(0) + w.timeout || o.ended(k)
  }

  predicate FirstStop(o: Outside, before: string, w: Wait, k: nat) {
    k >= 1 && Stops(o, before, w, k) && forall j: nat :: 1 <= j < k ==> !Stops(o, before, w, j)
  }

  // Every pause advances the clock by at least the interval.
  ghost predicate Ticks(o: Outside, w: Wait) {
    w.interval > 0 && o.now(1) >= o.now(0) && forall k: nat :: k >= 1 ==> o.now(k + 1) >= o.now(k) + w.interval
  }

  // The wait comes to an end at all. On a clock that stands still it need not.
  ghost predicate Ends(o: Outside, before: string, w: Wait) {
    exists k: nat :: k >= 1 && Stops(o, before, w, k)
  }

  method WaitForReboot(o: Outside, before: string, w: Wait) returns (bootId: Option<string>, attempts: nat)
    requires Ends(o, before, w)
    ensures FirstStop(o, before, w, attempts)
    ensures bootId == if NewBoot(o, before, attempts) then BootIdOf(o.probes(attempts)) else None
  {
    attempts := 0;
    ghost var end: nat :| end >= 1 && Stops(o, before, w, end);
    while true
      invariant forall j: nat :: 1 <= j <= attempts ==> !Stops(o, before, w, j)
      decreases end - attempts
    {
      attempts := attempts + 1;
      var probed := BootIdOf(o.probes(attempts));
      if probed.Some? && probed.value != before {
        return probed, attempts;
      }
      if o.now(attempts) >= o.now(0) + w.timeout || o.ended(attempts) {
        return None, attempts;
      }
    }
  }

  // ---- rebootGuest ----

  datatype GuestCommand = ReadBootId | Shutdown

  // The commands it logs, whether it succeeds, and how often it probed.
  method RebootGuest(o: Outside, w: Wait) returns (issued: seq<GuestCommand>, ok: bool, attempts: nat)
    requires BootIdOf(o.first).Some? ==> Ends(o, BootIdOf(o.first).value, w)
    ensures Shutdown in issued <==> BootIdOf(o.first).Some?
    ensures BootIdOf(o.first).None? ==> !ok && attempts == 0
    ensures BootIdOf(o.first).Some? ==>
              var before := BootIdOf(o.first).value;
              issued == [ReadBootId, Shutdown] && FirstStop(o, before, w, attempts) && ok == NewBoot(o, before, attempts)
  {
    issued := [ReadBootId];
    var before := BootIdOf(o.first);
    if before.None? {
      return issued, false, 0;
    }
    issued := issued + [Shutdown];
    var bootId;
    bootId, attempts := WaitForReboot(o, before.value, w);
    ok := bootId.Some?;
  }

  // ---- What success means ----

  // Which boot the guest is in: at the first read for k == 0, at the k-th probe
  // otherwise. Boots only go forward, each has its own ID, and whoever answers
  // with a boot ID gives that of its boot.
  ghost predicate Honest(o: Outside, boot: nat -> nat, id: nat -> string) {
    && (forall j: nat, k: nat :: j <= k ==> boot(j) <= boot(k))
    && (forall a: nat, b: nat :: id(a) == id(b) ==> a == b)
    && (BootIdOf(o.first).Some? ==> BootIdOf(o.first).value == id(boot(0)))
    && (forall k: nat :: k >= 1 && BootIdOf(o.probes(k)).Some? ==> BootIdOf(o.probes(k)).value == id(boot(k)))
  }

  // A probe that ends the wait with success was answered by a later boot than
  // the one that was read before the shutdown, and success comes with the first
  // such answer: whatever the old boot answered or failed to answer before.
  lemma SuccessIsANewBoot(o: Outside, w: Wait, boot: nat -> nat, id: nat -> string, before: string, k: nat)
    requires Honest(o, boot, id) && BootIdOf(o.first) == Some(before) && FirstStop(o, before, w, k)
    ensures NewBoot(o, before, k) <==> BootIdOf(o.probes(k)).Some? && boot(k) > boot(0)
    ensures forall j: nat :: 1 <= j < k && BootIdOf(o.probes(j)).Some? ==> boot(j) == boot(0)
  {
    assert boot(0) <= boot(k);
    forall j: nat | 1 <= j < k && BootIdOf(o.probes(j)).Some? ensures boot(j) == boot(0) {
      assert !Stops(o, before, w, j);
    }
  }

  // ---- How many probes ----

  function CeilDiv(a: nat, b: nat): nat
    requires b > 0
  {
    (a + b - 1) / b
  }

  lemma {:induction false} ClockAfter(o: Outside, w: Wait, k: nat)
    requires Ticks(o, w) && k >= 1
    ensures o.now(k) >= o.now(0) + (k - 1) * w.interval
  {
    if k > 1 {
      ClockAfter(o, w, k - 1);
      assert o.now(k - 1 + 1) >= o.now(k - 1) + w.interval;
      assert (k - 1) * w.interval == (k - 2) * w.interval + w.interval;
    }
  }

  lemma CeilIsLeast(a: nat, b: nat, q: nat)
    requires b > 0
    ensures a <= q * b <==> CeilDiv(a, b) <= q
  {
    var c := CeilDiv(a, b);
    assert c * b <= a + b - 1 < (c + 1) * b;
    if q >= c {
      assert q * b >= c * b;
    } else {
      assert q * b <= (c - 1) * b;
    }
  }

  // On a clock that advances at each pause the wait ends, whatever the guest does.
  lemma TicksEnd(o: Outside, before: string, w: Wait)
    requires Ticks(o, w)
    ensures Ends(o, before, w)
  {
    var timeout := if w.timeout >= 0 then w.timeout else 0;
    var last := CeilDiv(timeout, w.interval) + 1;
    ClockAfter(o, w, last);
    CeilIsLeast(timeout, w.interval, last - 1);
    assert Stops(o, before, w, last);
  }

  // The wait makes at most timeout/interval probes, rounded up, and one more.
  lemma ProbesAreBounded(o: Outside, before: string, w: Wait, k: nat)
    requires Ticks(o, w) && w.timeout >= 0 && FirstStop(o, before, w, k)
    ensures k <= CeilDiv(w.timeout, w.interval) + 1
  {
    var last := CeilDiv(w.timeout, w.interval) + 1;
    ClockAfter(o, w, last);
    CeilIsLeast(w.timeout, w.interval, last - 1);
    assert Stops(o, before, w, last);
  }

  // A guest that never comes back on a clock that advances by the interval.
  function Silence(w: Wait): Outside {
    Outside(NoAnswer, k => NoAnswer, (k: nat) => if k == 0 then 0 else (k - 1) * w.interval, k => false)
  }

  // The bound is met, so rounding down instead is right exactly when the
  // interval divides the timeout.
  lemma RoundingDownIsExact(w: Wait, before: string)
    requires w.interval > 0 && w.timeout >= 0
    ensures Ticks(Silence(w), w) && FirstStop(Silence(w), before, w, CeilDiv(w.timeout, w.interval) + 1)
    ensures (forall o, k: nat :: Ticks(o, w) && FirstStop(o, before, w, k) ==> k <= w.timeout / w.interval + 1)
            <==> w.timeout % w.interval == 0
  {
    var o, last := Silence(w), CeilDiv(w.timeout, w.interval) + 1;
    forall k: nat | k >= 1 ensures o.now(k + 1) >= o.now(k) + w.interval {
      assert k * w.interval == (k - 1) * w.interval + w.interval;
    }
    forall k: nat | 1 <= k ensures Stops(o, before, w, k) <==> k >= last {
      CeilIsLeast(w.timeout, w.interval, k - 1);
    }
    FloorAndCeil(w.timeout, w.interval);
    forall p, k: nat | Ticks(p, w) && FirstStop(p, before, w, k) ensures k <= last {
      ProbesAreBounded(p, before, w, k);
    }
  }

  lemma FloorAndCeil(a: nat, b: nat)
    requires b > 0
    ensures CeilDiv(a, b) == a / b + if a % b == 0 then 0 else 1
  {
    var q, r := a / b, a % b;
    assert a == q * b + r;
    CeilIsLeast(a, b, q);
    CeilIsLeast(a, b, q + 1);
    if q >= 1 {
      CeilIsLeast(a, b, q - 1);
      assert (q - 1) * b == q * b - b;
    }
  }

  // With the defaults of ten minutes and two seconds, 301.
  lemma DefaultProbes(o: Outside, before: string, k: nat)
    requires Ticks(o, DEFAULT_WAIT) && FirstStop(o, before, DEFAULT_WAIT, k)
    ensures k <= 301
  {
    ProbesAreBounded(o, before, DEFAULT_WAIT, k);
  }
}
