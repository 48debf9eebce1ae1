/** Threads that sleep in fuse_ticket_fetch until the FUSE_INIT handshake is over: exactly when
  * the death of the session wakes them.
  */
module TicketInitWait {
  import opened Lists
  import opened TicketMemory
  import opened TicketProtocol
  import opened TicketFrame

  predicate InInitSleep(s: State, i: Tid) {
    s.Holds(i) && s.th[i].stage.InitSleep?
  }

  /** Step n of the run killed the session through fdata_set_dead, and the wake-up that
    * fdata_set_dead owes the sleepers has not come since.
    */
  ghost predicate WakeUpOwedSince(s0: State, run: seq<Action>, n: nat)
    requires n < |run|
  {
    && AnyRun(s0, run[..n]).Some? && !AnyRun(s0, run[..n]).value.m.dead && SetsDead(run[n])
    && forall k {:trigger run[k]} :: n < k < |run| ==> !run[k].WakeInitWaiters?
  }

  ghost predicate WakeUpOwed(s0: State, run: seq<Action>) {
    exists n: nat {:trigger WakeUpOwedSince(s0, run, n)} :: n < |run| && WakeUpOwedSince(s0, run, n)
  }

  lemma OwedLonger(s0: State, run: seq<Action>, n: nat)
    requires n < |run| - 1
    ensures WakeUpOwedSince(s0, run, n) <==>
              WakeUpOwedSince(s0, run[..|run| - 1], n) && !run[|run| - 1].WakeInitWaiters?
  {
    var before := run[..|run| - 1];
    assert before[..n] == run[..n] && before[n] == run[n];
    assert forall k {:trigger run[k]} :: n < k < |before| ==> before[k] == run[k];
    assert forall k {:trigger before[k]} :: n < k < |before| ==> before[k] == run[k];
  }

  lemma {:induction false} OwedIsPending(s0: State, run: seq<Action>, s: State)
    requires Init(s0) && AnyRun(s0, run) == Some(s)
    ensures s.wakePending <==> WakeUpOwed(s0, run)
  {
    if run != [] {
      var before, a := run[..|run| - 1], run[|run| - 1];
      var mid := AnyRun(s0, before).value;
      OwedIsPending(s0, before, mid);
      StepAges(mid, a, s);
      if s.wakePending {
        if mid.wakePending {
          var n: nat :| n < |before| && WakeUpOwedSince(s0, before, n);
          OwedLonger(s0, run, n);
        } else {
          assert WakeUpOwedSince(s0, run, |before|);
        }
      }
      if n: nat :| n < |run| && WakeUpOwedSince(s0, run, n) {
        if n < |before| { OwedLonger(s0, run, n); } else { assert run[..n] == before; }
      }
    }
  }

  /** No signal for thread i, and no end of the handshake. */
  predicate LeftAlone(run: seq<Action>, i: Tid) {
    forall k {:trigger run[k]} :: 0 <= k < |run| ==> run[k] != InitSignal(i) && !run[k].InitComplete?
  }

  /** Thread i sleeps for FUSE_INIT in a dead session, and no run wakes it. */
  ghost predicate Stranded(s: State, i: Tid) {
    && s.m.dead && InInitSleep(s, i)
    && forall more: seq<Action> {:trigger AnyRun(s, more)} :: LeftAlone(more, i) && AnyRun(s, more).Some? ==>
         i in AnyRun(s, more).value.th && AnyRun(s, more).value.th[i] == s.th[i]
  }

  lemma OnlyASignal(s: State, a: Action, i: Tid)
    requires Step(s, a).Some? && InInitSleep(s, i) && Actor(a) == Some(i)
    ensures a == InitSignal(i)
  {
    StepFits(s, a);
  }

  lemma StepLeavesAsleep(s: State, a: Action, s': State, i: Tid)
    requires Step(s, a) == Some(s') && InInitSleep(s, i) && s.m.dead && !s.wakePending
    requires a != InitSignal(i) && !a.InitComplete?
    ensures i in s'.th && s'.th[i] == s.th[i] && s'.m.dead && !s'.wakePending
  {
    StepAges(s, a, s');
    StepMoves(s, a, s');
    if Actor(a) == Some(i) { OnlyASignal(s, a, i); }
  }

  lemma {:induction false} RunLeavesAsleep(s: State, more: seq<Action>, s': State, i: Tid)
    requires AnyRun(s, more) == Some(s') && LeftAlone(more, i) && InInitSleep(s, i) && s.m.dead && !s.wakePending
    ensures i in s'.th && s'.th[i] == s.th[i] && s'.m.dead && !s'.wakePending
  {
    if more != [] {
      var mid := AnyRun(s, more[..|more| - 1]).value;
      RunLeavesAsleep(s, more[..|more| - 1], mid, i);
      StepLeavesAsleep(mid, more[|more| - 1], s', i);
    }
  }

  lemma WakeUpWakes(s: State, i: Tid)
    requires s.wakePending && InInitSleep(s, i)
    ensures !Stranded(s, i)
  {
    var a := WakeInitWaiters;
    var s' := StepWakeInitWaiters(s).value;
    assert [a][..0] == [];
    assert AnyRun(s, []) == Some(s) && AnyRun(s, [a]) == Some(s');
    assert LeftAlone([a], i) && s'.th[i] == Holding(s.th[i].t, Made);
  }

  lemma StaysAsleep(s: State, i: Tid)
    requires s.m.dead && InInitSleep(s, i) && !s.wakePending
    ensures Stranded(s, i)
  {
    forall more: seq<Action> | LeftAlone(more, i) && AnyRun(s, more).Some?
      ensures i in AnyRun(s, more).value.th && AnyRun(s, more).value.th[i] == s.th[i]
    {
      RunLeavesAsleep(s, more, AnyRun(s, more).value, i);
    }
  }

  /** Over every interleaving: a thread that sleeps for FUSE_INIT in a dead session stays asleep
    * through everything but a signal or the end of the handshake, a whole flush included, if
    * and only if the session did not die through fdata_set_dead, or fdata_set_dead has already
    * been through its one wake-up.
    */
  lemma StrandedExactly(s0: State, run: seq<Action>, s: State, i: Tid)
    requires Init(s0) && AnyRun(s0, run) == Some(s) && s.m.dead && InInitSleep(s, i)
    ensures Stranded(s, i) <==> !WakeUpOwed(s0, run)
  {
    OwedIsPending(s0, run, s);
    if s.wakePending { WakeUpWakes(s, i); } else { StaysAsleep(s, i); }
  }
}
