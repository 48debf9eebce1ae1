/** A session that dies, and one that is dead: what is done to it, and what its requesters get. */
module TicketClosing {
  import opened Lists
  import opened TicketMemory
  import opened TicketProtocol
  import opened TicketFrame
  import opened TicketTwice
  import opened TicketQueues
  import opened TicketTrip

  /** Steps that use the memory of no ticket but the thread's own. */
  predicate UsesOwn(a: Action) {
    a.Post? || a.Message? || a.Check? || a.React? || a.Resume? || a.FlushMark? || a.FailDead? || a.InitSignal?
    || a.ReadFinish? || a.CallerAbandon?
  }

  lemma OwnGoes(s: State, a: Action, s': State, t: Id)
    requires UsesOwn(a) && Step(s, a) == Some(s') && a.i in s.th && Mentions(s.th[a.i], t) && !Freed(s, t)
    ensures Next(s, a) == Some(s') && AgeWindow(s, a)
  {
  }

  lemma JoinTwo(s: State, a: Action, s1: State, b: Action, s2: State)
    requires Next(s, a) == Some(s1) && AgeWindow(s, a) && Next(s1, b) == Some(s2) && AgeWindow(s1, b)
    ensures Run(s, [a, b]) == Some(s2)
  {
    OneStep(s, a, s1);
    OneStep(s1, b, s2);
    RunsJoin(s, [a], s1, [b]);
    assert [a] + [b] == [a, b];
  }

  // ---- The death of a session ----------------------------------------------------------------------

  /** fdata_set_dead kills the session; its wake-up is to come if it was the one that did. */
  lemma SessionIsKilled(s: State)
    ensures Next(s, SetSessionDead) == Some(s.(m := s.m.(dead := true), wakePending := s.wakePending || !s.m.dead))
  {
  }

  /** So does a request that there are too many tickets for, and it goes on all the same; and one whose
    * wait for FUSE_INIT a signal has ended.
    */
  lemma FailureKills(s: State, i: Tid, t: Id)
    requires s.At(i, Holding(t, Failing)) && !Freed(s, t)
    ensures Next(s, FailDead(i)).Some?
    ensures var s' := Next(s, FailDead(i)).value;
      && s'.At(i, Holding(t, Made)) && OnlyMoves(s, s', i) && s'.m == s.m.(dead := true)
      && s'.wakePending == (s.wakePending || !s.m.dead) && s'.tr == s.tr && s'.daemon == s.daemon
  {
    OwnGoes(s, FailDead(i), StepFailDead(s, i).value, t);
  }

  lemma SignalFails(s: State, i: Tid, t: Id)
    requires s.At(i, Holding(t, InitSleep)) && !Freed(s, t)
    ensures Next(s, InitSignal(i)) == Some(s.(th := s.th[i := Holding(t, Failing)]))
  {
    OwnGoes(s, InitSignal(i), StepInitSignal(s, i).value, t);
  }

  /** A read into a buffer that is too small kills the session without a wake-up, and its message is
    * lost; so is a message that cannot be delivered, or is taken in a dead session.
    */
  lemma ReadFails(s: State, w: Tid, t: Id, tooSmall: bool, delivered: bool)
    requires s.At(w, Reading(t)) && s.Knows(t) && !Freed(s, t) && (tooSmall || s.m.dead || !delivered)
    ensures Next(s, ReadFinish(w, tooSmall, delivered)).Some?
    ensures var s' := Next(s, ReadFinish(w, tooSmall, delivered)).value;
      && s'.At(w, if s.m.tk[t].inval then Holding(t, Dropping) else Idle) && OnlyMoves(s, s', w)
      && s'.m == s.m.(dead := s.m.dead || tooSmall) && s'.daemon == s.daemon && s'.wakePending == s.wakePending
  {
    var s';
    if s.m.tk[t].inval {
      s' := ForgetIsReleased(s, w, t, tooSmall, delivered);
    } else {
      s' := MessageIsLost(s, w, t, tooSmall, delivered);
    }
    OwnGoes(s, ReadFinish(w, tooSmall, delivered), s', t);
  }

  lemma ForgetIsReleased(s: State, w: Tid, t: Id, tooSmall: bool, delivered: bool) returns (s': State)
    requires s.At(w, Reading(t)) && s.Knows(t) && s.m.tk[t].inval
    ensures Step(s, ReadFinish(w, tooSmall, delivered)) == Some(s')
    ensures s'.At(w, Holding(t, Dropping)) && OnlyMoves(s, s', w)
    ensures s'.m == s.m.(dead := s.m.dead || tooSmall) && s'.daemon == s.daemon && s'.wakePending == s.wakePending
  {
    s' := StepReadFinish(s, w, tooSmall, delivered).value;
  }

  lemma MessageIsLost(s: State, w: Tid, t: Id, tooSmall: bool, delivered: bool) returns (s': State)
    requires s.At(w, Reading(t)) && s.Knows(t) && !s.m.tk[t].inval && (tooSmall || s.m.dead || !delivered)
    ensures Step(s, ReadFinish(w, tooSmall, delivered)) == Some(s') && s'.At(w, Idle) && OnlyMoves(s, s', w)
    ensures s'.m == s.m.(dead := s.m.dead || tooSmall) && s'.daemon == s.daemon && s'.wakePending == s.wakePending
  {
    s' := StepReadFinish(s, w, tooSmall, delivered).value;
  }

  /** A reader sleeps only in a live session without messages. */
  lemma ReaderSleepsExactly(s: State, w: Tid)
    requires s.At(w, Idle)
    ensures Next(s, ReadSleep(w)).Some? <==> !s.m.dead && s.m.ms == []
    ensures !s.m.dead && s.m.ms == [] ==> Next(s, ReadSleep(w)) == Some(s.(th := s.th[w := ReadAsleep]))
    ensures s.m.dead ==> Next(s, ReadPop(w)) == None
  {
    assert Own(s, w) == [];
  }

  /** One that has slept takes a message even of a dead session. */
  lemma ReaderWakes(s: State, w: Tid)
    requires s.At(w, ReadAsleep)
    ensures Next(s, ReadWake(w)) == Some(s.(th := s.th[w := Idle]))
    ensures s.m.ms != [] && s.Knows(s.m.ms[0]) && !Freed(s, s.m.ms[0]) ==>
              Next(s, ReadPop(w)).Some? && Next(s, ReadPop(w)).value.At(w, Reading(s.m.ms[0]))
  {
    assert Own(s, w) == [];
    if s.m.ms != [] { assert Touched(s, ReadPop(w)) == [s.m.ms[0]]; }
  }

  /** The panics are no steps: a dirty ticket is not queued, and no ticket is fetched from an empty list
    * whose counter is not 0, or if the list would be empty and the counter not.
    */
  lemma PanicIsNoStep(s: State, i: Tid)
    ensures s.Holds(i) && s.th[i].stage.Posted? && s.Knows(s.th[i].t) && s.m.tk[s.th[i].t].dirty ==>
              Next(s, Message(i)) == None
    ensures s.At(i, Idle) && s.m.freeCount > 0 && s.m.free == [] ==> Next(s, Fetch(i)) == None
    ensures s.At(i, Idle) && s.m.freeCount > 1 && |s.m.free| == 1 && !s.m.loop ==> Next(s, Fetch(i)) == None
  {
    assert Step(s, Message(i)) == StepMessage(s, i) && Step(s, Fetch(i)) == StepFetch(s, i);
  }

  /** Between its checks and its sleep a requester has tk_aw_mtx: nobody else can answer the ticket, look
    * whether it is answered, or give it up.
    */
  lemma AwMtxExcludes(s: State, i: Tid, t: Id, a: Action)
    requires s.At(i, Holding(t, WaitLocked))
    requires a.Answer? || a.FlushMark? || a.Check? || a.Resume? || a.React?
    requires a.i in s.th && Mentions(s.th[a.i], t) && (a.React? ==> s.Holds(a.i) && s.th[a.i].stage != Waited(0))
    ensures Step(s, a) == None
  {
    assert !s.AwMtxFree(t);
  }

  // ---- Requests in a dead session ---------------------------------------------------------------------

  /** A foreground request that is made in a dead session touches neither queue; it releases its ticket
    * and returns ENOTCONN.
    */
  lemma DeadRequestIsRefused(s: State, i: Tid, t: Id) returns (s': State)
    requires s.m.dead && s.At(i, Holding(t, Made)) && s.Knows(t) && !Freed(s, t) && s.AwMtxFree(t)
    requires !s.m.tk[t].dirty && !s.m.tk[t].answered
    ensures Run(s, [Post(i, Foreground), Message(i)] + [Check(i), React(i)]) == Some(s')
    ensures s'.At(i, Holding(t, Dropping)) && OnlyMoves(s, s', i) && s'.daemon == s.daemon
    ensures s'.m == s.m.(tk := s.m.tk[t := s.m.tk[t].(dirty := true, answered := true)])
    ensures Returned(s.m.tk[t], ENOTCONN) == ENOTCONN
  {
    var s1 := DeadRequestIsNotQueued(s, i, t);
    s' := DeadWaitEnds(s1, i, t);
    RunsJoin(s, [Post(i, Foreground), Message(i)], s1, [Check(i), React(i)]);
  }

  lemma DeadRequestIsNotQueued(s: State, i: Tid, t: Id) returns (s': State)
    requires s.m.dead && s.At(i, Holding(t, Made)) && s.Knows(t) && !Freed(s, t) && s.AwMtxFree(t)
    requires !s.m.tk[t].dirty
    ensures Run(s, [Post(i, Foreground), Message(i)]) == Some(s') && s'.At(i, Holding(t, WaitEnter))
    ensures s'.m == s.m.(tk := s.m.tk[t := s.m.tk[t].(dirty := true)]) && OnlyMoves(s, s', i)
    ensures s'.daemon == s.daemon && s'.tr == s.tr && s'.AwMtxFree(t)
  {
    var s1 := s.Go(i, Holding(t, Posted(Foreground)));
    assert StepPost(s, i, Foreground) == Some(s1);
    OwnGoes(s, Post(i, Foreground), s1, t);
    s' := s1.SetK(t, s.m.tk[t].(dirty := true)).Go(i, Holding(t, WaitEnter));
    assert StepMessage(s1, i) == Some(s');
    OwnGoes(s1, Message(i), s', t);
    JoinTwo(s, Post(i, Foreground), s1, Message(i), s');
  }

  /** A requester that comes to its wait in a dead session: the ticket stays on the queues. */
  lemma DeadWaitEnds(s: State, i: Tid, t: Id) returns (s': State)
    requires s.m.dead && s.At(i, Holding(t, WaitEnter)) && s.Knows(t) && !Freed(s, t) && s.AwMtxFree(t)
    requires !s.m.tk[t].answered
    ensures Run(s, [Check(i), React(i)]) == Some(s') && s'.At(i, Holding(t, Dropping)) && OnlyMoves(s, s', i)
    ensures s'.m == s.m.(tk := s.m.tk[t := s.m.tk[t].(answered := true)]) && s'.daemon == s.daemon
  {
    var s1 := s.SetK(t, s.m.tk[t].(answered := true)).Go(i, Holding(t, Waited(ENOTCONN)));
    assert StepCheck(s, i) == Some(s1);
    OwnGoes(s, Check(i), s1, t);
    s' := s1.Release(i, t);
    assert StepReact(s1, i) == Some(s');
    OwnGoes(s1, React(i), s', t);
    JoinTwo(s, Check(i), s1, React(i), s');
  }

  // ---- The flush ----------------------------------------------------------------------------------------

  /** A flush of a dead session takes aw_mtx, and gives it back when the answer queue is empty. */
  lemma FlushOwnsTheQueue(s: State, f: Tid)
    requires f in s.th
    ensures s.At(f, Idle) && s.m.dead && s.awOwner == None ==>
              Next(s, FlushBegin(f)) == Some(s.(awOwner := Some(f), th := s.th[f := Flushing]))
    ensures s.At(f, Idle) && (!s.m.dead || s.awOwner.Some?) ==> Next(s, FlushBegin(f)) == None
    ensures s.At(f, Flushing) && s.m.aw == [] ==>
              Next(s, FlushEnd(f)) == Some(s.(awOwner := None, flushed := true, th := s.th[f := Idle]))
    ensures s.At(f, Flushing) && s.m.aw != [] ==> Next(s, FlushEnd(f)) == None
  {
    if s.th[f].Idle? || s.th[f].Flushing? { assert Own(s, f) == []; }
  }

  /** While somebody owns aw_mtx nobody else gets at the answer queue. */
  lemma NobodyElseIsAtTheQueue(s: State, f: Tid, a: Action, s': State)
    requires s.awOwner == Some(f) && Step(s, a) == Some(s') && s'.m.aw != s.m.aw
    ensures a.FlushPop? && s.At(a.i, Flushing) && s'.m.aw == s.m.aw[1..]
  {
    StepQueues(s, a, s');
    assert a.DoPushAw? ==> StepPushAw(s, a.i) == Some(s');
    assert a.TakeReply? ==> StepTakeReply(s, a.i, a.use) == Some(s');
    assert a.FlushPop? ==> StepFlushPop(s, a.i) == Some(s');
  }

  /** The requester whose ticket a flush has in hand wakes up, releases it, and returns EIO. */
  lemma FlushedRequestFails(s: State, f: Tid, a: Tid, t: Id) returns (s': State)
    requires s.At(f, InHand(t)) && s.At(a, Holding(t, Asleep)) && s.Knows(t) && !Freed(s, t) && s.AwMtxFree(t)
    requires forall j {:trigger s.th[j]} :: j in s.th && s.th[j] == Holding(t, Asleep) ==> j == a
    ensures Run(s, [FlushMark(f)] + [Resume(a), React(a)]) == Some(s')
    ensures s'.At(f, Flushing) && s'.At(a, Holding(t, Dropping)) && OnlyTheseMove(s, s', f, a) && s'.daemon == s.daemon
    ensures s'.m == s.m.(tk := s.m.tk[t := s.m.tk[t].(answered := true, errno := ENOTCONN)])
    ensures Returned(s'.m.tk[t], 0) == EIO
  {
    var s1 := FlushMarks(s, f, a, t);
    OneStep(s, FlushMark(f), s1);
    s' := FlushedReacts(s1, a, t);
    RunsJoin(s, [FlushMark(f)], s1, [Resume(a), React(a)]);
  }

  lemma FlushMarks(s: State, f: Tid, a: Tid, t: Id) returns (s': State)
    requires s.At(f, InHand(t)) && s.At(a, Holding(t, Asleep)) && s.Knows(t) && !Freed(s, t) && s.AwMtxFree(t)
    requires forall j {:trigger s.th[j]} :: j in s.th && s.th[j] == Holding(t, Asleep) ==> j == a
    ensures Next(s, FlushMark(f)) == Some(s') && AgeWindow(s, FlushMark(f)) && s'.daemon == s.daemon
    ensures s'.At(f, Flushing) && s'.At(a, Holding(t, Woken(0))) && OnlyTheseMove(s, s', f, a)
    ensures s'.m == s.m.(tk := s.m.tk[t := s.m.tk[t].(answered := true, errno := ENOTCONN)])
    ensures s'.Knows(t) && !Freed(s', t) && s'.AwMtxFree(t)
  {
    s' := MarkDoes(s, f, a, t);
    OwnGoes(s, FlushMark(f), s', t);
  }

  lemma MarkDoes(s: State, f: Tid, a: Tid, t: Id) returns (s': State)
    requires s.At(f, InHand(t)) && s.At(a, Holding(t, Asleep)) && s.Knows(t) && s.AwMtxFree(t)
    requires forall j {:trigger s.th[j]} :: j in s.th && s.th[j] == Holding(t, Asleep) ==> j == a
    ensures Step(s, FlushMark(f)) == Some(s') && s'.daemon == s.daemon
    ensures s'.At(f, Flushing) && s'.At(a, Holding(t, Woken(0))) && OnlyTheseMove(s, s', f, a)
    ensures s'.m == s.m.(tk := s.m.tk[t := s.m.tk[t].(answered := true, errno := ENOTCONN)])
    ensures s'.tr == s.tr[t := s.tr[t].(ans := Off)]
  {
    s' := StepFlushMark(s, f).value;
  }

  lemma FlushedReacts(s: State, a: Tid, t: Id) returns (s': State)
    requires s.At(a, Holding(t, Woken(0))) && s.Knows(t) && !Freed(s, t) && s.AwMtxFree(t)
    requires s.m.tk[t].answered && s.m.tk[t].errno != 0
    ensures Run(s, [Resume(a), React(a)]) == Some(s') && s'.At(a, Holding(t, Dropping)) && OnlyMoves(s, s', a)
    ensures s'.m == s.m && s'.daemon == s.daemon
  {
    var s1 := s.Go(a, Holding(t, Waited(0)));
    assert StepResume(s, a) == Some(s1);
    OwnGoes(s, Resume(a), s1, t);
    s' := s1.Release(a, t);
    assert StepReact(s1, a) == Some(s');
    OwnGoes(s1, React(a), s', t);
    JoinTwo(s, Resume(a), s1, React(a), s');
  }

  // ---- Replies that nobody waits for, and answers that are left ----------------------------------------

  /** A reply whose number is not on the answer queue changes nothing but what the daemon owes. */
  lemma UnknownReplyIsIgnored(s: State, w: Tid, use: Use)
    requires s.At(w, Idle) && use in s.daemon && s.awOwner == None && s.Knows(use.id) && use.id !in s.m.aw
    ensures StepTakeReply(s, w, use).Some?
    ensures var s' := StepTakeReply(s, w, use).value; s'.m == s.m && s'.th == s.th && s'.daemon == s.daemon - {use}
  {
  }

  /** A caller can walk away from its ticket: nothing happens to it. */
  lemma AnswerIsLeft(s: State, i: Tid, t: Id)
    requires s.At(i, Holding(t, HaveAnswer)) && s.Knows(t) && !Freed(s, t)
    ensures Next(s, CallerAbandon(i)).Some?
    ensures var s' := Next(s, CallerAbandon(i)).value;
      && s'.At(i, Idle) && OnlyMoves(s, s', i) && s'.m == s.m
      && t in s'.tr && s'.tr[t].owner == None && s'.tr[t].life == s.tr[t].life
  {
    OwnGoes(s, CallerAbandon(i), StepCallerAbandon(s, i).value, t);
  }
}
