/** When a ticket is released, or freed, while the answer queue or a flush still refers to it: only
  * after its requester has found the session dead before the flush has got to the ticket.
  */
module TicketDangling {
  import opened Lists
  import opened TicketMemory
  import opened TicketProtocol
  import opened TicketFrame
  import opened TicketInvariant
  import opened TicketTheorems
  import opened TicketCounts
  import opened TicketTwice
  import opened TicketQueues

  /** The answer queue refers to t, a flush does, or a thread is about to link it there. */
  ghost predicate Pending(s: State, t: Id) {
    multiset(s.m.aw)[t] > 0 || exists j {:trigger AtAw(s, j, t)} :: AtAw(s, j, t)
  }

  /** From the push on the answer queue to the end of a wait for an answer that has not come. */
  predicate Expecting(g: Stage) {
    || ((g.PushingAw? || g.Posted? || g.PushingMs?) && g.mode != Forget)
    || g.WaitEnter? || g.WaitLocked? || g.Asleep? || ((g.Woken? || g.Waited?) && g.err != 0)
  }

  ghost predicate ExpectingPc(s: State, t: Id, j: Tid)
    requires s.Knows(t) && j in s.th
  {
    match s.th[j]
    case Holding(u, g) => u == t ==> s.tr[t].owner == Some(j) && Expecting(g) && !s.m.tk[t].answered
    case Writing(u) => u != t
    case Pulled(u, _) => u != t
    case _ => true
  }

  /** The current use of t has not been released, its requester expects the answer or has given
    * up, and no writer has it.
    */
  ghost predicate Expected(s: State, t: Id) {
    && s.Knows(t) && t < s.m.ticketer && s.tr[t].life == InUse && s.tr[t].now.drops == 0
    && !s.m.tk[t].inval && t !in s.m.free
    && forall j {:trigger ExpectingPc(s, t, j)} :: j in s.th ==> ExpectingPc(s, t, j)
  }

  ghost predicate Safe(s: State, t: Id) {
    OnceOnAw(s, t) && (Pending(s, t) ==> Expected(s, t))
  }

  /** The requester finds the session dead while the answer queue or a flush refers to its ticket. */
  ghost predicate FindsDead(s: State, a: Action, t: Id) {
    && a.Check? && s.At(a.i, Holding(t, WaitEnter)) && s.Knows(t) && CheckWait(s.m, t) == SessionDead
    && (t in s.m.aw || exists f {:trigger s.th[f]} :: s.At(f, InHand(t)))
  }

  // ---- Steps --------------------------------------------------------------------------------------

  lemma AwayStaysExpected(s: State, s': State, t: Id)
    requires Expected(s, t) && Away(s, s', t)
    ensures Expected(s', t)
  {
    forall j | j in s'.th ensures ExpectingPc(s', t, j) { assert ExpectingPc(s, t, j); }
  }

  lemma PushAwExpected(s: State, i: Tid, s': State, t: Id)
    requires Expected(s, t) && StepPushAw(s, i) == Some(s') && Mentions(s.th[i], t)
    ensures Expected(s', t)
  {
    forall j | j in s'.th ensures ExpectingPc(s', t, j) { assert ExpectingPc(s, t, j); }
  }

  lemma MessageExpected(s: State, i: Tid, s': State, t: Id)
    requires Expected(s, t) && StepMessage(s, i) == Some(s') && Mentions(s.th[i], t)
    ensures Expected(s', t)
  {
    assert ExpectingPc(s, t, i);
    forall j | j in s'.th ensures ExpectingPc(s', t, j) { assert ExpectingPc(s, t, j); }
  }

  lemma PushMsExpected(s: State, i: Tid, s': State, t: Id)
    requires Expected(s, t) && StepPushMs(s, i) == Some(s') && Mentions(s.th[i], t)
    ensures Expected(s', t)
  {
    assert ExpectingPc(s, t, i);
    forall j | j in s'.th ensures ExpectingPc(s', t, j) { assert ExpectingPc(s, t, j); }
  }

  lemma SleepExpected(s: State, i: Tid, s': State, t: Id)
    requires Expected(s, t) && StepSleep(s, i) == Some(s') && Mentions(s.th[i], t)
    ensures Expected(s', t)
  {
    assert ExpectingPc(s, t, i);
    forall j | j in s'.th ensures ExpectingPc(s', t, j) { assert ExpectingPc(s, t, j); }
  }

  lemma SignalExpected(s: State, i: Tid, err: int, s': State, t: Id)
    requires Expected(s, t) && StepSignal(s, i, err) == Some(s') && Mentions(s.th[i], t)
    ensures Expected(s', t)
  {
    assert ExpectingPc(s, t, i);
    forall j | j in s'.th ensures ExpectingPc(s', t, j) { assert ExpectingPc(s, t, j); }
  }

  lemma ResumeExpected(s: State, i: Tid, s': State, t: Id)
    requires Expected(s, t) && StepResume(s, i) == Some(s') && Mentions(s.th[i], t)
    ensures Expected(s', t)
  {
    assert ExpectingPc(s, t, i);
    forall j | j in s'.th ensures ExpectingPc(s', t, j) { assert ExpectingPc(s, t, j); }
  }

  lemma ReactExpected(s: State, i: Tid, s': State, t: Id)
    requires Expected(s, t) && StepReact(s, i) == Some(s') && Mentions(s.th[i], t)
    ensures Expected(s', t)
  {
    assert ExpectingPc(s, t, i);
    forall j | j in s'.th ensures ExpectingPc(s', t, j) { assert ExpectingPc(s, t, j); }
  }

  lemma ClearExpected(s: State, i: Tid, s': State, t: Id)
    requires Expected(s, t) && StepClear(s, i) == Some(s') && Mentions(s.th[i], t)
    ensures Expected(s', t)
  {
    forall j | j in s'.th ensures ExpectingPc(s', t, j) { assert ExpectingPc(s, t, j); }
  }

  lemma ReadPopExpected(s: State, i: Tid, s': State, t: Id)
    requires Expected(s, t) && StepReadPop(s, i) == Some(s') && s.m.ms[0] == t
    ensures Expected(s', t)
  {
    forall j | j in s'.th ensures ExpectingPc(s', t, j) { assert ExpectingPc(s, t, j); }
  }

  lemma ReadFinishExpected(s: State, i: Tid, tooSmall: bool, delivered: bool, s': State, t: Id)
    requires Expected(s, t) && StepReadFinish(s, i, tooSmall, delivered) == Some(s') && Mentions(s.th[i], t)
    ensures Expected(s', t)
  {
    forall j | j in s'.th ensures ExpectingPc(s', t, j) { assert ExpectingPc(s, t, j); }
  }

  lemma TakeReplyExpected(s: State, i: Tid, use: Use, s': State, t: Id)
    requires Expected(s, t) && StepTakeReply(s, i, use) == Some(s') && use.id == t && t !in s.m.aw
    ensures Expected(s', t)
  {
    forall j | j in s'.th ensures ExpectingPc(s', t, j) { assert ExpectingPc(s, t, j); }
  }

  lemma FlushPopExpected(s: State, i: Tid, s': State, t: Id)
    requires Expected(s, t) && StepFlushPop(s, i) == Some(s') && s.m.aw[0] == t
    ensures Expected(s', t)
  {
    forall j | j in s'.th ensures ExpectingPc(s', t, j) { assert ExpectingPc(s, t, j); }
  }

  /** The steps that can work on t. */
  predicate MayAct(a: Action) {
    || a.DoPushAw? || a.Message? || a.DoPushMs? || a.Check? || a.Sleep? || a.Signal? || a.Resume? || a.React?
    || a.Clear? || a.ReadPop? || a.ReadFinish? || a.TakeReply? || a.FlushPop? || a.FlushMark?
  }

  lemma ActorExpects(s: State, a: Action, t: Id)
    requires Expected(s, t) && Subject(s, a) == Some(t)
    requires Actor(a).Some? && a.i in s.th && Fits(s.th[a.i], a)
    ensures MayAct(a)
    ensures a.ReadPop? || a.TakeReply? || a.FlushPop? || Mentions(s.th[a.i], t)
    ensures a.Check? ==> s.th[a.i] == Holding(t, WaitEnter) && !s.m.tk[t].answered
  {
    assert ExpectingPc(s, t, a.i);
    assert t in s.m.free <==> t in multiset(s.m.free);
  }

  lemma SendingExpected(s: State, a: Action, s': State, t: Id)
    requires IsSending(a) && StepSending(s, a) == Some(s') && Expected(s, t) && a.i in s.th && Mentions(s.th[a.i], t)
    requires MayAct(a) && !a.Check?
    ensures Expected(s', t)
  {
    match a
    case DoPushAw(i) => PushAwExpected(s, i, s', t);
    case Message(i) => MessageExpected(s, i, s', t);
    case DoPushMs(i) => PushMsExpected(s, i, s', t);
    case Sleep(i) => SleepExpected(s, i, s', t);
    case Signal(i, err) => SignalExpected(s, i, err, s', t);
    case Resume(i) => ResumeExpected(s, i, s', t);
  }

  lemma SettlingExpected(s: State, a: Action, s': State, t: Id)
    requires IsSettling(a) && StepSettling(s, a) == Some(s') && Expected(s, t) && a.i in s.th && Mentions(s.th[a.i], t)
    requires MayAct(a)
    ensures Expected(s', t)
  {
    match a
    case React(i) => ReactExpected(s, i, s', t);
    case Clear(i) => ClearExpected(s, i, s', t);
  }

  lemma ServingExpected(s: State, a: Action, s': State, t: Id)
    requires IsServing(a) && StepServing(s, a) == Some(s') && Expected(s, t) && Subject(s, a) == Some(t)
    requires MayAct(a) && (a.TakeReply? ==> t !in s.m.aw) && (a.ReadFinish? ==> Mentions(s.th[a.i], t))
    ensures Expected(s', t)
  {
    match a
    case ReadPop(i) => ReadPopExpected(s, i, s', t);
    case ReadFinish(i, tooSmall, delivered) => ReadFinishExpected(s, i, tooSmall, delivered, s', t);
    case TakeReply(i, use) => TakeReplyExpected(s, i, use, s', t);
  }

  lemma StaysExpected(s: State, a: Action, s': State, t: Id)
    requires Step(s, a) == Some(s') && Expected(s, t) && Subject(s, a) == Some(t) && Actor(a).Some? && a.i in s.th
    requires MayAct(a) && !a.Check? && !a.FlushMark? && (a.TakeReply? ==> t !in s.m.aw)
    requires a.ReadPop? || a.TakeReply? || a.FlushPop? || Mentions(s.th[a.i], t)
    ensures Expected(s', t)
  {
    if IsSending(a) { SendingExpected(s, a, s', t); }
    else if IsSettling(a) { SettlingExpected(s, a, s', t); }
    else if IsServing(a) { ServingExpected(s, a, s', t); }
    else { FlushPopExpected(s, a.i, s', t); }
  }

  lemma PendingStays(s: State, a: Action, s': State, t: Id)
    requires DeadMoves(s, a, s') && Pending(s', t)
    ensures Pending(s, t)
  {
    AwCounts(s, a, t);
    if a.DoPushAw? && s.th[a.i].t == t { assert AtAw(s, a.i, t); }
    if a.FlushPop? && s.m.aw != [] { RestCount(s.m.aw, s.m.aw[0]); }
    if j :| AtAw(s', j, t) { NobodyComes(s, a, s', j, t); }
  }

  /** These steps take t off the answer queue for good. */
  lemma Taken(s: State, a: Action, s': State, t: Id)
    requires DeadMoves(s, a, s') && OnceOnAw(s, t)
    requires (a.TakeReply? && a.use.id == t && t in s.m.aw) || (a.FlushMark? && s.th[a.i].t == t)
    ensures !Pending(s', t)
  {
    AwCounts(s, a, t);
    assert t in s.m.aw <==> t in multiset(s.m.aw);
    if a.FlushMark? { assert AtAw(s, a.i, t); }
    forall j ensures !AtAw(s', j, t) { NobodyComes(s, a, s', j, t); }
  }

  lemma CheckFindsDead(s: State, i: Tid, t: Id)
    requires Expected(s, t) && Pending(s, t) && s.At(i, Holding(t, WaitEnter)) && s.m.dead
    ensures FindsDead(s, Check(i), t)
  {
    assert ExpectingPc(s, t, i);
    assert t in s.m.aw <==> t in multiset(s.m.aw);
    if j :| AtAw(s, j, t) { assert ExpectingPc(s, t, j); }
  }

  /** A step that leaves t pending is no such step, and does not find the session dead. */
  lemma StillPending(s: State, a: Action, s': State, t: Id)
    requires DeadMoves(s, a, s') && (s.m.dead || !a.Check?) && MayAct(a) && OnceOnAw(s, t)
    requires Expected(s, t) && Pending(s, t) && Pending(s', t) && !FindsDead(s, a, t)
    requires a.ReadPop? || a.TakeReply? || a.FlushPop? || Mentions(s.th[a.i], t)
    requires a.Check? ==> s.th[a.i] == Holding(t, WaitEnter)
    ensures !a.Check? && !a.FlushMark? && (a.TakeReply? && a.use.id == t ==> t !in s.m.aw)
  {
    if a.FlushMark? || (a.TakeReply? && a.use.id == t && t in s.m.aw) { Taken(s, a, s', t); }
    if a.Check? { CheckFindsDead(s, a.i, t); }
  }

  lemma SubjectStaysExpected(s: State, a: Action, s': State, t: Id)
    requires Step(s, a) == Some(s') && DeadMoves(s, a, s') && (s.m.dead || !a.Check?) && Subject(s, a) == Some(t)
    requires OnceOnAw(s, t) && Expected(s, t) && Pending(s, t) && Pending(s', t) && !FindsDead(s, a, t)
    ensures Expected(s', t)
  {
    ActorExpects(s, a, t);
    StillPending(s, a, s', t);
    StaysExpected(s, a, s', t);
  }

  lemma StepStaysSafe(s: State, a: Action, s': State, t: Id)
    requires Safe(s, t) && Step(s, a) == Some(s') && (s.m.dead || s'.m.dead) && !FindsDead(s, a, t)
    ensures Safe(s', t)
  {
    StepDead(s, a, s');
    StepKeepsOnAw(s, a, s', t);
    if !s.m.dead { KillingStep(s, a, s'); }
    if Pending(s', t) {
      PendingStays(s, a, s', t);
      if Subject(s, a) == Some(t) {
        SubjectStaysExpected(s, a, s', t);
      } else {
        StepAway(s, a, s', t);
        AwayStaysExpected(s, s', t);
      }
    }
  }

  // ---- Whole runs ---------------------------------------------------------------------------------

  lemma LiveExpectsPc(s: State, t: Id, j: Tid)
    requires Good(s) && s.Knows(t) && Pending(s, t) && j in s.th
    ensures ExpectingPc(s, t, j)
  {
    assert TicketOk(s, t) && ThreadOk(s, j);
    assert t in s.m.aw <==> t in multiset(s.m.aw);
    if f :| AtAw(s, f, t) { assert ThreadOk(s, f); }
  }

  lemma LiveIsSafe(s: State, t: Id)
    requires Good(s)
    ensures Safe(s, t)
  {
    LiveIsOnce(s, t);
    if Pending(s, t) {
      assert t in s.m.aw <==> t in multiset(s.m.aw);
      if f :| AtAw(s, f, t) { assert ThreadOk(s, f); }
      assert s.Knows(t) && TicketOk(s, t);
      assert s.tr[t].owner.Some? ==> ThreadOk(s, s.tr[t].owner.value);
      forall j | j in s.th ensures ExpectingPc(s, t, j) { LiveExpectsPc(s, t, j); }
    }
  }

  ghost predicate FindsDeadAt(s0: State, run: seq<Action>, n: nat, t: Id)
    requires n < |run|
  {
    Run(s0, run[..n]).Some? && FindsDead(Run(s0, run[..n]).value, run[n], t)
  }

  /** In some step of the run the requester of t found the session dead while t was on the answer
    * queue or in the hand of a flush.
    */
  ghost predicate FoundDead(s0: State, run: seq<Action>, t: Id) {
    exists n: nat {:trigger FindsDeadAt(s0, run, n, t)} :: n < |run| && FindsDeadAt(s0, run, n, t)
  }

  lemma FoundDeadBefore(s0: State, run: seq<Action>, t: Id)
    requires run != [] && FoundDead(s0, run[..|run| - 1], t)
    ensures FoundDead(s0, run, t)
  {
    var before := run[..|run| - 1];
    var n: nat :| n < |before| && FindsDeadAt(s0, before, n, t);
    assert before[..n] == run[..n];
    assert FindsDeadAt(s0, run, n, t);
  }

  lemma {:induction false} RunIsSafe(s0: State, run: seq<Action>, s: State, t: Id)
    requires Init(s0) && Run(s0, run) == Some(s) && !FoundDead(s0, run, t)
    ensures Safe(s, t)
  {
    if !s.m.dead {
      LiveRunIsGood(s0, run, s);
      LiveIsSafe(s, t);
    } else if run != [] {
      var before, a := run[..|run| - 1], run[|run| - 1];
      var mid := Run(s0, before).value;
      if FoundDead(s0, before, t) { FoundDeadBefore(s0, run, t); }
      RunIsSafe(s0, before, mid, t);
      if FindsDead(mid, a, t) { assert FindsDeadAt(s0, run, |before|, t); }
      StepStaysSafe(mid, a, s, t);
    }
  }

  /** The answer queue links t, or a flush has it in hand. */
  ghost predicate Referred(s: State, t: Id) {
    t in s.m.aw || exists f {:trigger s.th[f]} :: s.At(f, InHand(t))
  }

  lemma ReferredIsKnown(s0: State, run: seq<Action>, s: State, t: Id)
    requires Init(s0) && Run(s0, run) == Some(s) && Referred(s, t)
    ensures s.Knows(t) && Numbered(s)
  {
    RunIsAnyRun(s0, run);
    RunIsAccounted(s0, run);
    Named(s);
    if f :| s.At(f, InHand(t)) { assert s.Knows(s.th[f].t); }
  }

  lemma ReferredIsExpected(s0: State, run: seq<Action>, s: State, t: Id)
    requires Init(s0) && Run(s0, run) == Some(s) && Referred(s, t) && !FoundDead(s0, run, t)
    ensures Expected(s, t) && forall i {:trigger s.th[i]} :: !s.At(i, Holding(t, Dropping))
  {
    RunIsSafe(s0, run, s, t);
    assert t in s.m.aw <==> t in multiset(s.m.aw);
    if f :| s.At(f, InHand(t)) { assert AtAw(s, f, t); }
    forall i ensures !s.At(i, Holding(t, Dropping)) { if i in s.th { assert ExpectingPc(s, t, i); } }
  }

  /** In every run, live or dead: a ticket that has been released, freed or put on the free list
    * while the answer queue or a flush refers to it is one whose requester has found the session
    * dead while that was so.
    */
  lemma ReleasedWhileReferredTo(s0: State, run: seq<Action>, s: State, t: Id)
    requires Init(s0) && Run(s0, run) == Some(s) && Referred(s, t)
    ensures s.Knows(t)
    ensures Freed(s, t) || t in s.m.free || s.tr[t].now.drops > 0 ==> FoundDead(s0, run, t)
  {
    ReferredIsKnown(s0, run, s, t);
    if !FoundDead(s0, run, t) { ReferredIsExpected(s0, run, s, t); }
  }

  lemma FreeingStep(s: State, a: Action, s': State, t: Id)
    requires Numbered(s) && Next(s, a) == Some(s') && s.Knows(t) && !Freed(s, t)
    ensures Freed(s', t) <==> Destroys(s, a, t)
  {
    if Subject(s, a) == Some(t) {
      SubjectIsKnown(s, a, t);
      assert a.Allocate? ==> !s.Knows(t);
      SubjectLife(s, a, s', t);
    } else {
      StepAway(s, a, s', t);
    }
  }

  /** Exactly when such a ticket is freed: at the decision of fuse_ticket_drop, if the ticket must
    * die then.
    */
  lemma FreedWhileReferredToExactly(s0: State, run: seq<Action>, s: State, a: Action, s': State, t: Id)
    requires Init(s0) && Run(s0, run) == Some(s) && Next(s, a) == Some(s') && Referred(s, t) && !Freed(s, t)
    ensures Freed(s', t) <==> a.Decide? && s.At(a.i, Holding(t, Dropping)) && s.Knows(t) && MustDie(s.m, t)
    ensures Freed(s', t) ==> FoundDead(s0, run, t)
  {
    ReferredIsKnown(s0, run, s, t);
    FreeingStep(s, a, s', t);
    if Freed(s', t) && !FoundDead(s0, run, t) { ReferredIsExpected(s0, run, s, t); }
  }

  lemma CheckTells(s: State, i: Tid, t: Id, s': State)
    requires FindsDead(s, Check(i), t) && s.AwMtxFree(t) && !Freed(s, t)
    requires s' == s.SetK(t, s.m.tk[t].(answered := true)).Go(i, Holding(t, Waited(ENOTCONN)))
    ensures Run(s, [Check(i)]) == Some(s') && s'.AwMtxFree(t)
  {
    assert StepCheck(s, i) == Some(s');
    OwnStep(s, Check(i), s', t);
  }

  lemma TellingReleases(s: State, i: Tid, t: Id, s': State)
    requires s.At(i, Holding(t, Waited(ENOTCONN))) && s.Knows(t) && s.m.tk[t].answered && s.AwMtxFree(t) && !Freed(s, t)
    requires s' == s.Release(i, t)
    ensures Run(s, [React(i)]) == Some(s')
  {
    assert StepReact(s, i) == Some(s');
    OwnStep(s, React(i), s', t);
  }

  lemma DropDecides(s: State, i: Tid, t: Id)
    requires s.At(i, Holding(t, Dropping)) && s.Knows(t) && !Freed(s, t)
    ensures var r := Run(s, [Decide(i)]);
      r.Some? && r.value.m.aw == s.m.aw && (Freed(r.value, t) <==> MustDie(s.m, t))
  {
    assert StepDecide(s, i).Some?;
    OneStep(s, Decide(i), StepDecide(s, i).value);
  }

  /** And from there the requester goes on to release its ticket, which stays on the answer queue. */
  lemma FindingDeadReleases(s: State, i: Tid, t: Id)
    requires FindsDead(s, Check(i), t) && t in s.m.aw && s.AwMtxFree(t) && !Freed(s, t)
    ensures var r := Run(s, [Check(i), React(i), Decide(i)]);
      r.Some? && t in r.value.m.aw && (Freed(r.value, t) <==> MustDie(s.m, t))
  {
    var s1 := s.SetK(t, s.m.tk[t].(answered := true)).Go(i, Holding(t, Waited(ENOTCONN)));
    CheckTells(s, i, t, s1);
    var s2 := s1.Release(i, t);
    TellingReleases(s1, i, t, s2);
    DropDecides(s2, i, t);
    RunsJoin(s, [Check(i)], s1, [React(i)]);
    assert [Check(i)] + [React(i)] == [Check(i), React(i)];
    RunsJoin(s, [Check(i), React(i)], s2, [Decide(i)]);
    assert [Check(i), React(i)] + [Decide(i)] == [Check(i), React(i), Decide(i)];
  }
}
