/** A request of a live session step by step: what each part of its way to the daemon and back leaves
  * behind, from any state that a run can reach.
  */
module TicketTrip {
  import opened Lists
  import opened TicketMemory
  import opened TicketProtocol
  import opened TicketFrame
  import opened TicketInvariant
  import opened TicketTheorems
  import opened TicketTwice
  import opened TicketOutcome

  // ---- Steps of a live session ----------------------------------------------------------------------

  /** Nobody moves but the one or two threads. */
  ghost predicate OnlyTheseMove(s: State, s': State, i: Tid, w: Tid) {
    s'.th.Keys == s.th.Keys && forall j {:trigger s'.th[j]} :: j in s.th && j != i && j != w ==> s'.th[j] == s.th[j]
  }

  /** The step goes through, and leaves the session as live sessions are. */
  ghost predicate Goes(s: State, a: Action, s': State) {
    Next(s, a) == Some(s') && AgeWindow(s, a) && Good(s')
  }

  lemma StepGoes(s: State, a: Action, s': State)
    requires Good(s) && Step(s, a) == Some(s') && !a.Clear? && !s'.m.dead
    ensures Goes(s, a, s')
  {
    if Actor(a).Some? { StepFits(s, a); }
    if t :| t in Touched(s, a) && Freed(s, t) { TouchesAlive(s, a, t); }
    StepKeepsGood(s, a, s');
  }

  lemma TwoSteps(s: State, a: Action, s1: State, b: Action, s2: State)
    requires Goes(s, a, s1) && Goes(s1, b, s2)
    ensures Run(s, [a, b]) == Some(s2)
  {
    OneStep(s, a, s1);
    OneStep(s1, b, s2);
    RunsJoin(s, [a], s1, [b]);
    assert [a] + [b] == [a, b];
  }

  lemma ThreeSteps(s: State, a: Action, s1: State, b: Action, s2: State, c: Action, s3: State)
    requires Goes(s, a, s1) && Goes(s1, b, s2) && Goes(s2, c, s3)
    ensures Run(s, [a, b, c]) == Some(s3)
  {
    TwoSteps(s, a, s1, b, s2);
    OneStep(s2, c, s3);
    RunsJoin(s, [a, b], s2, [c]);
    assert [a, b] + [c] == [a, b, c];
  }

  /** The ticket of a holder is known, and its tk_aw_mtx is free unless the holder has it. */
  lemma HolderFacts(s: State, i: Tid, t: Id)
    requires Good(s) && s.Holds(i) && s.th[i].t == t
    ensures s.Knows(t) && ThreadOk(s, i) && TicketOk(s, t) && (s.th[i].stage != WaitLocked ==> s.AwMtxFree(t))
    ensures forall j {:trigger s.th[j]} :: j in s.th && j != i && s.Holds(j) ==> s.th[j].t != t
  {
    HolderAlone(s, i, t);
    assert ThreadOk(s, i) && TicketOk(s, t);
  }

  lemma SleeperFacts(s: State, a: Tid, t: Id)
    requires Good(s) && s.At(a, Holding(t, Asleep))
    ensures s.Knows(t) && !s.m.tk[t].answered && s.m.tk[t].handler == StandardHandler && s.AwMtxFree(t)
    ensures forall j {:trigger s.th[j]} :: j in s.th && s.th[j] == Holding(t, Asleep) ==> j == a
  {
    HolderFacts(s, a, t);
  }

  // ---- The reply -------------------------------------------------------------------------------

  /** A writer takes the ticket off the answer queue. */
  lemma WriterTakes(s: State, w: Tid, t: Id) returns (s': State)
    requires Good(s) && s.At(w, Idle) && t in s.tr && s.Cur(t) in s.daemon
    ensures Goes(s, TakeReply(w, s.Cur(t)), s') && s'.At(w, Writing(t)) && OnlyMoves(s, s', w)
    ensures s'.m == s.m.(aw := Without(s.m.aw, t)) && s'.daemon == s.daemon - {s.Cur(t)}
  {
    ReplyFindsTicket(s, s.Cur(t));
    s' := StepTakeReply(s, w, s.Cur(t)).value;
    StepGoes(s, TakeReply(w, s.Cur(t)), s');
  }

  /** With a handler, the reply's header is recorded and the handler called. */
  lemma WriterDispatches(s: State, w: Tid, t: Id, o: Outcome, kill: bool) returns (s': State)
    requires Good(s) && s.At(w, Writing(t)) && s.Knows(t) && s.m.tk[t].handler == StandardHandler
    ensures Goes(s, Dispatch(w, o.status, o.err, kill), s') && OnlyMoves(s, s', w) && s'.daemon == s.daemon
    ensures s'.At(w, Pulled(t, if o.status != 0 then 0 else o.err))
    ensures s'.m == s.m.(tk := s.m.tk[t := s.m.tk[t].(status := o.status, killl := s.m.tk[t].killl || kill)])
  {
    s' := StepDispatch(s, w, o.status, o.err, kill).value;
    StepGoes(s, Dispatch(w, o.status, o.err, kill), s');
  }

  /** The handler records the outcome and wakes the sleeper. */
  lemma WriterAnswers(s: State, w: Tid, a: Tid, t: Id, e: int) returns (s': State)
    requires Good(s) && s.At(w, Pulled(t, e)) && s.At(a, Holding(t, Asleep))
    ensures s.Knows(t) && Goes(s, Answer(w), s') && s'.At(w, Idle) && s'.At(a, Holding(t, Woken(0)))
    ensures OnlyTheseMove(s, s', a, w) && s'.daemon == s.daemon
    ensures s'.m == s.m.(tk := s.m.tk[t := s.m.tk[t].(answered := true, errno := e)])
  {
    SleeperFacts(s, a, t);
    s' := AnswerDoes(s, w, a, t, e);
    StepGoes(s, Answer(w), s');
  }

  lemma AnswerDoes(s: State, w: Tid, a: Tid, t: Id, e: int) returns (s': State)
    requires s.At(w, Pulled(t, e)) && s.At(a, Holding(t, Asleep)) && s.Knows(t) && !s.m.tk[t].answered && s.AwMtxFree(t)
    requires forall j {:trigger s.th[j]} :: j in s.th && s.th[j] == Holding(t, Asleep) ==> j == a
    ensures Step(s, Answer(w)) == Some(s') && s'.At(w, Idle) && s'.At(a, Holding(t, Woken(0)))
    ensures OnlyTheseMove(s, s', a, w) && s'.daemon == s.daemon
    ensures s'.m == s.m.(tk := s.m.tk[t := s.m.tk[t].(answered := true, errno := e)])
  {
    s' := StepAnswer(s, w).value;
  }

  /** The ticket after the reply. */
  function Replied(k: Ticket, o: Outcome, kill: bool): Ticket {
    k.(answered := true, status := o.status, errno := if o.status != 0 then 0 else o.err, killl := k.killl || kill)
  }

  lemma ReplyRecorded(m: Memory, t: Id, o: Outcome, kill: bool, m1: Memory, m2: Memory, m3: Memory)
    requires t in m.tk && m1 == m.(aw := Without(m.aw, t))
    requires m2 == m1.(tk := m1.tk[t := m1.tk[t].(status := o.status, killl := m1.tk[t].killl || kill)])
    requires m3 == m2.(tk := m2.tk[t := m2.tk[t].(answered := true, errno := if o.status != 0 then 0 else o.err)])
    ensures m3 == m.(aw := Without(m.aw, t), tk := m.tk[t := Replied(m.tk[t], o, kill)])
  {
  }

  /** The steps of a fuse_device_write that answers use u. */
  function WriteSteps(w: Tid, u: Use, o: Outcome, kill: bool): seq<Action> {
    [TakeReply(w, u), Dispatch(w, o.status, o.err, kill), Answer(w)]
  }

  /** The daemon's reply to a request whose requester is asleep wakes it up. The writer is done. */
  lemma ReplyWakes(s: State, a: Tid, w: Tid, t: Id, o: Outcome, kill: bool) returns (s': State)
    requires Good(s) && s.At(a, Holding(t, Asleep)) && s.At(w, Idle) && t in s.tr && s.Cur(t) in s.daemon
    ensures Run(s, WriteSteps(w, s.Cur(t), o, kill)) == Some(s') && Good(s')
    ensures s'.At(w, Idle) && s'.At(a, Holding(t, Woken(0))) && OnlyTheseMove(s, s', a, w)
    ensures s'.daemon == s.daemon - {s.Cur(t)} && s.Knows(t)
    ensures s'.m == s.m.(aw := Without(s.m.aw, t), tk := s.m.tk[t := Replied(s.m.tk[t], o, kill)])
  {
    SleeperFacts(s, a, t);
    var s1 := WriterTakes(s, w, t);
    var s2 := WriterDispatches(s1, w, t, o, kill);
    s' := WriterAnswers(s2, w, a, t, s2.th[w].err);
    ReplyRecorded(s.m, t, o, kill, s1.m, s2.m, s'.m);
    ThreeSteps(s, TakeReply(w, s.Cur(t)), s1, Dispatch(w, o.status, o.err, kill), s2, Answer(w), s');
  }

  /** The requester resumes and looks at the outcome. */
  lemma SleeperReacts(s: State, a: Tid, t: Id) returns (s': State)
    requires Good(s) && s.At(a, Holding(t, Woken(0)))
    ensures s.Knows(t) && Run(s, [Resume(a), React(a)]) == Some(s') && Good(s') && OnlyMoves(s, s', a)
    ensures s'.daemon == s.daemon && s'.m == s.m
    ensures s'.At(a, Holding(t, if s.m.tk[t].errno == 0 && s.m.tk[t].status == 0 then HaveAnswer else Dropping))
  {
    HolderFacts(s, a, t);
    var s1 := s.Go(a, Holding(t, Waited(0)));
    assert StepResume(s, a) == Some(s1);
    StepGoes(s, Resume(a), s1);
    s' := StepReact(s1, a).value;
    StepGoes(s1, React(a), s');
    TwoSteps(s, Resume(a), s1, React(a), s');
  }

  /** In every reachable state of a live session: the daemon's reply reaches the requester. That gets
    * the answer exactly if the reply is a success, and otherwise releases the ticket and returns the
    * error of the header, or EIO. The writer is done, and nothing else changes.
    */
  lemma ReplyReachesTheSleeper(s0: State, run: seq<Action>, s: State, a: Tid, w: Tid, t: Id, o: Outcome, kill: bool)
    returns (s': State)
    requires Init(s0) && Run(s0, run) == Some(s) && !s.m.dead
    requires s.At(a, Holding(t, Asleep)) && s.At(w, Idle) && t in s.tr && s.Cur(t) in s.daemon
    ensures Run(s, WriteSteps(w, s.Cur(t), o, kill) + [Resume(a), React(a)]) == Some(s')
    ensures s'.At(w, Idle) && s'.At(a, Holding(t, if IsSuccess(o) then HaveAnswer else Dropping))
    ensures OnlyTheseMove(s, s', a, w) && s'.daemon == s.daemon - {s.Cur(t)} && s.Knows(t)
    ensures s'.m == s.m.(aw := Without(s.m.aw, t), tk := s.m.tk[t := Replied(s.m.tk[t], o, kill)])
    ensures Returned(s'.m.tk[t], 0) == (if o.status != 0 then o.status else if o.err != 0 then EIO else 0)
  {
    LiveRunIsGood(s0, run, s);
    var s1 := ReplyWakes(s, a, w, t, o, kill);
    s' := SleeperReacts(s1, a, t);
    RunsJoin(s, WriteSteps(w, s.Cur(t), o, kill), s1, [Resume(a), React(a)]);
  }

  // ---- The way to the daemon --------------------------------------------------------------------

  /** The ticket on the message queue. */
  function ForMode(k: Ticket, mode: Mode): Ticket {
    if mode == Forget then k.(inval := true, dirty := true)
    else k.(handler := if mode == Foreground then StandardHandler else NoHandler, dirty := true)
  }

  /** The steps from the request made to its message on the queue. */
  function PostSteps(i: Tid, mode: Mode): seq<Action> {
    if mode == Forget then [Post(i, mode), Message(i), DoPushMs(i)]
    else [Post(i, mode), DoPushAw(i), Message(i), DoPushMs(i)]
  }

  lemma MadeFacts(s: State, i: Tid, t: Id)
    requires Good(s) && s.At(i, Holding(t, Made))
    ensures s.Knows(t) && !s.m.tk[t].answered && !s.m.tk[t].inval && !s.m.tk[t].dirty && s.AwMtxFree(t)
    ensures t !in s.m.aw && t !in s.m.ms && s.awOwner == None
    ensures s.Cur(t) !in s.daemon
  {
    HolderFacts(s, i, t);
  }

  /** The first step takes a FORGET past fuse_insert_callback, and any other request into it. */
  lemma PostBegins(s: State, i: Tid, t: Id, mode: Mode) returns (s': State)
    requires Good(s) && s.At(i, Holding(t, Made))
    ensures s.Knows(t) && Goes(s, Post(i, mode), s') && OnlyMoves(s, s', i) && s'.daemon == s.daemon
    ensures s'.At(i, Holding(t, if mode == Forget then Posted(mode) else PushingAw(mode)))
    ensures s'.m == s.m.(tk := s.m.tk[t := ForMode(s.m.tk[t], mode).(dirty := false)])
    ensures t in s'.tr && s'.Cur(t) == s.Cur(t)
  {
    MadeFacts(s, i, t);
    s' := StepPost(s, i, mode).value;
    StepGoes(s, Post(i, mode), s');
  }

  lemma CallbackInserted(s: State, i: Tid, t: Id, mode: Mode) returns (s': State)
    requires Good(s) && s.At(i, Holding(t, PushingAw(mode)))
    ensures Goes(s, DoPushAw(i), s') && OnlyMoves(s, s', i) && s'.daemon == s.daemon
    ensures s'.At(i, Holding(t, Posted(mode))) && s'.m == s.m.(aw := s.m.aw + [t])
    ensures t in s.tr && t in s'.tr && s'.Cur(t) == s.Cur(t)
  {
    HolderFacts(s, i, t);
    s' := StepPushAw(s, i).value;
    StepGoes(s, DoPushAw(i), s');
  }

  /** A foreground requester goes on to wait; a request that nobody waits for is on its own now. */
  lemma MessageInserted(s: State, i: Tid, t: Id, mode: Mode) returns (s': State)
    requires Good(s) && s.At(i, Holding(t, Posted(mode)))
    ensures s.Knows(t) && Run(s, [Message(i), DoPushMs(i)]) == Some(s') && Good(s') && OnlyMoves(s, s', i)
    ensures s'.daemon == s.daemon && s'.At(i, if mode == Foreground then Holding(t, WaitEnter) else Idle)
    ensures s'.m == s.m.(ms := s.m.ms + [t], tk := s.m.tk[t := s.m.tk[t].(dirty := true)])
    ensures t in s'.tr && s'.Cur(t) == s.Cur(t)
  {
    HolderFacts(s, i, t);
    var s1 := StepMessage(s, i).value;
    StepGoes(s, Message(i), s1);
    assert s1.At(i, Holding(t, PushingMs(mode)));
    s' := PushMsDoes(s1, i, t, mode);
    StepGoes(s1, DoPushMs(i), s');
    TwoSteps(s, Message(i), s1, DoPushMs(i), s');
  }

  lemma PushMsDoes(s: State, i: Tid, t: Id, mode: Mode) returns (s': State)
    requires s.At(i, Holding(t, PushingMs(mode))) && s.Knows(t)
    ensures Step(s, DoPushMs(i)) == Some(s') && OnlyMoves(s, s', i) && s'.daemon == s.daemon
    ensures s'.At(i, if mode == Foreground then Holding(t, WaitEnter) else Idle)
    ensures s'.m == s.m.(ms := s.m.ms + [t])
    ensures t in s.tr && t in s'.tr && s'.Cur(t) == s.Cur(t)
  {
    s' := StepPushMs(s, i).value;
  }

  lemma PostRecorded(m: Memory, t: Id, mode: Mode, m1: Memory, m2: Memory, m3: Memory)
    requires t in m.tk && m1 == m.(tk := m.tk[t := ForMode(m.tk[t], mode).(dirty := false)])
    requires m2 == if mode == Forget then m1 else m1.(aw := m1.aw + [t])
    requires m3 == m2.(ms := m2.ms + [t], tk := m2.tk[t := m2.tk[t].(dirty := true)])
    ensures m3 == m.(ms := m.ms + [t], aw := if mode == Forget then m.aw else m.aw + [t],
                     tk := m.tk[t := ForMode(m.tk[t], mode)])
  {
  }

  lemma ForgetIsPosted(s: State, i: Tid, t: Id) returns (s': State)
    requires Good(s) && s.At(i, Holding(t, Made))
    ensures s.Knows(t) && Run(s, PostSteps(i, Forget)) == Some(s') && Good(s') && OnlyMoves(s, s', i)
    ensures s'.daemon == s.daemon && s'.At(i, Idle)
    ensures s'.m == s.m.(ms := s.m.ms + [t], tk := s.m.tk[t := ForMode(s.m.tk[t], Forget)])
    ensures t in s'.tr && s'.Cur(t) == s.Cur(t)
  {
    var s1 := PostBegins(s, i, t, Forget);
    s' := MessageInserted(s1, i, t, Forget);
    PostRecorded(s.m, t, Forget, s1.m, s1.m, s'.m);
    OneStep(s, Post(i, Forget), s1);
    RunsJoin(s, [Post(i, Forget)], s1, [Message(i), DoPushMs(i)]);
    assert [Post(i, Forget)] + [Message(i), DoPushMs(i)] == PostSteps(i, Forget);
  }

  lemma CallIsPosted(s: State, i: Tid, t: Id, mode: Mode) returns (s': State)
    requires Good(s) && s.At(i, Holding(t, Made)) && mode != Forget
    ensures s.Knows(t) && Run(s, PostSteps(i, mode)) == Some(s') && Good(s') && OnlyMoves(s, s', i)
    ensures s'.daemon == s.daemon && s'.At(i, if mode == Foreground then Holding(t, WaitEnter) else Idle)
    ensures s'.m == s.m.(ms := s.m.ms + [t], aw := s.m.aw + [t], tk := s.m.tk[t := ForMode(s.m.tk[t], mode)])
    ensures t in s'.tr && s'.Cur(t) == s.Cur(t)
  {
    var s1 := PostBegins(s, i, t, mode);
    var s2 := CallbackInserted(s1, i, t, mode);
    s' := MessageInserted(s2, i, t, mode);
    PostRecorded(s.m, t, mode, s1.m, s2.m, s'.m);
    TwoSteps(s, Post(i, mode), s1, DoPushAw(i), s2);
    RunsJoin(s, [Post(i, mode), DoPushAw(i)], s2, [Message(i), DoPushMs(i)]);
    assert [Post(i, mode), DoPushAw(i)] + [Message(i), DoPushMs(i)] == PostSteps(i, mode);
  }

  /** A request is posted: its ticket becomes the last on the message queue and, unless it is a FORGET,
    * on the answer queue, with the handler for its mode.
    */
  lemma RequestIsPosted(s: State, i: Tid, t: Id, mode: Mode) returns (s': State)
    requires Good(s) && s.At(i, Holding(t, Made))
    ensures s.Knows(t) && Run(s, PostSteps(i, mode)) == Some(s') && Good(s') && OnlyMoves(s, s', i)
    ensures s'.daemon == s.daemon && s'.At(i, if mode == Foreground then Holding(t, WaitEnter) else Idle)
    ensures s'.m == s.m.(ms := s.m.ms + [t], aw := if mode == Forget then s.m.aw else s.m.aw + [t],
                         tk := s.m.tk[t := ForMode(s.m.tk[t], mode)])
    ensures t in s'.tr && s'.Cur(t) == s.Cur(t)
  {
    if mode == Forget { s' := ForgetIsPosted(s, i, t); } else { s' := CallIsPosted(s, i, t, mode); }
  }

  /** A requester whose ticket is not answered yet goes to sleep, and changes nothing else. */
  lemma RequesterSleeps(s: State, i: Tid, t: Id) returns (s': State)
    requires Good(s) && s.At(i, Holding(t, WaitEnter)) && s.Knows(t) && !s.m.tk[t].answered
    ensures Run(s, [Check(i), Sleep(i)]) == Some(s') && Good(s') && OnlyMoves(s, s', i)
    ensures s'.At(i, Holding(t, Asleep)) && s'.m == s.m && s'.daemon == s.daemon && s'.tr == s.tr
  {
    HolderFacts(s, i, t);
    var s1 := s.Go(i, Holding(t, WaitLocked));
    assert StepCheck(s, i) == Some(s1);
    StepGoes(s, Check(i), s1);
    s' := s1.Go(i, Holding(t, Asleep));
    StepGoes(s1, Sleep(i), s');
    TwoSteps(s, Check(i), s1, Sleep(i), s');
  }

  lemma MessageIsTaken(s: State, w: Tid, t: Id) returns (s': State)
    requires Good(s) && s.At(w, Idle) && s.m.ms != [] && s.m.ms[0] == t
    ensures s.Knows(t) && s'.Knows(t) && Goes(s, ReadPop(w), s') && s'.At(w, Reading(t)) && OnlyMoves(s, s', w)
    ensures s'.m == s.m.(ms := s.m.ms[1..]) && s'.daemon == s.daemon && s'.Cur(t) == s.Cur(t)
  {
    assert t in s.m.ms;
    assert s.Knows(t);
    s' := StepReadPop(s, w).value;
    StepGoes(s, ReadPop(w), s');
  }

  lemma ReadEnds(s: State, w: Tid, t: Id) returns (s': State)
    requires s.At(w, Reading(t)) && s.Knows(t) && !s.m.dead
    ensures Step(s, ReadFinish(w, false, true)) == Some(s') && OnlyMoves(s, s', w)
    ensures s'.m == s.m && t in s'.tr && s'.Cur(t) == s.Cur(t)
    ensures s.m.tk[t].inval ==> s'.At(w, Holding(t, Dropping)) && s'.daemon == s.daemon
    ensures !s.m.tk[t].inval ==> s'.At(w, Idle) && s'.daemon == s.daemon + {s.Cur(t)}
  {
    s' := StepReadFinish(s, w, false, true).value;
  }

  /** The oldest message is read: a FORGET is released by its reader, and of any other request the
    * daemon now owes the reply.
    */
  lemma MessageIsRead(s: State, w: Tid, t: Id) returns (s': State)
    requires Good(s) && s.At(w, Idle) && s.m.ms != [] && s.m.ms[0] == t
    ensures s.Knows(t) && Run(s, [ReadPop(w), ReadFinish(w, false, true)]) == Some(s') && Good(s')
    ensures OnlyMoves(s, s', w)
    ensures s'.m == s.m.(ms := s.m.ms[1..]) && t in s'.tr && s'.Cur(t) == s.Cur(t)
    ensures s.m.tk[t].inval ==> s'.At(w, Holding(t, Dropping)) && s'.daemon == s.daemon
    ensures !s.m.tk[t].inval ==> s'.At(w, Idle) && s'.daemon == s.daemon + {s.Cur(t)}
  {
    var s1 := MessageIsTaken(s, w, t);
    s' := ReadEnds(s1, w, t);
    StepGoes(s1, ReadFinish(w, false, true), s');
    TwoSteps(s, ReadPop(w), s1, ReadFinish(w, false, true), s');
  }

  // ---- The end of a use ----------------------------------------------------------------------------

  /** The ticket ready for its next use; the age is a 32-bit number. */
  function Renewed(k: Ticket): Ticket {
    Ticket(false, false, false, false, (k.age + 1) % 0x1_0000_0000, k.handler, 0, 0)
  }

  /** A released ticket is destroyed if it is marked so or there are enough free ones, and else renewed
    * and put at the end of the free list.
    */
  lemma TicketIsDropped(s: State, i: Tid, t: Id) returns (s': State)
    requires Good(s) && s.At(i, Holding(t, Dropping))
    ensures s.Knows(t)
    ensures var dies := s.m.tk[t].killl || s.m.freeCount >= s.m.maxFree;
      && Run(s, if dies then [Decide(i)] else [Decide(i), Recycle(i)]) == Some(s') && Good(s') && OnlyMoves(s, s', i)
      && s'.At(i, Idle) && s'.daemon == s.daemon
      && (dies ==> s'.m == s.m.(all := Without(s.m.all, t), deadCount := s.m.deadCount + 1)
                   && t in s'.tr && s'.tr[t].life == Destroyed)
      && (!dies ==> s'.m == s.m.(free := s.m.free + [t], freeCount := s.m.freeCount + 1,
                                 tk := s.m.tk[t := Renewed(s.m.tk[t])])
                    && t in s'.tr && s'.tr[t].life == Free)
  {
    HolderFacts(s, i, t);
    if s.m.tk[t].killl || s.m.freeCount >= s.m.maxFree {
      s' := TicketIsDestroyed(s, i, t);
      OneStep(s, Decide(i), s');
    } else {
      var s1 := s.Go(i, Holding(t, Recycling));
      assert StepDecide(s, i) == Some(s1);
      StepGoes(s, Decide(i), s1);
      s' := TicketIsRecycled(s1, i, t);
      TwoSteps(s, Decide(i), s1, Recycle(i), s');
    }
  }

  lemma TicketIsDestroyed(s: State, i: Tid, t: Id) returns (s': State)
    requires Good(s) && s.At(i, Holding(t, Dropping)) && s.Knows(t)
    requires s.m.tk[t].killl || s.m.freeCount >= s.m.maxFree
    ensures Goes(s, Decide(i), s') && OnlyMoves(s, s', i) && s'.At(i, Idle) && s'.daemon == s.daemon
    ensures s'.m == s.m.(all := Without(s.m.all, t), deadCount := s.m.deadCount + 1)
    ensures t in s'.tr && s'.tr[t].life == Destroyed
  {
    HolderFacts(s, i, t);
    s' := StepDecide(s, i).value;
    StepGoes(s, Decide(i), s');
  }

  lemma TicketIsRecycled(s: State, i: Tid, t: Id) returns (s': State)
    requires Good(s) && s.At(i, Holding(t, Recycling))
    ensures s.Knows(t) && Goes(s, Recycle(i), s') && OnlyMoves(s, s', i) && s'.At(i, Idle) && s'.daemon == s.daemon
    ensures s'.m == s.m.(free := s.m.free + [t], freeCount := s.m.freeCount + 1, tk := s.m.tk[t := Renewed(s.m.tk[t])])
    ensures t in s'.tr && s'.tr[t].life == Free
  {
    HolderFacts(s, i, t);
    s' := StepRecycle(s, i).value;
    StepGoes(s, Recycle(i), s');
  }

  /** What the caller can do with an answer: drop the ticket, ... */
  lemma AnswerIsDropped(s: State, i: Tid, t: Id) returns (s': State)
    requires Good(s) && s.At(i, Holding(t, HaveAnswer))
    ensures Goes(s, CallerDrop(i), s') && OnlyMoves(s, s', i) && s'.At(i, Holding(t, Dropping))
    ensures s'.m == s.m && s'.daemon == s.daemon
  {
    HolderFacts(s, i, t);
    s' := StepCallerDrop(s, i).value;
    StepGoes(s, CallerDrop(i), s');
  }

  /** ... or make its next request with it. */
  lemma AnswerIsFollowed(s: State, i: Tid, t: Id) returns (s': State)
    requires Good(s) && s.At(i, Holding(t, HaveAnswer))
    ensures s.Knows(t) && Goes(s, CallerReuse(i), s') && OnlyMoves(s, s', i) && s'.At(i, Holding(t, Made))
    ensures s'.m == s.m.(tk := s.m.tk[t := Renewed(s.m.tk[t])]) && s'.daemon == s.daemon
    ensures t in s'.tr && s'.Cur(t) == Use(t, s.tr[t].gen + 1)
  {
    HolderFacts(s, i, t);
    s' := StepCallerReuse(s, i).value;
    StepGoes(s, CallerReuse(i), s');
  }

  // ---- fuse_ticket_fetch -----------------------------------------------------------------------------

  /** Where a fetch ends: the request waits for FUSE_INIT if it is not the first and the handshake is not
    * over; it fails if there are too many tickets; else it can be made.
    */
  predicate FetchEnds(g: Stage, m: Memory) {
    if !m.inited && m.ticketer > 1 then g == InitSleep
    else if m.maxTickets != 0 && m.ticketer - m.deadCount > m.maxTickets then g == Failing
    else g == Made
  }

  /** A free ticket is fetched, the one that has been free for longest. */
  lemma FreeTicketIsFetched(s: State, i: Tid) returns (s': State)
    requires Good(s) && s.At(i, Idle) && s.m.free != []
    ensures Goes(s, Fetch(i), s') && OnlyMoves(s, s', i) && s'.daemon == s.daemon && s'.Holds(i)
    ensures s'.th[i].t == s.m.free[0] && FetchEnds(s'.th[i].stage, s'.m)
    ensures s'.m == s.m.(free := s.m.free[1..], freeCount := s.m.freeCount - 1)
  {
    assert s.m.free[0] in s.m.free;
    assert s.Knows(s.m.free[0]);
    s' := StepFetch(s, i).value;
    StepGoes(s, Fetch(i), s');
  }

  /** Without a free ticket a new one is made and listed. */
  lemma NewTicketIsFetched(s: State, i: Tid) returns (s': State)
    requires Good(s) && s.At(i, Idle) && s.m.free == []
    ensures Run(s, [Fetch(i), Allocate(i), List(i)]) == Some(s') && Good(s') && OnlyMoves(s, s', i)
    ensures s'.daemon == s.daemon
    ensures s'.Holds(i) && s'.th[i].t == s.m.ticketer && FetchEnds(s'.th[i].stage, s'.m)
    ensures s'.m == s.m.(ticketer := s.m.ticketer + 1, all := s.m.all + [s.m.ticketer],
                         tk := s.m.tk[s.m.ticketer := Ticket(false, false, false, false, 0, NoHandler, 0, 0)])
  {
    var s1 := s.Go(i, Alloc);
    assert StepFetch(s, i) == Some(s1);
    StepGoes(s, Fetch(i), s1);
    var s2 := StepAllocate(s1, i).value;
    StepGoes(s1, Allocate(i), s2);
    s' := StepList(s2, i).value;
    StepGoes(s2, List(i), s');
    ThreeSteps(s, Fetch(i), s1, Allocate(i), s2, List(i), s');
  }

  /** The end of the FUSE_INIT handshake lets everybody go on who waits for it, and only them. */
  lemma HandshakeEnds(s: State, i: Tid)
    requires Good(s) && i in s.th
    ensures Next(s, InitComplete).Some?
    ensures var s' := Next(s, InitComplete).value;
      && s'.m == s.m.(inited := true) && s'.th.Keys == s.th.Keys && s'.daemon == s.daemon && s'.tr == s.tr
      && s'.th[i] == if s.Holds(i) && s.th[i].stage == InitSleep then Holding(s.th[i].t, Made) else s.th[i]
  {
    StepGoes(s, InitComplete, StepInitComplete(s).value);
  }

  // ---- An interrupted requester ------------------------------------------------------------------------

  /** A signal takes a sleeper out of its wait: it marks the ticket answered, returns the error, and has
    * its use of the ticket still to look for.
    */
  lemma SleeperIsInterrupted(s: State, a: Tid, t: Id, e: int) returns (s': State)
    requires Good(s) && s.At(a, Holding(t, Asleep)) && e != 0
    ensures s.Knows(t) && Run(s, [Signal(a, e), Resume(a), React(a)]) == Some(s') && Good(s') && OnlyMoves(s, s', a)
    ensures s'.At(a, Clearing(t, s.m.tk[t].age, s.tr[t].gen)) && Returned(s.m.tk[t], e) == e
    ensures s'.m == s.m.(tk := s.m.tk[t := s.m.tk[t].(answered := true)]) && s'.daemon == s.daemon
  {
    SleeperFacts(s, a, t);
    var s1 := s.Go(a, Holding(t, Woken(e)));
    assert StepSignal(s, a, e) == Some(s1);
    StepGoes(s, Signal(a, e), s1);
    var s2 := s1.Go(a, Holding(t, Waited(e)));
    assert StepResume(s1, a) == Some(s2);
    StepGoes(s1, Resume(a), s2);
    s' := GivesUp(s2, a, t, e);
    StepGoes(s2, React(a), s');
    ThreeSteps(s, Signal(a, e), s1, Resume(a), s2, React(a), s');
  }

  lemma GivesUp(s: State, a: Tid, t: Id, e: int) returns (s': State)
    requires s.At(a, Holding(t, Waited(e))) && e != 0 && s.Knows(t) && !s.m.tk[t].answered && s.AwMtxFree(t)
    ensures Step(s, React(a)) == Some(s') && OnlyMoves(s, s', a)
    ensures s'.At(a, Clearing(t, s.m.tk[t].age, s.tr[t].gen))
    ensures s'.m == s.m.(tk := s.m.tk[t := s.m.tk[t].(answered := true)]) && s'.daemon == s.daemon
  {
    s' := StepReact(s, a).value;
  }

  /** It clears the handler if its use of the ticket is still on the answer queue, and is done. */
  lemma HandlerIsCleared(s: State, a: Tid, t: Id, age: nat) returns (s': State)
    requires Good(s) && s.Knows(t) && s.tr[t].life == InUse && s.At(a, Clearing(t, age, s.tr[t].gen))
    ensures Goes(s, Clear(a), s') && OnlyMoves(s, s', a) && s'.At(a, Idle) && s'.daemon == s.daemon
    ensures s'.m == if t in s.m.aw then s.m.(tk := s.m.tk[t := s.m.tk[t].(handler := NoHandler)]) else s.m
  {
    Facts(s, a, t);
    ClearTouches(s, a);
    s' := StepClear(s, a).value;
    StepKeepsGood(s, Clear(a), s');
  }

  /** Without a handler the writer of the reply drops the ticket, ... */
  lemma WriterDropsUnhandled(s: State, w: Tid, t: Id, o: Outcome, kill: bool) returns (s': State)
    requires Good(s) && s.At(w, Writing(t)) && s.Knows(t) && s.m.tk[t].handler == NoHandler
    ensures Goes(s, Dispatch(w, o.status, o.err, kill), s') && OnlyMoves(s, s', w) && s'.At(w, Holding(t, Dropping))
    ensures s'.m == s.m && s'.daemon == s.daemon
  {
    s' := StepDispatch(s, w, o.status, o.err, kill).value;
    StepGoes(s, Dispatch(w, o.status, o.err, kill), s');
  }

  /** ... and so does the handler if the requester has given up. */
  lemma HandlerDropsAnswered(s: State, w: Tid, t: Id, e: int) returns (s': State)
    requires Good(s) && s.At(w, Pulled(t, e)) && s.Knows(t) && s.m.tk[t].answered && s.AwMtxFree(t)
    ensures Goes(s, Answer(w), s') && OnlyMoves(s, s', w) && s'.At(w, Holding(t, Dropping))
    ensures s'.m == s.m && s'.daemon == s.daemon
  {
    s' := StepAnswer(s, w).value;
    StepGoes(s, Answer(w), s');
  }

  // ---- The whole trip --------------------------------------------------------------------------------------

  /** The steps of a foreground request from the request made to its outcome. */
  function CallSteps(i: Tid, w: Tid, u: Use, o: Outcome, kill: bool): seq<Action> {
    SendSteps(i, w) + WriteSteps(w, u, o, kill) + [Resume(i), React(i)]
  }

  function SendSteps(i: Tid, w: Tid): seq<Action> {
    PostSteps(i, Foreground) + [Check(i), Sleep(i)] + [ReadPop(w), ReadFinish(w, false, true)]
  }

  lemma Appending(q: seq<Id>, t: Id)
    requires t !in q
    ensures Without(q + [t], t) == q
  {
    assert (q + [t])[|q|] == t;
    WithoutAt(q + [t], |q|);
    assert (q + [t])[..|q|] + (q + [t])[|q| + 1..] == q;
  }

  /** In every reachable state of a live session: a request that finds the message queue empty can go to
    * the daemon and back. The requester gets the answer exactly if the daemon's reply is a success, and
    * otherwise returns its error, or EIO. Both queues, the lists, the counters and what the daemon owes
    * are as before; of the session's memory only the record of the ticket has changed.
    */
  lemma RequestComesBack(s0: State, run: seq<Action>, s: State, i: Tid, w: Tid, t: Id, o: Outcome, kill: bool)
    returns (s': State)
    requires Init(s0) && Run(s0, run) == Some(s) && !s.m.dead
    requires s.At(i, Holding(t, Made)) && s.At(w, Idle) && s.m.ms == []
    ensures s.Knows(t) && Run(s, CallSteps(i, w, s.Cur(t), o, kill)) == Some(s') && Good(s')
    ensures s'.At(w, Idle) && s'.At(i, Holding(t, if IsSuccess(o) then HaveAnswer else Dropping))
    ensures OnlyTheseMove(s, s', i, w) && s'.daemon == s.daemon
    ensures s'.m == s.m.(tk := s.m.tk[t := Replied(ForMode(s.m.tk[t], Foreground), o, kill)])
    ensures Returned(s'.m.tk[t], 0) == (if o.status != 0 then o.status else if o.err != 0 then EIO else 0)
  {
    LiveRunIsGood(s0, run, s);
    MadeFacts(s, i, t);
    var s1 := RequestIsOwed(s, i, w, t);
    var s2 := ReplyWakes(s1, i, w, t, o, kill);
    s' := SleeperReacts(s2, i, t);
    TripRecorded(s.m, t, o, kill, s1.m, s2.m);
    RunsJoin(s, SendSteps(i, w), s1, WriteSteps(w, s.Cur(t), o, kill));
    RunsJoin(s, SendSteps(i, w) + WriteSteps(w, s.Cur(t), o, kill), s2, [Resume(i), React(i)]);
  }

  lemma TripRecorded(m: Memory, t: Id, o: Outcome, kill: bool, m1: Memory, m2: Memory)
    requires t in m.tk && t !in m.aw
    requires m1 == m.(aw := m.aw + [t], tk := m.tk[t := ForMode(m.tk[t], Foreground)])
    requires m2 == m1.(aw := Without(m1.aw, t), tk := m1.tk[t := Replied(m1.tk[t], o, kill)])
    ensures m2 == m.(tk := m.tk[t := Replied(ForMode(m.tk[t], Foreground), o, kill)])
  {
    Appending(m.aw, t);
  }

  /** Half way: the requester sleeps, and the daemon owes the reply. */
  lemma RequestIsOwed(s: State, i: Tid, w: Tid, t: Id) returns (s': State)
    requires Good(s) && s.At(i, Holding(t, Made)) && s.At(w, Idle) && s.m.ms == []
    ensures s.Knows(t) && t in s'.tr && s'.Cur(t) == s.Cur(t) && s.Cur(t) !in s.daemon
    ensures Run(s, SendSteps(i, w)) == Some(s')
    ensures Good(s') && s'.At(i, Holding(t, Asleep)) && s'.At(w, Idle) && OnlyTheseMove(s, s', i, w)
    ensures s'.daemon == s.daemon + {s.Cur(t)}
    ensures s'.m == s.m.(aw := s.m.aw + [t], tk := s.m.tk[t := ForMode(s.m.tk[t], Foreground)])
  {
    MadeFacts(s, i, t);
    var s1 := RequestIsPosted(s, i, t, Foreground);
    var s2 := RequesterSleeps(s1, i, t);
    s' := MessageIsRead(s2, w, t);
    RunsJoin(s, PostSteps(i, Foreground), s1, [Check(i), Sleep(i)]);
    RunsJoin(s, PostSteps(i, Foreground) + [Check(i), Sleep(i)], s2, [ReadPop(w), ReadFinish(w, false, true)]);
  }
}
