/** Whole runs of a session that is not dead: who releases a ticket, how often, and when. */
module TicketTheorems {
  import opened Lists
  import opened TicketMemory
  import opened TicketProtocol
  import opened TicketFrame
  import opened TicketInvariant

  lemma NobodyFlushes(s: State)
    requires Good(s)
    ensures forall i :: i in s.th ==> !s.th[i].Flushing? && !s.th[i].InHand?
  {
    forall i | i in s.th ensures !s.th[i].Flushing? && !s.th[i].InHand? { assert ThreadOk(s, i); }
  }

  lemma FetchingKeepsGood(s: State, a: Action, s': State)
    requires Good(s) && AgeWindow(s, a) && IsFetching(a) && StepFetching(s, a) == Some(s') && !s'.m.dead
    ensures Good(s')
  {
    match a
    case Fetch(i) => FetchKeeps(s, i, s');
    case Allocate(i) => AllocateKeeps(s, i, s');
    case List(i) => ListKeeps(s, i, s');
    case InitSignal(i) => InitSignalKeeps(s, i, s');
    case FailDead(i) =>
    case InitComplete => InitCompleteKeeps(s, s');
    case SetSessionDead =>
    case WakeInitWaiters => WakeInitWaitersKeeps(s, s');
  }

  lemma SendingKeepsGood(s: State, a: Action, s': State)
    requires Good(s) && AgeWindow(s, a) && IsSending(a) && StepSending(s, a) == Some(s') && !s'.m.dead
    ensures Good(s')
  {
    match a
    case MarkKilll(i) => MarkKilllKeeps(s, i, s');
    case Post(i, mode) => PostKeeps(s, i, mode, s');
    case DoPushAw(i) => PushAwKeeps(s, i, s');
    case Message(i) => MessageKeeps(s, i, s');
    case DoPushMs(i) => PushMsKeeps(s, i, s');
    case Check(i) => CheckKeeps(s, i, s');
    case Sleep(i) => SleepKeeps(s, i, s');
    case Signal(i, err) => SignalKeeps(s, i, err, s');
    case Resume(i) => ResumeKeeps(s, i, s');
  }

  lemma SettlingKeepsGood(s: State, a: Action, s': State)
    requires Good(s) && AgeWindow(s, a) && IsSettling(a) && StepSettling(s, a) == Some(s') && !s'.m.dead
    ensures Good(s')
  {
    match a
    case React(i) => ReactKeeps(s, i, s');
    case Clear(i) => ClearKeeps(s, i, s');
    case CallerDrop(i) => CallerDropKeeps(s, i, s');
    case CallerReuse(i) => CallerReuseKeeps(s, i, s');
    case CallerAbandon(i) => CallerAbandonKeeps(s, i, s');
    case Decide(i) => DecideKeeps(s, i, s');
    case Recycle(i) => RecycleKeeps(s, i, s');
  }

  lemma ServingKeepsGood(s: State, a: Action, s': State)
    requires Good(s) && AgeWindow(s, a) && IsServing(a) && StepServing(s, a) == Some(s') && !s'.m.dead
    ensures Good(s')
  {
    match a
    case ReadSleep(i) => IdleKeeps(s, i, ReadAsleep);
    case ReadWake(i) => IdleKeeps(s, i, Idle);
    case ReadPop(i) => ReadPopKeeps(s, i, s');
    case ReadFinish(i, tooSmall, delivered) => ReadFinishKeeps(s, i, tooSmall, delivered, s');
    case TakeReply(i, use) => TakeReplyKeeps(s, i, use, s');
    case Dispatch(i, status, err, kill) => DispatchKeeps(s, i, status, err, kill, s');
    case Answer(i) => AnswerKeeps(s, i, s');
  }

  /** Every step that leaves the session alive keeps the invariant. */
  lemma StepKeepsGood(s: State, a: Action, s': State)
    requires Good(s) && AgeWindow(s, a) && Step(s, a) == Some(s') && !s'.m.dead
    ensures Good(s')
  {
    NobodyFlushes(s);
    if IsFetching(a) { FetchingKeepsGood(s, a, s'); }
    else if IsSending(a) { SendingKeepsGood(s, a, s'); }
    else if IsSettling(a) { SettlingKeepsGood(s, a, s'); }
    else if IsServing(a) { ServingKeepsGood(s, a, s'); }
  }

  /** Steps that release a ticket, if they do anything with one. */
  predicate IsReleasing(a: Action) {
    a.React? || a.CallerDrop? || a.ReadFinish? || a.Dispatch? || a.Answer?
  }

  /** FSESS_DEAD is never cleared, only the end of a flush is one, and ticket t is released
    * by a releasing step only.
    */
  predicate Steady(s: State, a: Action, s': State, t: Id) {
    && (s.m.dead ==> s'.m.dead)
    && (s'.flushed && !s.flushed ==> a.FlushEnd? && s.At(a.i, Flushing))
    && (s.Knows(t) && s'.Knows(t) && s'.tr[t].gen == s.tr[t].gen && t < s.m.ticketer && !IsReleasing(a) ==>
          s'.tr[t].now.drops == s.tr[t].now.drops)
  }

  lemma FetchIsSteady(s: State, i: Tid, s': State, t: Id)
    requires StepFetch(s, i) == Some(s')
    ensures Steady(s, Fetch(i), s', t)
  {
  }

  lemma FetchingIsSteady(s: State, a: Action, s': State, t: Id)
    requires IsFetching(a) && StepFetching(s, a) == Some(s')
    ensures Steady(s, a, s', t)
  {
    if a.Fetch? { FetchIsSteady(s, a.i, s', t); }
  }

  lemma PostingIsSteady(s: State, a: Action, s': State, t: Id)
    requires IsPosting(a) && StepSending(s, a) == Some(s')
    ensures Steady(s, a, s', t)
  {
  }

  lemma SendingIsSteady(s: State, a: Action, s': State, t: Id)
    requires IsSending(a) && StepSending(s, a) == Some(s')
    ensures Steady(s, a, s', t)
  {
    if IsPosting(a) { PostingIsSteady(s, a, s', t); }
  }

  lemma ReactIsSteady(s: State, i: Tid, s': State, t: Id)
    requires StepReact(s, i) == Some(s')
    ensures Steady(s, React(i), s', t)
  {
  }

  lemma SettlingIsSteady(s: State, a: Action, s': State, t: Id)
    requires IsSettling(a) && StepSettling(s, a) == Some(s')
    ensures Steady(s, a, s', t)
  {
    if a.React? { ReactIsSteady(s, a.i, s', t); }
  }

  lemma ReadFinishIsSteady(s: State, i: Tid, tooSmall: bool, delivered: bool, s': State, t: Id)
    requires StepReadFinish(s, i, tooSmall, delivered) == Some(s')
    ensures Steady(s, ReadFinish(i, tooSmall, delivered), s', t)
  {
  }

  lemma ServingIsSteady(s: State, a: Action, s': State, t: Id)
    requires IsServing(a) && StepServing(s, a) == Some(s')
    ensures Steady(s, a, s', t)
  {
    if a.ReadFinish? { ReadFinishIsSteady(s, a.i, a.tooSmall, a.delivered, s', t); }
  }

  lemma FlushingIsSteady(s: State, a: Action, s': State, t: Id)
    requires IsFlushing(a) && StepFlushing(s, a) == Some(s')
    ensures Steady(s, a, s', t)
  {
  }

  lemma StepIsSteady(s: State, a: Action, s': State, t: Id)
    requires Step(s, a) == Some(s')
    ensures Steady(s, a, s', t)
  {
    if IsFetching(a) { FetchingIsSteady(s, a, s', t); }
    else if IsSending(a) { SendingIsSteady(s, a, s', t); }
    else if IsSettling(a) { SettlingIsSteady(s, a, s', t); }
    else if IsServing(a) { ServingIsSteady(s, a, s', t); }
    else if IsFlushing(a) { FlushingIsSteady(s, a, s', t); }
  }

  lemma {:induction false} LiveRunIsGood(s0: State, run: seq<Action>, s: State)
    requires Init(s0) && Run(s0, run) == Some(s) && !s.m.dead
    ensures Good(s)
  {
    if run == [] {
      InitIsGood(s0);
    } else {
      var mid := Run(s0, run[..|run| - 1]).value;
      if mid.m.dead { StepIsSteady(mid, run[|run| - 1], s, 0); }
      LiveRunIsGood(s0, run[..|run| - 1], mid);
      StepKeepsGood(mid, run[|run| - 1], s);
    }
  }

  // ---- Release exactly once -------------------------------------------------------

  /** The tally of use g of ticket t. */
  function TallyOf(s: State, t: Id, g: nat): Tally
    requires t in s.tr && g <= |s.tr[t].past|
  {
    if g < |s.tr[t].past| then s.tr[t].past[g] else s.tr[t].now
  }

  /** A thread that is awake will settle the answered ticket: a writer on its way to the
    * handler, or the requester past its wait.
    */
  ghost predicate AnswerOnItsWay(s: State, t: Id) {
    || (exists w :: InFlightOk(s, t, w))
    || (t in s.m.tk && s.m.tk[t].answered
        && exists i :: s.Holds(i) && s.th[i].t == t
             && (s.th[i].stage.WaitEnter? || s.th[i].stage.Woken? || s.th[i].stage.Waited?))
    || (exists i :: s.At(i, Holding(t, HaveAnswer)))
  }

  /** The current use of a ticket, from the invariant. */
  lemma CurrentUse(s: State, t: Id)
    requires Good(s) && s.Knows(t)
    ensures var c := s.tr[t].now;
      && c.drops + c.restarts + c.abandons <= 1 && c.replies <= 1
      && (c.replies == 1 ==> c.drops + c.restarts + c.abandons == 1 || AnswerOnItsWay(s, t))
  {
    assert TicketOk(s, t);
    var r := s.tr[t];
    if r.ans.InFlight? {
      assert InFlightOk(s, t, r.ans.writer);
    }
    if r.owner.Some? {
      var i := r.owner.value;
      assert ThreadOk(s, i);
      assert s.Holds(i) && s.th[i].t == t;
      if s.th[i].stage.HaveAnswer? { assert s.At(i, Holding(t, HaveAnswer)); }
    }
  }

  /** In every run of a live session, a use is released at most once, is over only by one
    * release or one reuse, and once its reply has been taken it has been settled exactly
    * once (released, reused or abandoned) or a waking thread is about to settle it.
    */
  lemma ExactlyOnce(s0: State, run: seq<Action>, s: State, t: Id, g: nat)
    requires Init(s0) && Run(s0, run) == Some(s) && !s.m.dead
    requires s.Knows(t) && g <= s.tr[t].gen
    ensures |s.tr[t].past| == s.tr[t].gen
    ensures var c := TallyOf(s, t, g);
      && c.drops + c.restarts + c.abandons <= 1 && c.replies <= 1
      && (g < s.tr[t].gen ==> c.drops + c.restarts == 1)
      && (c.replies == 1 ==>
            c.drops + c.restarts + c.abandons == 1 || (g == s.tr[t].gen && AnswerOnItsWay(s, t)))
  {
    LiveRunIsGood(s0, run, s);
    assert TicketOk(s, t);
    if g < s.tr[t].gen {
      assert s.tr[t].past[g] in s.tr[t].past;
    } else {
      CurrentUse(s, t);
    }
  }

  /** An interrupted requester, on its way to the answer queue, for a use that has been released. */
  ghost predicate GaveUp(s: State, j: Tid, t: Id) {
    && j in s.th && s.th[j].Clearing? && s.th[j].t == t && t in s.tr && s.th[j].gen <= |s.tr[t].past|
    && TallyOf(s, t, s.th[j].gen).drops == 1
  }

  lemma AloneWith(s: State, i: Tid, j: Tid)
    requires Good(s) && s.Holds(i) && (s.th[i].stage.Dropping? || s.th[i].stage.Recycling?)
    requires j in s.th && j != i && Mentions(s.th[j], s.th[i].t)
    ensures GaveUp(s, j, s.th[i].t)
  {
    assert ThreadOk(s, i) && ThreadOk(s, j) && TicketOk(s, s.th[i].t);
  }

  /** Whoever is inside fuse_ticket_drop is alone with the ticket: it is on neither queue, not
    * on the free list, and no reader, writer or other holder has it. The one kind of thread
    * that may still look at it is a requester that was interrupted during the use that is
    * being released, or during one released before.
    */
  lemma ReleasedTicketIsPrivate(s0: State, run: seq<Action>, s: State, i: Tid)
    requires Init(s0) && Run(s0, run) == Some(s) && !s.m.dead
    requires s.Holds(i) && (s.th[i].stage.Dropping? || s.th[i].stage.Recycling?)
    ensures var t := s.th[i].t;
      && t !in s.m.aw && t !in s.m.ms && t !in s.m.free && t in s.m.all
      && forall j :: j in s.th && j != i && Mentions(s.th[j], t) ==> GaveUp(s, j, t)
  {
    LiveRunIsGood(s0, run, s);
    assert ThreadOk(s, i) && TicketOk(s, s.th[i].t);
    forall j | j in s.th && j != i && Mentions(s.th[j], s.th[i].t) ensures GaveUp(s, j, s.th[i].t) {
      AloneWith(s, i, j);
    }
  }

  /** Who can still have a destroyed ticket: only requesters interrupted during a use whose
    * reply has made the standard handler drop the ticket. Such a requester goes on to read
    * tk_data and tk_age of the freed ticket.
    */
  lemma DestroyedTicketIsLeftToTheInterrupted(s0: State, run: seq<Action>, s: State, t: Id)
    requires Init(s0) && Run(s0, run) == Some(s) && !s.m.dead
    requires s.Knows(t) && s.tr[t].life == Destroyed
    ensures t !in s.m.aw && t !in s.m.ms && t !in s.m.free && t !in s.m.all && forall u: Use :: u.id == t ==>
      u !in s.daemon
    ensures forall j :: j in s.th && Mentions(s.th[j], t) ==> GaveUp(s, j, t)
  {
    LiveRunIsGood(s0, run, s);
    assert TicketOk(s, t);
    forall u: Use | u.id == t ensures u !in s.daemon { assert u in s.daemon ==> TokenOk(s, u); }
    forall j | j in s.th && Mentions(s.th[j], t) ensures GaveUp(s, j, t) { assert ThreadOk(s, j); }
  }

  /** An interrupted requester finds its own use of the ticket, alive and without another
    * owner, exactly if that use has not been released before it gets to the answer queue.
    */
  lemma InterruptedFindsItsTicketExactly(s0: State, run: seq<Action>, s: State, i: Tid)
    requires Init(s0) && Run(s0, run) == Some(s) && !s.m.dead && i in s.th && s.th[i].Clearing?
    ensures s.Knows(s.th[i].t) && s.th[i].gen <= |s.tr[s.th[i].t].past|
    ensures var r := s.tr[s.th[i].t];
      r.life == InUse && r.gen == s.th[i].gen && r.owner == None <==> TallyOf(s, s.th[i].t, s.th[i].gen).drops == 0
  {
    LiveRunIsGood(s0, run, s);
    assert ThreadOk(s, i) && TicketOk(s, s.th[i].t);
  }

  /** A FORGET waits on the message queue or is with the reader that will drop it. */
  lemma ForgetIsReleasedByItsReader(s0: State, run: seq<Action>, s: State, t: Id)
    requires Init(s0) && Run(s0, run) == Some(s) && !s.m.dead
    requires s.Knows(t) && s.m.tk[t].inval && s.tr[t].owner == None && s.tr[t].life == InUse
    ensures t !in s.m.aw && forall u: Use :: u.id == t ==> u !in s.daemon
    ensures (t in s.m.ms) != (exists i :: s.At(i, Reading(t)))
  {
    LiveRunIsGood(s0, run, s);
    assert TicketOk(s, t);
    forall u: Use | u.id == t ensures u !in s.daemon {
      assert u in s.daemon ==> TokenOk(s, u);
    }
    if i :| s.At(i, Reading(t)) { assert ThreadOk(s, i); }
  }

  // ---- Who releases ------------------------------------------------------------------

  /** One more release of the current use of t. */
  ghost predicate Released(s: State, s': State, t: Id) {
    s.Knows(t) && s'.Knows(t) && s'.tr[t].gen == s.tr[t].gen && s'.tr[t].now.drops != s.tr[t].now.drops
  }

  /** The thread that releases t: its requester, the reader of a FORGET, or the writer that
    * took t off the answer queue.
    */
  ghost predicate MayRelease(s: State, a: Action, t: Id)
    requires s.Knows(t)
  {
    || (s.m.tk[t].inval && a.ReadFinish? && s.At(a.i, Reading(t)))
    || (!s.m.tk[t].inval && (a.React? || a.CallerDrop?) && s.tr[t].owner == Some(a.i) && s.tr[t].ans == Off)
    || (!s.m.tk[t].inval && (a.Dispatch? || a.Answer?) && s.tr[t].owner == None && s.tr[t].ans == InFlight(a.i))
  }

  lemma RequesterReleases(s: State, i: Tid, s': State, t: Id)
    requires Good(s) && Released(s, s', t)
    requires StepReact(s, i) == Some(s') || StepCallerDrop(s, i) == Some(s')
    ensures !s.m.tk[t].inval && s.tr[t].owner == Some(i) && s.tr[t].ans == Off
  {
    assert ThreadOk(s, i);
  }

  lemma ReaderReleases(s: State, i: Tid, tooSmall: bool, delivered: bool, s': State, t: Id)
    requires Good(s) && Released(s, s', t) && StepReadFinish(s, i, tooSmall, delivered) == Some(s')
    ensures s.m.tk[t].inval && s.At(i, Reading(t))
  {
  }

  lemma WriterReleases(s: State, i: Tid, status: int, err: int, kill: bool, s': State, t: Id)
    requires Good(s) && Released(s, s', t)
    requires StepDispatch(s, i, status, err, kill) == Some(s') || StepAnswer(s, i) == Some(s')
    ensures !s.m.tk[t].inval && s.tr[t].owner == None && s.tr[t].ans == InFlight(i)
  {
    assert ThreadOk(s, i) && TicketOk(s, t);
    var o := s.tr[t].owner;
    assert o.Some? ==> ThreadOk(s, o.value);
  }

  lemma OnlyReleasingReleases(s: State, a: Action, s': State, t: Id)
    requires Good(s) && Step(s, a) == Some(s') && Released(s, s', t)
    ensures IsReleasing(a)
  {
    assert t < s.m.ticketer;
    StepIsSteady(s, a, s', t);
  }

  lemma ReleasingStep(s: State, a: Action)
    requires IsReleasing(a)
    ensures a.React? ==> Step(s, a) == StepReact(s, a.i)
    ensures a.CallerDrop? ==> Step(s, a) == StepCallerDrop(s, a.i)
    ensures a.ReadFinish? ==> Step(s, a) == StepReadFinish(s, a.i, a.tooSmall, a.delivered)
    ensures a.Dispatch? ==> Step(s, a) == StepDispatch(s, a.i, a.status, a.err, a.kill)
    ensures a.Answer? ==> Step(s, a) == StepAnswer(s, a.i)
  {
  }

  lemma ReleaserIsInCharge(s: State, a: Action, s': State, t: Id)
    requires Good(s) && Step(s, a) == Some(s') && Released(s, s', t)
    ensures MayRelease(s, a, t)
  {
    OnlyReleasingReleases(s, a, s', t);
    ReleasingStep(s, a);
    match a
    case React(i) => RequesterReleases(s, i, s', t);
    case CallerDrop(i) => RequesterReleases(s, i, s', t);
    case ReadFinish(i, tooSmall, delivered) => ReaderReleases(s, i, tooSmall, delivered, s', t);
    case Dispatch(i, status, err, kill) => WriterReleases(s, i, status, err, kill, s', t);
    case Answer(i) => WriterReleases(s, i, 0, 0, false, s', t);
  }

  /** Only the thread that the protocol puts in charge ever releases a ticket. */
  lemma WhoReleases(s0: State, run: seq<Action>, s: State, a: Action, s': State, t: Id)
    requires Init(s0) && Run(s0, run) == Some(s) && !s.m.dead
    requires Step(s, a) == Some(s') && Released(s, s', t)
    ensures MayRelease(s, a, t)
  {
    LiveRunIsGood(s0, run, s);
    ReleaserIsInCharge(s, a, s', t);
  }

  // ---- Replies and the answer queue --------------------------------------------------

  lemma QueuedIsAlive(s: State)
    requires Good(s)
    ensures forall t {:trigger Freed(s, t)} :: t in s.m.aw || t in s.m.ms || t in s.m.free ==> !Freed(s, t)
  {
    forall t | t in s.m.aw || t in s.m.ms || t in s.m.free ensures !Freed(s, t) {
      if s.Knows(t) { assert TicketOk(s, t); }
    }
  }

  lemma OwnIsAlive(s: State, i: Tid, t: Id)
    requires Good(s) && i in s.th && !s.th[i].Clearing? && t in Own(s, i)
    ensures !Freed(s, t)
  {
    assert ThreadOk(s, i);
    assert s.Knows(t) && TicketOk(s, t);
  }

  lemma TouchesAlive(s: State, a: Action, t: Id)
    requires Good(s) && t in Touched(s, a) && (Actor(a).Some? ==> a.i in s.th && !s.th[a.i].Clearing?)
    ensures !Freed(s, t)
  {
    QueuedIsAlive(s);
    if Actor(a).Some? && t in Own(s, a.i) { OwnIsAlive(s, a.i, t); }
  }

  lemma ClearTouches(s: State, i: Tid)
    requires Good(s) && i in s.th && s.th[i].Clearing?
    ensures UsesFreed(s, Clear(i)) <==> Freed(s, s.th[i].t)
  {
    QueuedIsAlive(s);
    assert s.th[i].t in Touched(s, Clear(i));
  }

  /** The only step of a live session that uses freed memory is that of an interrupted requester
    * whose ticket has been destroyed, on its way to the answer queue.
    */
  lemma LiveStepDanglesExactly(s0: State, run: seq<Action>, s: State, a: Action)
    requires Init(s0) && Run(s0, run) == Some(s) && !s.m.dead
    ensures Dangles(s, a) <==> a.Clear? && a.i in s.th && s.th[a.i].Clearing? && Freed(s, s.th[a.i].t)
  {
    LiveRunIsGood(s0, run, s);
    if Dangles(s, a) {
      if Actor(a).Some? { StepFits(s, a); }
      if t :| t in Touched(s, a) && Freed(s, t) && !a.Clear? { TouchesAlive(s, a, t); }
    }
    if a.Clear? && a.i in s.th && s.th[a.i].Clearing? {
      ClearTouches(s, a.i);
      assert ThreadOk(s, a.i);
      assert StepClear(s, a.i).Some?;
    }
  }

  lemma ReplyGoesThrough(s: State, i: Tid, use: Use)
    requires s.At(i, Idle) && use in s.daemon && s.awOwner == None && s.Knows(use.id) && use.id in s.m.aw
    requires forall t {:trigger t in s.m.aw} :: t in s.m.aw ==> !Freed(s, t)
    ensures Next(s, TakeReply(i, use)) == StepTakeReply(s, i, use)
    ensures StepTakeReply(s, i, use).Some? && StepTakeReply(s, i, use).value.At(i, Writing(use.id))
  {
    WalkStays(s.m.aw, use.id, 1);
  }

  /** No reply to a message that asked for one is ever lost. */
  lemma EveryReplyIsTaken(s0: State, run: seq<Action>, s: State, i: Tid, use: Use)
    requires Init(s0) && Run(s0, run) == Some(s) && !s.m.dead
    requires s.At(i, Idle) && use in s.daemon
    ensures Next(s, TakeReply(i, use)).Some?
    ensures Next(s, TakeReply(i, use)).value.At(i, Writing(use.id))
  {
    LiveRunIsGood(s0, run, s);
    ReplyFindsTicket(s, use);
    QueuedIsAlive(s);
    ReplyGoesThrough(s, i, use);
  }

  /** An interrupted requester clears the handler of its own use only, and then the reply
    * of that use will drop the ticket.
    */
  lemma OnlyItsOwnHandler(s0: State, run: seq<Action>, s: State, i: Tid, s': State)
    requires Init(s0) && Run(s0, run) == Some(s) && !s.m.dead
    requires AgeWindow(s, Clear(i)) && Step(s, Clear(i)) == Some(s') && s'.m != s.m
    ensures var t := s.th[i].t;
      && s.th[i].gen == s.tr[t].gen && t in s.m.aw && s.m.tk[t].answered
      && s.tr[t].owner == None && s.tr[t].now.drops == 0
  {
    LiveRunIsGood(s0, run, s);
    var t := s.th[i].t;
    Facts(s, i, t);
    AgesTellApart(s.th[i].gen, s.tr[t].gen);
  }

  /** How good the 32-bit age is as a guard: it confuses exactly the uses that are a
    * multiple of 2^32 refreshes apart.
    */
  lemma AgeConfusesExactly(s: State, i: Tid, s': State)
    requires i in s.th && s.th[i].Clearing? && s.Knows(s.th[i].t) && Step(s, Clear(i)) == Some(s')
    requires var t := s.th[i].t;
      s.th[i].gen <= s.tr[t].gen && s.th[i].age == s.th[i].gen % AGE_SPAN
      && s.m.tk[t].age == s.tr[t].gen % AGE_SPAN && s.m.tk[t].handler == StandardHandler
    ensures var t := s.th[i].t;
      s'.m.tk[t].handler == NoHandler
      <==> t in s.m.aw && (s.tr[t].gen - s.th[i].gen) % AGE_SPAN == 0
  {
    var g, g' := s.th[i].gen, s.tr[s.th[i].t].gen;
    var q, q' := g / AGE_SPAN, g' / AGE_SPAN;
    assert g == q * AGE_SPAN + g % AGE_SPAN && g' == q' * AGE_SPAN + g' % AGE_SPAN;
    var d := g' % AGE_SPAN - g % AGE_SPAN;
    assert g' - g == (q' - q) * AGE_SPAN + d;
    assert (g' - g) % AGE_SPAN == 0 <==> d == 0;
  }

  // ---- Accounting ------------------------------------------------------------------------

  /** freeticket_counter is the length of the free list; every ticket number handed out is
    * destroyed, on alltickets, or with the one thread that is still allocating it.
    */
  lemma TicketsAreAccountedFor(s0: State, run: seq<Action>, s: State)
    requires Init(s0) && Run(s0, run) == Some(s) && !s.m.dead
    ensures s.m.freeCount == |s.m.free| && NoDup(s.m.free) && NoDup(s.m.all)
    ensures s.m.ticketer == s.m.deadCount + |s.m.all| + |s.unlisted|
    ensures forall t :: t in s.m.free ==> t in s.m.all && t !in s.m.ms && t !in s.m.aw
    ensures forall t :: t in s.unlisted <==> exists i :: s.At(i, Holding(t, NewTicket))
    ensures forall i, j, t :: s.At(i, Holding(t, NewTicket)) && s.At(j, Holding(t, NewTicket)) ==> i == j
  {
    LiveRunIsGood(s0, run, s);
    forall t | t in s.m.free ensures t in s.m.all && t !in s.m.ms && t !in s.m.aw {
      assert TicketOk(s, t);
    }
    forall t ensures t in s.unlisted <==> exists i :: s.At(i, Holding(t, NewTicket)) {
      if t in s.unlisted {
        assert TicketOk(s, t);
        assert ThreadOk(s, s.tr[t].owner.value);
        assert s.At(s.tr[t].owner.value, Holding(t, NewTicket));
      }
      if i :| s.At(i, Holding(t, NewTicket)) { assert ThreadOk(s, i); }
    }
    forall i, j, t | s.At(i, Holding(t, NewTicket)) && s.At(j, Holding(t, NewTicket)) ensures i == j {
      assert ThreadOk(s, i) && ThreadOk(s, j);
    }
  }

  /** fuse_insert_message never panics: a ticket is not queued twice without a refresh. */
  lemma NoDirtyTicketIsQueued(s0: State, run: seq<Action>, s: State, i: Tid)
    requires Init(s0) && Run(s0, run) == Some(s) && !s.m.dead
    requires s.Holds(i) && s.th[i].stage.Posted?
    ensures s.Knows(s.th[i].t) && !s.m.tk[s.th[i].t].dirty && Next(s, Message(i)).Some?
  {
    LiveRunIsGood(s0, run, s);
    assert ThreadOk(s, i);
    assert StepMessage(s, i).Some?;
  }
}
