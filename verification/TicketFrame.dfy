/** Which ticket a step works on, and that it leaves every other ticket alone. */
module TicketFrame {
  import opened Lists
  import opened TicketMemory
  import opened TicketProtocol

  /** The ticket that action a would work on in state s. */
  function Subject(s: State, a: Action): Option<Id> {
    match a
    case Fetch(_) => if s.m.freeCount > 0 && s.m.free != [] then Some(s.m.free[0]) else None
    case Allocate(_) => Some(s.m.ticketer)
    case ReadSleep(_) => None
    case ReadWake(_) => None
    case ReadPop(_) => if s.m.ms != [] then Some(s.m.ms[0]) else None
    case FlushPop(_) => if s.m.aw != [] then Some(s.m.aw[0]) else None
    case TakeReply(_, use) => Some(use.id)
    case InitComplete => None
    case SetSessionDead => None
    case WakeInitWaiters => None
    case FlushBegin(_) => None
    case FlushEnd(_) => None
    case _ => if a.i in s.th && !Nowhere(s.th[a.i]) then Some(s.th[a.i].t) else None
  }

  /** A thread stays where it is, or both places are away from t, or it is woken at t by
    * the end of the FUSE_INIT handshake.
    */
  predicate SamePlace(p: Pc, p': Pc, t: Id) {
    p' == p || (!Mentions(p, t) && !Mentions(p', t)) || (p == Holding(t, InitSleep) && p' == Holding(t, Made))
  }

  /** Another ticket can be lost from the free list, when one is put on it that is there already,
    * but it is not put there.
    */
  predicate SameQueues(m: Memory, m': Memory, t: Id) {
    && multiset(m'.aw)[t] == multiset(m.aw)[t] && multiset(m'.ms)[t] == multiset(m.ms)[t]
    && multiset(m'.all)[t] == multiset(m.all)[t]
    && (t in m'.free ==> t in m.free) && (LoopsAt(m', t) ==> LoopsAt(m, t))
  }

  /** Nothing about ticket t changes, and only threads away from t move. */
  ghost predicate Away(s: State, s': State, t: Id) {
    && (t in s'.m.tk <==> t in s.m.tk) && (t in s.m.tk ==> s'.m.tk[t] == s.m.tk[t])
    && (t in s'.tr <==> t in s.tr) && (t in s.tr ==> s'.tr[t] == s.tr[t])
    && (t < s'.m.ticketer <==> t < s.m.ticketer) && SameQueues(s.m, s'.m, t)
    && (t in s'.unlisted <==> t in s.unlisted)
    && (forall u: Use {:trigger u in s'.daemon} :: u.id == t ==> (u in s'.daemon <==> u in s.daemon))
    && s'.th.Keys == s.th.Keys
    && forall j {:trigger s'.th[j]} :: j in s.th ==> SamePlace(s.th[j], s'.th[j], t)
  }

  lemma ReleaseAway(s: State, i: Tid, u: Id, t: Id)
    requires i in s.th && Mentions(s.th[i], u) && s.Knows(u) && t != u
    ensures Away(s, s.Release(i, u), t)
  {
  }

  /** Thread i moves on with its ticket u, and only the records of u are written. */
  lemma MoveAway(s: State, i: Tid, pc: Pc, u: Id, k: Ticket, r: Track, t: Id)
    requires i in s.th && Mentions(s.th[i], u) && (Nowhere(pc) || Mentions(pc, u))
    requires s.Knows(u) && t != u
    ensures Away(s, s.SetK(u, k).SetR(u, r).Go(i, pc), t)
  {
  }

  lemma FetchAway(s: State, i: Tid, s': State, t: Id)
    requires StepFetch(s, i) == Some(s') && Subject(s, Fetch(i)) != Some(t)
    ensures Away(s, s', t)
  {
    if s.m.freeCount > 0 { assert s.m.free == [s.m.free[0]] + s.m.free[1..]; }
  }

  lemma AllocateAway(s: State, i: Tid, s': State, t: Id)
    requires StepAllocate(s, i) == Some(s') && Subject(s, Allocate(i)) != Some(t)
    ensures Away(s, s', t)
  {
  }

  lemma ListAway(s: State, i: Tid, s': State, t: Id)
    requires StepList(s, i) == Some(s') && Subject(s, List(i)) != Some(t)
    ensures Away(s, s', t)
  {
  }

  lemma InitSignalAway(s: State, i: Tid, s': State, t: Id)
    requires StepInitSignal(s, i) == Some(s') && Subject(s, InitSignal(i)) != Some(t)
    ensures Away(s, s', t)
  {
  }

  lemma FailDeadAway(s: State, i: Tid, s': State, t: Id)
    requires StepFailDead(s, i) == Some(s') && Subject(s, FailDead(i)) != Some(t)
    ensures Away(s, s', t)
  {
  }

  lemma InitCompleteAway(s: State, s': State, t: Id)
    requires StepInitComplete(s) == Some(s') && Subject(s, InitComplete) != Some(t)
    ensures Away(s, s', t)
  {
  }

  lemma SetSessionDeadAway(s: State, s': State, t: Id)
    requires StepSetSessionDead(s) == Some(s') && Subject(s, SetSessionDead) != Some(t)
    ensures Away(s, s', t)
  {
  }

  lemma WakeInitWaitersAway(s: State, s': State, t: Id)
    requires StepWakeInitWaiters(s) == Some(s') && Subject(s, WakeInitWaiters) != Some(t)
    ensures Away(s, s', t)
  {
  }

  lemma MarkKilllAway(s: State, i: Tid, s': State, t: Id)
    requires StepMarkKilll(s, i) == Some(s') && Subject(s, MarkKilll(i)) != Some(t)
    ensures Away(s, s', t)
  {
  }

  lemma PostAway(s: State, i: Tid, mode: Mode, s': State, t: Id)
    requires StepPost(s, i, mode) == Some(s') && Subject(s, Post(i, mode)) != Some(t)
    ensures Away(s, s', t)
  {
    var u := s.th[i].t;
    if mode == Forget || !s.m.dead { MoveAway(s, i, s'.th[i], u, s'.m.tk[u], s.tr[u], t); }
  }

  lemma PushAwAway(s: State, i: Tid, s': State, t: Id)
    requires StepPushAw(s, i) == Some(s') && Subject(s, DoPushAw(i)) != Some(t)
    ensures Away(s, s', t)
  {
  }

  lemma MessageAway(s: State, i: Tid, s': State, t: Id)
    requires StepMessage(s, i) == Some(s') && Subject(s, Message(i)) != Some(t)
    ensures Away(s, s', t)
  {
  }

  lemma PushMsAway(s: State, i: Tid, s': State, t: Id)
    requires StepPushMs(s, i) == Some(s') && Subject(s, DoPushMs(i)) != Some(t)
    ensures Away(s, s', t)
  {
  }

  /** The requester that finds the session dead marks its ticket answered. */
  lemma CheckDeadAway(s: State, i: Tid, s': State, t: Id)
    requires StepCheck(s, i) == Some(s') && Subject(s, Check(i)) != Some(t) && s.m.dead && !s.m.tk[s.th[i].t].answered
    ensures Away(s, s', t)
  {
    var u := s.th[i].t;
    MoveAway(s, i, Holding(u, Waited(ENOTCONN)), u, s.m.tk[u].(answered := true), s.tr[u], t);
  }

  lemma CheckAway(s: State, i: Tid, s': State, t: Id)
    requires StepCheck(s, i) == Some(s') && Subject(s, Check(i)) != Some(t)
    ensures Away(s, s', t)
  {
    if s.m.dead && !s.m.tk[s.th[i].t].answered {
      CheckDeadAway(s, i, s', t);
    } else {
      assert s'.m == s.m && s'.tr == s.tr;
    }
  }

  lemma SleepAway(s: State, i: Tid, s': State, t: Id)
    requires StepSleep(s, i) == Some(s') && Subject(s, Sleep(i)) != Some(t)
    ensures Away(s, s', t)
  {
  }

  lemma SignalAway(s: State, i: Tid, err: int, s': State, t: Id)
    requires StepSignal(s, i, err) == Some(s') && Subject(s, Signal(i, err)) != Some(t)
    ensures Away(s, s', t)
  {
  }

  lemma ResumeAway(s: State, i: Tid, s': State, t: Id)
    requires StepResume(s, i) == Some(s') && Subject(s, Resume(i)) != Some(t)
    ensures Away(s, s', t)
  {
  }

  lemma ReactAway(s: State, i: Tid, s': State, t: Id)
    requires StepReact(s, i) == Some(s') && Subject(s, React(i)) != Some(t)
    ensures Away(s, s', t)
  {
    var u, k := s.th[i].t, s.m.tk[s.th[i].t];
    if s' == s.Release(i, u) { ReleaseAway(s, i, u, t); }
    else if s.th[i].stage.err != 0 {
      MoveAway(s, i, s'.th[i], u, k.(answered := true), s.tr[u].(owner := None), t);
    }
  }

  lemma ClearAway(s: State, i: Tid, s': State, t: Id)
    requires StepClear(s, i) == Some(s') && Subject(s, Clear(i)) != Some(t)
    ensures Away(s, s', t)
  {
  }

  lemma CallerDropAway(s: State, i: Tid, s': State, t: Id)
    requires StepCallerDrop(s, i) == Some(s') && Subject(s, CallerDrop(i)) != Some(t)
    ensures Away(s, s', t)
  {
  }

  lemma CallerReuseAway(s: State, i: Tid, s': State, t: Id)
    requires StepCallerReuse(s, i) == Some(s') && Subject(s, CallerReuse(i)) != Some(t)
    ensures Away(s, s', t)
  {
  }

  lemma CallerAbandonAway(s: State, i: Tid, s': State, t: Id)
    requires StepCallerAbandon(s, i) == Some(s') && Subject(s, CallerAbandon(i)) != Some(t)
    ensures Away(s, s', t)
  {
  }

  lemma DestroyAway(s: State, i: Tid, u: Id, t: Id)
    requires i in s.th && Mentions(s.th[i], u) && s.Knows(u) && t != u
    ensures Away(s, s.(m := DestroyTicket(s.m, u)).SetR(u, s.tr[u].(life := Destroyed, owner := None)).Go(i, Idle), t)
  {
    WithoutCounts(s.m.all, u);
  }

  lemma DecideAway(s: State, i: Tid, s': State, t: Id)
    requires StepDecide(s, i) == Some(s') && Subject(s, Decide(i)) != Some(t)
    ensures Away(s, s', t)
  {
    var u := s.th[i].t;
    if MustDie(s.m, u) { DestroyAway(s, i, u, t); }
  }

  lemma PushFreeKeeps(m: Memory, u: Id, t: Id)
    requires t != u
    ensures SameQueues(m, PushFree(m, u), t)
  {
    UpToEnds(m.free, u);
  }

  lemma RecycleAway(s: State, i: Tid, s': State, t: Id)
    requires StepRecycle(s, i) == Some(s') && Subject(s, Recycle(i)) != Some(t)
    ensures Away(s, s', t)
  {
    PushFreeKeeps(SetTicket(s.m, s.th[i].t, s.m.tk[s.th[i].t].Refresh()), s.th[i].t, t);
  }

  lemma ReadPopAway(s: State, i: Tid, s': State, t: Id)
    requires StepReadPop(s, i) == Some(s') && Subject(s, ReadPop(i)) != Some(t)
    ensures Away(s, s', t)
  {
    HeadCounts(s.m.ms);
  }

  lemma ReadFinishAway(s: State, i: Tid, tooSmall: bool, delivered: bool, s': State, t: Id)
    requires StepReadFinish(s, i, tooSmall, delivered) == Some(s')
      && Subject(s, ReadFinish(i, tooSmall, delivered)) != Some(t)
    ensures Away(s, s', t)
  {
    var u := s.th[i].t;
    if s.m.tk[u].inval { ReleaseAway(s, i, u, t); }
  }

  lemma TakeReplyAway(s: State, i: Tid, use: Use, s': State, t: Id)
    requires StepTakeReply(s, i, use) == Some(s') && Subject(s, TakeReply(i, use)) != Some(t)
    ensures Away(s, s', t)
  {
    WithoutCounts(s.m.aw, use.id);
  }

  lemma DispatchAway(s: State, i: Tid, status: int, err: int, kill: bool, s': State, t: Id)
    requires StepDispatch(s, i, status, err, kill) == Some(s') && Subject(s, Dispatch(i, status, err, kill)) != Some(t)
    ensures Away(s, s', t)
  {
    var u, k := s.th[i].t, s.m.tk[s.th[i].t];
    if k.handler == NoHandler { ReleaseAway(s, i, u, t); }
  }

  lemma AnswerAway(s: State, i: Tid, s': State, t: Id)
    requires StepAnswer(s, i) == Some(s') && Subject(s, Answer(i)) != Some(t)
    ensures Away(s, s', t)
  {
    var u, k := s.th[i].t, s.m.tk[s.th[i].t];
    if k.answered { ReleaseAway(s, i, u, t); }
  }

  lemma FetchingAway(s: State, a: Action, s': State, t: Id)
    requires IsFetching(a) && StepFetching(s, a) == Some(s') && Subject(s, a) != Some(t)
    ensures Away(s, s', t)
  {
    match a
    case Fetch(i) => FetchAway(s, i, s', t);
    case Allocate(i) => AllocateAway(s, i, s', t);
    case List(i) => ListAway(s, i, s', t);
    case InitSignal(i) => InitSignalAway(s, i, s', t);
    case FailDead(i) => FailDeadAway(s, i, s', t);
    case InitComplete => InitCompleteAway(s, s', t);
    case SetSessionDead => SetSessionDeadAway(s, s', t);
    case WakeInitWaiters => WakeInitWaitersAway(s, s', t);
  }

  lemma SendingAway(s: State, a: Action, s': State, t: Id)
    requires IsSending(a) && StepSending(s, a) == Some(s') && Subject(s, a) != Some(t)
    ensures Away(s, s', t)
  {
    match a
    case MarkKilll(i) => MarkKilllAway(s, i, s', t);
    case Post(i, mode) => PostAway(s, i, mode, s', t);
    case DoPushAw(i) => PushAwAway(s, i, s', t);
    case Message(i) => MessageAway(s, i, s', t);
    case DoPushMs(i) => PushMsAway(s, i, s', t);
    case Check(i) => CheckAway(s, i, s', t);
    case Sleep(i) => SleepAway(s, i, s', t);
    case Signal(i, err) => SignalAway(s, i, err, s', t);
    case Resume(i) => ResumeAway(s, i, s', t);
  }

  lemma SettlingAway(s: State, a: Action, s': State, t: Id)
    requires IsSettling(a) && StepSettling(s, a) == Some(s') && Subject(s, a) != Some(t)
    ensures Away(s, s', t)
  {
    match a
    case React(i) => ReactAway(s, i, s', t);
    case Clear(i) => ClearAway(s, i, s', t);
    case CallerDrop(i) => CallerDropAway(s, i, s', t);
    case CallerReuse(i) => CallerReuseAway(s, i, s', t);
    case CallerAbandon(i) => CallerAbandonAway(s, i, s', t);
    case Decide(i) => DecideAway(s, i, s', t);
    case Recycle(i) => RecycleAway(s, i, s', t);
  }

  lemma ServingAway(s: State, a: Action, s': State, t: Id)
    requires IsServing(a) && StepServing(s, a) == Some(s') && Subject(s, a) != Some(t)
    ensures Away(s, s', t)
  {
    match a
    case ReadSleep(_) =>
    case ReadWake(_) =>
    case ReadPop(i) => ReadPopAway(s, i, s', t);
    case ReadFinish(i, tooSmall, delivered) => ReadFinishAway(s, i, tooSmall, delivered, s', t);
    case TakeReply(i, use) => TakeReplyAway(s, i, use, s', t);
    case Dispatch(i, status, err, kill) => DispatchAway(s, i, status, err, kill, s', t);
    case Answer(i) => AnswerAway(s, i, s', t);
  }

  lemma FlushPopAway(s: State, i: Tid, s': State, t: Id)
    requires StepFlushPop(s, i) == Some(s') && Subject(s, FlushPop(i)) != Some(t)
    ensures Away(s, s', t)
  {
    HeadCounts(s.m.aw);
  }

  lemma FlushMarkAway(s: State, i: Tid, s': State, t: Id)
    requires StepFlushMark(s, i) == Some(s') && Subject(s, FlushMark(i)) != Some(t)
    ensures Away(s, s', t)
  {
  }

  lemma FlushingAway(s: State, a: Action, s': State, t: Id)
    requires IsFlushing(a) && StepFlushing(s, a) == Some(s') && Subject(s, a) != Some(t)
    ensures Away(s, s', t)
  {
    match a
    case FlushPop(i) => FlushPopAway(s, i, s', t);
    case FlushMark(i) => FlushMarkAway(s, i, s', t);
    case FlushBegin(_) =>
    case FlushEnd(_) =>
  }

  /** A step that does not work on t leaves t alone. */
  lemma StepAway(s: State, a: Action, s': State, t: Id)
    requires Step(s, a) == Some(s') && Subject(s, a) != Some(t)
    ensures Away(s, s', t)
  {
    if IsFetching(a) { FetchingAway(s, a, s', t); }
    else if IsSending(a) { SendingAway(s, a, s', t); }
    else if IsSettling(a) { SettlingAway(s, a, s', t); }
    else if IsServing(a) { ServingAway(s, a, s', t); }
    else if IsFlushing(a) { FlushingAway(s, a, s', t); }
  }

  /** No ticket is ever forgotten, and threads neither come nor go. */
  ghost predicate Grows(s: State, s': State) {
    && s.m.ticketer <= s'.m.ticketer
    && (forall t {:trigger t in s'.m.tk} :: t in s.m.tk ==> t in s'.m.tk)
    && (forall t {:trigger t in s'.tr} :: t in s.tr ==> t in s'.tr)
    && s'.th.Keys == s.th.Keys
  }

  lemma FetchingGrows(s: State, a: Action, s': State)
    requires IsFetching(a) && StepFetching(s, a) == Some(s')
    ensures Grows(s, s')
  {
  }

  lemma SendingGrows(s: State, a: Action, s': State)
    requires IsSending(a) && StepSending(s, a) == Some(s')
    ensures Grows(s, s')
  {
  }

  lemma ReactGrows(s: State, i: Tid, s': State)
    requires StepReact(s, i) == Some(s')
    ensures Grows(s, s')
  {
  }

  lemma SettlingGrows(s: State, a: Action, s': State)
    requires IsSettling(a) && StepSettling(s, a) == Some(s')
    ensures Grows(s, s')
  {
    if a.React? { ReactGrows(s, a.i, s'); }
  }

  lemma ReadFinishGrows(s: State, i: Tid, tooSmall: bool, delivered: bool, s': State)
    requires StepReadFinish(s, i, tooSmall, delivered) == Some(s')
    ensures Grows(s, s')
  {
  }

  lemma DispatchGrows(s: State, i: Tid, status: int, err: int, kill: bool, s': State)
    requires StepDispatch(s, i, status, err, kill) == Some(s')
    ensures Grows(s, s')
  {
  }

  lemma ServingGrows(s: State, a: Action, s': State)
    requires IsServing(a) && StepServing(s, a) == Some(s')
    ensures Grows(s, s')
  {
    match a
    case ReadFinish(i, tooSmall, delivered) => ReadFinishGrows(s, i, tooSmall, delivered, s');
    case Dispatch(i, status, err, kill) => DispatchGrows(s, i, status, err, kill, s');
    case _ =>
  }

  lemma FlushingGrows(s: State, a: Action, s': State)
    requires IsFlushing(a) && StepFlushing(s, a) == Some(s')
    ensures Grows(s, s')
  {
  }

  lemma StepGrows(s: State, a: Action, s': State)
    requires Step(s, a) == Some(s')
    ensures Grows(s, s')
  {
    if IsFetching(a) { FetchingGrows(s, a, s'); }
    else if IsSending(a) { SendingGrows(s, a, s'); }
    else if IsSettling(a) { SettlingGrows(s, a, s'); }
    else if IsServing(a) { ServingGrows(s, a, s'); }
    else if IsFlushing(a) { FlushingGrows(s, a, s'); }
  }

  function Actor(a: Action): Option<Tid> {
    if a.InitComplete? || a.SetSessionDead? || a.WakeInitWaiters? then None else Some(a.i)
  }

  /** Where the acting thread has to be. */
  predicate Fits(pc: Pc, a: Action) {
    match a
    case Fetch(_) => pc.Idle?
    case Allocate(_) => pc.Alloc?
    case ReadSleep(_) => pc.Idle?
    case ReadWake(_) => pc.ReadAsleep?
    case ReadPop(_) => pc.Idle? || pc.ReadAsleep?
    case ReadFinish(_, _, _) => pc.Reading?
    case TakeReply(_, _) => pc.Idle?
    case Dispatch(_, _, _, _) => pc.Writing?
    case Answer(_) => pc.Pulled?
    case Clear(_) => pc.Clearing?
    case FlushBegin(_) => pc.Idle?
    case FlushPop(_) => pc.Flushing?
    case FlushMark(_) => pc.InHand?
    case FlushEnd(_) => pc.Flushing?
    case _ => pc.Holding? && FitsStage(pc.stage, a)
  }

  predicate FitsStage(g: Stage, a: Action) {
    match a
    case List(_) => g.NewTicket?
    case InitSignal(_) => g.InitSleep?
    case FailDead(_) => g.Failing?
    case MarkKilll(_) => g.Made?
    case Post(_, _) => g.Made?
    case DoPushAw(_) => g.PushingAw?
    case Message(_) => g.Posted?
    case DoPushMs(_) => g.PushingMs?
    case Check(_) => g.WaitEnter?
    case Sleep(_) => g.WaitLocked?
    case Signal(_, _) => g.Asleep?
    case Resume(_) => g.Woken?
    case React(_) => g.Waited?
    case CallerDrop(_) => g.HaveAnswer?
    case CallerReuse(_) => g.HaveAnswer?
    case CallerAbandon(_) => g.HaveAnswer?
    case Decide(_) => g.Dropping?
    case Recycle(_) => g.Recycling?
    case _ => false
  }

  lemma StepFits(s: State, a: Action)
    requires Step(s, a).Some? && Actor(a).Some?
    ensures a.i in s.th && Fits(s.th[a.i], a)
  {
  }

  predicate WakesInit(a: Action) { a.InitComplete? || a.WakeInitWaiters? }

  predicate WokenUp(a: Action, p: Pc, p': Pc) {
    && p.Holding?
    && ((p.stage.Asleep? && p' == Holding(p.t, Woken(0)))
        || (p.stage.InitSleep? && p' == Holding(p.t, Made) && WakesInit(a)))
  }

  predicate IsPosting(a: Action) { a.MarkKilll? || a.Post? || a.DoPushAw? || a.Message? || a.DoPushMs? }

  /** Only the acting thread moves, except that it may wake others; a ticket is unlisted from
    * the first step of its allocation to the next step of that thread; only FlushEnd ends a flush.
    */
  ghost predicate Moves(s: State, a: Action, s': State) {
    && s'.th.Keys == s.th.Keys
    && (forall j {:trigger s'.th[j]} :: j in s.th && Actor(a) != Some(j) ==>
          s'.th[j] == s.th[j] || WokenUp(a, s.th[j], s'.th[j]))
    && (a.Allocate? || a.List? || s'.unlisted == s.unlisted) && (a.FlushEnd? || s'.flushed == s.flushed)
    && (Actor(a).Some? && !a.Allocate? ==> !s'.Holds(a.i) || !s'.th[a.i].stage.NewTicket?)
    && (Actor(a).Some? && s.Holds(a.i) && s.th[a.i].stage.NewTicket? ==> a.List?)
  }

  lemma FetchingMoves(s: State, a: Action, s': State)
    requires IsFetching(a) && StepFetching(s, a) == Some(s')
    ensures Moves(s, a, s')
  {
  }

  lemma PostingMoves(s: State, a: Action, s': State)
    requires IsPosting(a) && StepSending(s, a) == Some(s')
    ensures Moves(s, a, s')
  {
  }

  lemma SendingMoves(s: State, a: Action, s': State)
    requires IsSending(a) && StepSending(s, a) == Some(s')
    ensures Moves(s, a, s')
  {
    if IsPosting(a) { PostingMoves(s, a, s'); }
  }

  lemma ReactMoves(s: State, i: Tid, s': State)
    requires StepReact(s, i) == Some(s')
    ensures Moves(s, React(i), s')
  {
  }

  lemma SettlingMoves(s: State, a: Action, s': State)
    requires IsSettling(a) && StepSettling(s, a) == Some(s')
    ensures Moves(s, a, s')
  {
    if a.React? { ReactMoves(s, a.i, s'); }
  }

  lemma ReadFinishMoves(s: State, i: Tid, tooSmall: bool, delivered: bool, s': State)
    requires StepReadFinish(s, i, tooSmall, delivered) == Some(s')
    ensures Moves(s, ReadFinish(i, tooSmall, delivered), s')
  {
  }

  lemma TakeReplyMoves(s: State, i: Tid, use: Use, s': State)
    requires StepTakeReply(s, i, use) == Some(s')
    ensures Moves(s, TakeReply(i, use), s')
  {
  }

  lemma DispatchMoves(s: State, i: Tid, status: int, err: int, kill: bool, s': State)
    requires StepDispatch(s, i, status, err, kill) == Some(s')
    ensures Moves(s, Dispatch(i, status, err, kill), s')
  {
  }

  lemma ServingMoves(s: State, a: Action, s': State)
    requires IsServing(a) && StepServing(s, a) == Some(s')
    ensures Moves(s, a, s')
  {
    match a
    case ReadFinish(i, tooSmall, delivered) => ReadFinishMoves(s, i, tooSmall, delivered, s');
    case TakeReply(i, use) => TakeReplyMoves(s, i, use, s');
    case Dispatch(i, status, err, kill) => DispatchMoves(s, i, status, err, kill, s');
    case _ =>
  }

  lemma FlushingMoves(s: State, a: Action, s': State)
    requires IsFlushing(a) && StepFlushing(s, a) == Some(s')
    ensures Moves(s, a, s')
  {
  }

  lemma StepMoves(s: State, a: Action, s': State)
    requires Step(s, a) == Some(s')
    ensures Moves(s, a, s')
  {
    if IsFetching(a) { FetchingMoves(s, a, s'); }
    else if IsSending(a) { SendingMoves(s, a, s'); }
    else if IsSettling(a) { SettlingMoves(s, a, s'); }
    else if IsServing(a) { ServingMoves(s, a, s'); }
    else if IsFlushing(a) { FlushingMoves(s, a, s'); }
  }

  /** Step a goes through fdata_set_dead. */
  predicate SetsDead(a: Action) { a.FailDead? || a.SetSessionDead? }

  /** The session dies through fdata_set_dead, which then owes the FUSE_INIT sleepers one wake-up,
    * or by the plain write of fuse_device_read, which does not.
    */
  ghost predicate Ages(s: State, a: Action, s': State) {
    && (s.m.dead ==> s'.m.dead) && (SetsDead(a) ==> s'.m.dead)
    && (SetsDead(a) || a.ReadFinish? || s'.m.dead == s.m.dead)
    && s'.wakePending == (!a.WakeInitWaiters? && (s.wakePending || (SetsDead(a) && !s.m.dead)))
    && (a.WakeInitWaiters? ==> s.wakePending)
  }

  lemma FetchingAges(s: State, a: Action, s': State)
    requires IsFetching(a) && StepFetching(s, a) == Some(s')
    ensures Ages(s, a, s')
  {
  }

  lemma SendingAges(s: State, a: Action, s': State)
    requires IsSending(a) && StepSending(s, a) == Some(s')
    ensures Ages(s, a, s')
  {
  }

  lemma SettlingAges(s: State, a: Action, s': State)
    requires IsSettling(a) && StepSettling(s, a) == Some(s')
    ensures Ages(s, a, s')
  {
  }

  lemma ServingAges(s: State, a: Action, s': State)
    requires IsServing(a) && StepServing(s, a) == Some(s')
    ensures Ages(s, a, s')
  {
  }

  lemma FlushingAges(s: State, a: Action, s': State)
    requires IsFlushing(a) && StepFlushing(s, a) == Some(s')
    ensures Ages(s, a, s')
  {
  }

  lemma StepAges(s: State, a: Action, s': State)
    requires Step(s, a) == Some(s')
    ensures Ages(s, a, s')
  {
    if IsFetching(a) { FetchingAges(s, a, s'); }
    else if IsSending(a) { SendingAges(s, a, s'); }
    else if IsSettling(a) { SettlingAges(s, a, s'); }
    else if IsServing(a) { ServingAges(s, a, s'); }
    else if IsFlushing(a) { FlushingAges(s, a, s'); }
  }
}
