/** After FSESS_DEAD: no requester is left asleep on a ticket that nobody will answer. */
module TicketShutdown {
  import opened Lists
  import opened TicketMemory
  import opened TicketProtocol
  import opened TicketFrame
  import opened TicketInvariant
  import opened TicketTheorems

  /** Thread a sits in fticket_wait_answer, past its last look at FSESS_DEAD. */
  predicate Sleeps(s: State, a: Tid, t: Id) {
    s.At(a, Holding(t, WaitLocked)) || s.At(a, Holding(t, Asleep))
  }

  /** What another thread may be doing with the ticket of a sleeper. */
  ghost predicate BystanderOk(s: State, t: Id, j: Tid)
    requires s.Knows(t) && j in s.th
  {
    match s.th[j]
    case Clearing(u, age, g) => u == t ==> g < s.tr[t].gen && age == g % AGE_SPAN
    case Writing(u) => u == t ==> s.tr[t].ans == InFlight(j)
    case Pulled(u, _) => u == t ==> s.tr[t].ans == InFlight(j)
    case InHand(u) => u == t ==> s.tr[t].ans == Popped(j)
    case Holding(u, _) => u != t
    case _ => true
  }

  /** Somebody is bound to answer the ticket of sleeper a. */
  ghost predicate Expected(s: State, a: Tid, t: Id) {
    && s.Knows(t) && t < s.m.ticketer
    && var k, r := s.m.tk[t], s.tr[t];
    && !k.answered && !k.inval && k.handler == StandardHandler && k.age == r.gen % AGE_SPAN
    && t !in s.m.free && r.life == InUse
    && multiset(s.m.aw)[t] == One(r.ans == OnAw)
    && (r.ans.OnAw? || (r.ans.InFlight? && InFlightOk(s, t, r.ans.writer))
        || (r.ans.Popped? && s.At(r.ans.flusher, InHand(t))))
    && (s.flushed ==> r.ans.InFlight?)
  }

  ghost predicate SleeperOk(s: State, a: Tid, t: Id) {
    && Expected(s, a, t)
    && forall j {:trigger BystanderOk(s, t, j)} :: j in s.th && j != a ==> BystanderOk(s, t, j)
  }

  /** aw_mtx is held by the one thread that is flushing, if any. */
  ghost predicate FlushOwned(s: State) {
    forall j {:trigger s.th[j]} :: j in s.th && (s.th[j].Flushing? || s.th[j].InHand?) ==> s.awOwner == Some(j)
  }

  ghost predicate Waiters(s: State) {
    && FlushOwned(s) && (s.flushed ==> s.m.dead)
    && forall a, t {:trigger SleeperOk(s, a, t)} :: Sleeps(s, a, t) ==> SleeperOk(s, a, t)
  }

  lemma GoodSleeper(s: State, a: Tid, t: Id)
    requires Good(s) && Sleeps(s, a, t)
    ensures SleeperOk(s, a, t)
  {
    assert ThreadOk(s, a) && TicketOk(s, t);
    OnceInQueue(s.m.aw, t);
    forall j | j in s.th && j != a ensures BystanderOk(s, t, j) {
      assert ThreadOk(s, j);
    }
  }

  lemma GoodWaiters(s: State)
    requires Good(s)
    ensures Waiters(s)
  {
    NobodyFlushes(s);
    forall a, t | Sleeps(s, a, t) ensures SleeperOk(s, a, t) { GoodSleeper(s, a, t); }
  }

  // ---- Steps that do not concern the sleeper's ticket ---------------------------------

  lemma AwayKeeps(s: State, s': State, a: Tid, t: Id)
    requires SleeperOk(s, a, t) && Away(s, s', t) && s'.flushed == s.flushed
    ensures SleeperOk(s', a, t)
  {
    forall j | j in s'.th && j != a ensures BystanderOk(s', t, j) { assert BystanderOk(s, t, j); }
  }

  lemma FlushEndKeeps(s: State, i: Tid, s': State, a: Tid, t: Id)
    requires SleeperOk(s, a, t) && Sleeps(s, a, t) && Sleeps(s', a, t) && StepFlushEnd(s, i) == Some(s')
    requires FlushOwned(s)
    ensures SleeperOk(s', a, t)
  {
    assert i != a ==> BystanderOk(s, t, i);
    forall j | j in s'.th && j != a ensures BystanderOk(s', t, j) { assert BystanderOk(s, t, j); }
  }

  // ---- Steps that do ---------------------------------------------------------------------

  lemma SleepKeeps(s: State, i: Tid, s': State, a: Tid, t: Id)
    requires SleeperOk(s, a, t) && Sleeps(s, a, t) && Sleeps(s', a, t) && StepSleep(s, i) == Some(s')
    ensures SleeperOk(s', a, t)
  {
    assert i != a ==> BystanderOk(s, t, i);
    forall j | j in s'.th && j != a ensures BystanderOk(s', t, j) { assert BystanderOk(s, t, j); }
  }

  lemma ClearKeeps(s: State, i: Tid, s': State, a: Tid, t: Id)
    requires SleeperOk(s, a, t) && Sleeps(s, a, t) && Sleeps(s', a, t) && StepClear(s, i) == Some(s')
    requires AgeWindow(s, Clear(i))
    ensures SleeperOk(s', a, t)
  {
    assert i != a ==> BystanderOk(s, t, i);
    if s.th[i].t == t && s.th[i].age == s.m.tk[t].age { AgesTellApart(s.th[i].gen, s.tr[t].gen); }
    forall j | j in s'.th && j != a ensures BystanderOk(s', t, j) { assert BystanderOk(s, t, j); }
  }

  lemma ReadPopKeeps(s: State, i: Tid, s': State, a: Tid, t: Id)
    requires SleeperOk(s, a, t) && Sleeps(s, a, t) && Sleeps(s', a, t) && StepReadPop(s, i) == Some(s')
    ensures SleeperOk(s', a, t)
  {
    assert i != a ==> BystanderOk(s, t, i);
    forall j | j in s'.th && j != a ensures BystanderOk(s', t, j) { assert BystanderOk(s, t, j); }
  }

  lemma ReadFinishOwn(s: State, i: Tid, tooSmall: bool, delivered: bool, s': State, a: Tid, t: Id)
    requires SleeperOk(s, a, t) && Sleeps(s, a, t) && Sleeps(s', a, t)
      && StepReadFinish(s, i, tooSmall, delivered) == Some(s')
    requires !Nowhere(s.th[i]) && s.th[i].t == t
    ensures SleeperOk(s', a, t)
  {
    assert i != a && BystanderOk(s, t, i);
    forall j | j in s'.th && j != a ensures BystanderOk(s', t, j) { assert BystanderOk(s, t, j); }
  }

  lemma TakeReplyOwn(s: State, i: Tid, use: Use, s': State, a: Tid, t: Id)
    requires SleeperOk(s, a, t) && Sleeps(s, a, t) && Sleeps(s', a, t) && StepTakeReply(s, i, use) == Some(s')
    requires use.id == t
    ensures SleeperOk(s', a, t)
  {
    if t in s.m.aw { WithoutCounts(s.m.aw, t); } else { assert s'.m == s.m; }
    forall j | j in s'.th && j != a ensures BystanderOk(s', t, j) { assert BystanderOk(s, t, j); }
  }

  lemma DispatchOwn(s: State, i: Tid, status: int, err: int, kill: bool, s': State, a: Tid, t: Id)
    requires SleeperOk(s, a, t) && Sleeps(s, a, t) && Sleeps(s', a, t)
      && StepDispatch(s, i, status, err, kill) == Some(s')
    requires !Nowhere(s.th[i]) && s.th[i].t == t
    ensures SleeperOk(s', a, t)
  {
    assert i != a && BystanderOk(s, t, i);
    forall j | j in s'.th && j != a ensures BystanderOk(s', t, j) { assert BystanderOk(s, t, j); }
  }

  lemma AnswerOwn(s: State, i: Tid, s': State, a: Tid, t: Id)
    requires SleeperOk(s, a, t) && Sleeps(s, a, t) && StepAnswer(s, i) == Some(s')
    requires !Nowhere(s.th[i]) && s.th[i].t == t
    ensures s'.At(a, Holding(t, Woken(0)))
  {
    assert i != a && BystanderOk(s, t, i);
  }

  lemma FlushPopKeeps(s: State, i: Tid, s': State, a: Tid, t: Id)
    requires SleeperOk(s, a, t) && Sleeps(s, a, t) && Sleeps(s', a, t) && StepFlushPop(s, i) == Some(s')
    requires FlushOwned(s)
    ensures SleeperOk(s', a, t)
  {
    assert i != a ==> BystanderOk(s, t, i);
    HeadCounts(s.m.aw);
    forall j | j in s'.th && j != a ensures BystanderOk(s', t, j) { assert BystanderOk(s, t, j); }
  }

  lemma FlushMarkKeeps(s: State, i: Tid, s': State, a: Tid, t: Id)
    requires SleeperOk(s, a, t) && Sleeps(s, a, t) && Sleeps(s', a, t) && StepFlushMark(s, i) == Some(s')
    requires FlushOwned(s)
    ensures SleeperOk(s', a, t)
  {
    assert i != a ==> BystanderOk(s, t, i);
    forall j | j in s'.th && j != a ensures BystanderOk(s', t, j) { assert BystanderOk(s, t, j); }
  }

  predicate AtSleeper(x: Action) {
    x.Sleep? || x.Clear? || x.ReadPop? || x.ReadFinish? || x.TakeReply? || x.Dispatch? || x.FlushPop? || x.FlushMark?
  }

  /** Other steps at the sleeper's ticket wake it, or there is no thread to take them. */
  lemma NobodyElseIsThere(s: State, x: Action, a: Tid, t: Id)
    requires SleeperOk(s, a, t) && Sleeps(s, a, t) && Subject(s, x) == Some(t) && Actor(x).Some?
    requires x.i in s.th && Fits(s.th[x.i], x)
    ensures AtSleeper(x) || x.Answer? || (x.Signal? && x.i == a)
  {
    if x.i != a && Mentions(s.th[x.i], t) { assert BystanderOk(s, t, x.i); }
  }

  lemma ServingKeepsSleeper(s: State, x: Action, s': State, a: Tid, t: Id)
    requires IsServing(x) && StepServing(s, x) == Some(s') && Subject(s, x) == Some(t) && !x.Answer?
    requires SleeperOk(s, a, t) && Sleeps(s, a, t) && Sleeps(s', a, t)
    ensures SleeperOk(s', a, t)
  {
    match x
    case ReadPop(i) => ReadPopKeeps(s, i, s', a, t);
    case ReadFinish(i, tooSmall, delivered) => ReadFinishOwn(s, i, tooSmall, delivered, s', a, t);
    case TakeReply(i, use) => TakeReplyOwn(s, i, use, s', a, t);
    case Dispatch(i, status, err, kill) => DispatchOwn(s, i, status, err, kill, s', a, t);
  }

  lemma FlushingKeepsSleeper(s: State, x: Action, s': State, a: Tid, t: Id)
    requires IsFlushing(x) && StepFlushing(s, x) == Some(s') && Subject(s, x) == Some(t) && FlushOwned(s)
    requires SleeperOk(s, a, t) && Sleeps(s, a, t) && Sleeps(s', a, t)
    ensures SleeperOk(s', a, t)
  {
    match x
    case FlushPop(i) => FlushPopKeeps(s, i, s', a, t);
    case FlushMark(i) => FlushMarkKeeps(s, i, s', a, t);
  }

  lemma SleepingKeepsSleeper(s: State, x: Action, s': State, a: Tid, t: Id)
    requires x.Sleep? && StepSending(s, x) == Some(s')
    requires SleeperOk(s, a, t) && Sleeps(s, a, t) && Sleeps(s', a, t)
    ensures SleeperOk(s', a, t)
  {
    SleepKeeps(s, x.i, s', a, t);
  }

  lemma ClearingKeepsSleeper(s: State, x: Action, s': State, a: Tid, t: Id)
    requires x.Clear? && StepSettling(s, x) == Some(s') && AgeWindow(s, x)
    requires SleeperOk(s, a, t) && Sleeps(s, a, t) && Sleeps(s', a, t)
    ensures SleeperOk(s', a, t)
  {
    ClearKeeps(s, x.i, s', a, t);
  }

  lemma OtherKeepsSleeper(s: State, x: Action, s': State, a: Tid, t: Id)
    requires Step(s, x) == Some(s') && AgeWindow(s, x) && FlushOwned(s) && Subject(s, x) == Some(t)
    requires x.FlushPop? || x.FlushMark? || x.Sleep? || x.Clear?
    requires SleeperOk(s, a, t) && Sleeps(s, a, t) && Sleeps(s', a, t)
    ensures SleeperOk(s', a, t)
  {
    if IsFlushing(x) { FlushingKeepsSleeper(s, x, s', a, t); }
    else if x.Sleep? { SleepingKeepsSleeper(s, x, s', a, t); }
    else { ClearingKeepsSleeper(s, x, s', a, t); }
  }

  lemma SubjectKeepsSleeper(s: State, x: Action, s': State, a: Tid, t: Id)
    requires Step(s, x) == Some(s') && AgeWindow(s, x) && FlushOwned(s) && Subject(s, x) == Some(t) && AtSleeper(x)
    requires SleeperOk(s, a, t) && Sleeps(s, a, t) && Sleeps(s', a, t)
    ensures SleeperOk(s', a, t)
  {
    if IsServing(x) { ServingKeepsSleeper(s, x, s', a, t); } else { OtherKeepsSleeper(s, x, s', a, t); }
  }

  /** The last step of a writer, and a signal, end the sleep. */
  lemma EndsTheSleep(s: State, x: Action, s': State, a: Tid, t: Id)
    requires Step(s, x) == Some(s') && Subject(s, x) == Some(t) && SleeperOk(s, a, t) && Sleeps(s, a, t)
    requires x.Answer? || (x.Signal? && x.i == a)
    ensures !Sleeps(s', a, t)
  {
    match x
    case Answer(i) => AnswerOwn(s, i, s', a, t);
    case Signal(_, _) =>
  }

  lemma StepKeepsSleeper(s: State, x: Action, s': State, a: Tid, t: Id)
    requires Step(s, x) == Some(s') && AgeWindow(s, x) && FlushOwned(s)
    requires SleeperOk(s, a, t) && Sleeps(s, a, t) && Sleeps(s', a, t)
    ensures SleeperOk(s', a, t)
  {
    if Subject(s, x) == Some(t) {
      if Actor(x).Some? { StepFits(s, x); }
      NobodyElseIsThere(s, x, a, t);
      if AtSleeper(x) { SubjectKeepsSleeper(s, x, s', a, t); } else { EndsTheSleep(s, x, s', a, t); }
    } else if x.FlushEnd? {
      FlushEndKeeps(s, x.i, s', a, t);
    } else {
      StepAway(s, x, s', t);
      StepMoves(s, x, s');
      AwayKeeps(s, s', a, t);
    }
  }

  /** Thread j has not just gone to sleep, and flushes only with aw_mtx held. */
  predicate Calm(s: State, s': State, j: Tid)
    requires j in s'.th
  {
    && (s'.th[j].Holding? && (s'.th[j].stage.WaitLocked? || s'.th[j].stage.Asleep?) ==> Sleeps(s, j, s'.th[j].t))
    && (s'.th[j].Flushing? || s'.th[j].InHand? ==> s'.awOwner == Some(j))
  }

  lemma ReactCalm(s: State, i: Tid, s': State, j: Tid)
    requires StepReact(s, i) == Some(s') && FlushOwned(s) && j in s'.th
    ensures Calm(s, s', j)
  {
  }

  lemma RecycleCalm(s: State, i: Tid, s': State, j: Tid)
    requires StepRecycle(s, i) == Some(s') && FlushOwned(s) && j in s'.th
    ensures Calm(s, s', j)
  {
  }

  lemma ReadFinishCalm(s: State, i: Tid, tooSmall: bool, delivered: bool, s': State, j: Tid)
    requires StepReadFinish(s, i, tooSmall, delivered) == Some(s') && FlushOwned(s) && j in s'.th
    ensures Calm(s, s', j)
  {
  }

  lemma TakeReplyCalm(s: State, i: Tid, use: Use, s': State, j: Tid)
    requires StepTakeReply(s, i, use) == Some(s') && FlushOwned(s) && j in s'.th
    ensures Calm(s, s', j)
  {
  }

  lemma DispatchCalm(s: State, i: Tid, status: int, err: int, kill: bool, s': State, j: Tid)
    requires StepDispatch(s, i, status, err, kill) == Some(s') && FlushOwned(s) && j in s'.th
    ensures Calm(s, s', j)
  {
  }

  lemma AnswerCalm(s: State, i: Tid, s': State, j: Tid)
    requires StepAnswer(s, i) == Some(s') && FlushOwned(s) && j in s'.th
    ensures Calm(s, s', j)
  {
  }

  lemma CalmFetching(s: State, x: Action, s': State, j: Tid)
    requires IsFetching(x) && StepFetching(s, x) == Some(s') && (s.m.dead || s'.m.dead) && FlushOwned(s) && j in s'.th
    ensures Calm(s, s', j)
  {
    match x
    case Fetch(i) => assert StepFetch(s, i) == Some(s');
    case Allocate(i) => assert StepAllocate(s, i) == Some(s');
    case List(i) => assert StepList(s, i) == Some(s');
    case InitSignal(i) => assert StepInitSignal(s, i) == Some(s');
    case FailDead(i) => assert StepFailDead(s, i) == Some(s');
    case InitComplete => assert StepInitComplete(s) == Some(s');
    case SetSessionDead => assert StepSetSessionDead(s) == Some(s');
    case WakeInitWaiters => assert StepWakeInitWaiters(s) == Some(s');
    case _ =>
  }

  lemma CalmSending(s: State, x: Action, s': State, j: Tid)
    requires IsSending(x) && StepSending(s, x) == Some(s') && (s.m.dead || s'.m.dead) && FlushOwned(s) && j in s'.th
    ensures Calm(s, s', j)
  {
    match x
    case MarkKilll(i) => assert StepMarkKilll(s, i) == Some(s');
    case Post(i, mode) => assert StepPost(s, i, mode) == Some(s');
    case DoPushAw(i) => assert StepPushAw(s, i) == Some(s');
    case Message(i) => assert StepMessage(s, i) == Some(s');
    case DoPushMs(i) => assert StepPushMs(s, i) == Some(s');
    case Check(i) => assert StepCheck(s, i) == Some(s');
    case Sleep(i) => assert StepSleep(s, i) == Some(s');
    case Signal(i, err) => assert StepSignal(s, i, err) == Some(s');
    case Resume(i) => assert StepResume(s, i) == Some(s');
    case _ =>
  }

  lemma CalmSettling(s: State, x: Action, s': State, j: Tid)
    requires IsSettling(x) && StepSettling(s, x) == Some(s') && (s.m.dead || s'.m.dead) && FlushOwned(s) && j in s'.th
    ensures Calm(s, s', j)
  {
    match x
    case React(i) => ReactCalm(s, i, s', j);
    case Clear(i) => assert StepClear(s, i) == Some(s');
    case CallerDrop(i) => assert StepCallerDrop(s, i) == Some(s');
    case CallerReuse(i) => assert StepCallerReuse(s, i) == Some(s');
    case CallerAbandon(i) => assert StepCallerAbandon(s, i) == Some(s');
    case Decide(i) => assert StepDecide(s, i) == Some(s');
    case Recycle(i) => RecycleCalm(s, i, s', j);
    case _ =>
  }

  lemma CalmServing(s: State, x: Action, s': State, j: Tid)
    requires IsServing(x) && StepServing(s, x) == Some(s') && (s.m.dead || s'.m.dead) && FlushOwned(s) && j in s'.th
    ensures Calm(s, s', j)
  {
    match x
    case ReadSleep(_) =>
    case ReadWake(i) => assert StepReadWake(s, i) == Some(s');
    case ReadPop(i) => assert StepReadPop(s, i) == Some(s');
    case ReadFinish(i, tooSmall, delivered) => ReadFinishCalm(s, i, tooSmall, delivered, s', j);
    case TakeReply(i, use) => TakeReplyCalm(s, i, use, s', j);
    case Dispatch(i, status, err, kill) => DispatchCalm(s, i, status, err, kill, s', j);
    case Answer(i) => AnswerCalm(s, i, s', j);
    case _ =>
  }

  lemma CalmFlushing(s: State, x: Action, s': State, j: Tid)
    requires IsFlushing(x) && StepFlushing(s, x) == Some(s') && (s.m.dead || s'.m.dead) && FlushOwned(s) && j in s'.th
    ensures Calm(s, s', j)
  {
    match x
    case FlushBegin(i) => assert StepFlushBegin(s, i) == Some(s');
    case FlushPop(i) => assert StepFlushPop(s, i) == Some(s');
    case FlushMark(i) => assert StepFlushMark(s, i) == Some(s');
    case FlushEnd(i) => assert StepFlushEnd(s, i) == Some(s');
    case _ =>
  }

  /** In a dead session nobody goes to sleep any more. */
  lemma NoNewSleeper(s: State, x: Action, s': State, j: Tid)
    requires Step(s, x) == Some(s') && (s.m.dead || s'.m.dead) && FlushOwned(s) && j in s'.th
    ensures Calm(s, s', j)
  {
    if IsFetching(x) { CalmFetching(s, x, s', j); }
    else if IsSending(x) { CalmSending(s, x, s', j); }
    else if IsSettling(x) { CalmSettling(s, x, s', j); }
    else if IsServing(x) { CalmServing(s, x, s', j); }
    else if IsFlushing(x) { CalmFlushing(s, x, s', j); }
  }

  lemma StepKeepsWaiters(s: State, x: Action, s': State)
    requires Waiters(s) && Step(s, x) == Some(s') && AgeWindow(s, x) && (s.m.dead || s'.m.dead)
    requires s'.flushed ==> s'.m.dead
    ensures Waiters(s')
  {
    forall a, t | Sleeps(s', a, t) ensures SleeperOk(s', a, t) {
      NoNewSleeper(s, x, s', a);
      assert SleeperOk(s, a, t);
      StepKeepsSleeper(s, x, s', a, t);
    }
    forall j | j in s'.th ensures s'.th[j].Flushing? || s'.th[j].InHand? ==> s'.awOwner == Some(j) {
      NoNewSleeper(s, x, s', j);
    }
  }

  lemma {:induction false} RunKeepsWaiters(s0: State, run: seq<Action>, s: State)
    requires Init(s0) && Run(s0, run) == Some(s)
    ensures Waiters(s)
  {
    if run == [] {
      InitIsGood(s0);
      GoodWaiters(s0);
    } else {
      var x := run[|run| - 1];
      var mid := Run(s0, run[..|run| - 1]).value;
      RunKeepsWaiters(s0, run[..|run| - 1], mid);
      StepIsSteady(mid, x, s, 0);
      if mid.m.dead {
        StepKeepsWaiters(mid, x, s);
      } else {
        LiveRunIsGood(s0, run[..|run| - 1], mid);
        NobodyFlushes(mid);
        if s.m.dead { StepKeepsWaiters(mid, x, s); } else { StepKeepsGood(mid, x, s); GoodWaiters(s); }
      }
    }
  }

  // ---- Shutdown strands nobody ---------------------------------------------------------------

  /** Once the answer queue of a dead session has been flushed, a requester that is asleep
    * is there only while the writer that has taken its ticket is on its way to wake it.
    * No run leads on to a state with any other sleeper.
    */
  lemma ShutdownStrandsNobody(s0: State, run: seq<Action>, s: State, a: Tid, t: Id)
    requires Init(s0) && Run(s0, run) == Some(s) && s.flushed && Sleeps(s, a, t)
    ensures s.m.dead && s.Knows(t) && !s.m.tk[t].answered && t !in s.m.aw
    ensures exists w: Tid :: w != a && InFlightOk(s, t, w)
  {
    RunKeepsWaiters(s0, run, s);
    assert SleeperOk(s, a, t);
    assert InFlightOk(s, t, s.tr[t].ans.writer);
    assert multiset(s.m.aw)[t] == 0;
  }

  /** Before the flush is over, a sleeper of a dead session is still on the answer queue, in
    * the flusher's hand, or expected by a writer.
    */
  lemma SleeperIsExpected(s0: State, run: seq<Action>, s: State, a: Tid, t: Id)
    requires Init(s0) && Run(s0, run) == Some(s) && Sleeps(s, a, t)
    ensures t in s.m.aw || (exists f: Tid :: s.At(f, InHand(t)) && s.awOwner == Some(f)) || (exists w: Tid ::
      InFlightOk(s, t, w))
  {
    RunKeepsWaiters(s0, run, s);
    assert SleeperOk(s, a, t);
    var r := s.tr[t];
    if r.ans.OnAw? { assert multiset(s.m.aw)[t] == 1; }
    if r.ans.InFlight? { assert InFlightOk(s, t, r.ans.writer); }
    if r.ans.Popped? { assert s.At(r.ans.flusher, InHand(t)); }
  }

  lemma SleeperHoldsItsMutexAlone(s: State, a: Tid, t: Id)
    requires SleeperOk(s, a, t) && s.At(a, Holding(t, Asleep))
    ensures s.AwMtxFree(t)
  {
    forall j | j in s.th ensures s.th[j] != Holding(t, WaitLocked) {
      assert j != a ==> BystanderOk(s, t, j);
    }
  }

  lemma AnswerWakes(s: State, a: Tid, t: Id, w: Tid)
    requires SleeperOk(s, a, t) && s.At(a, Holding(t, Asleep)) && s.AwMtxFree(t) && InFlightOk(s, t, w) && s.th[w].Pulled?
    ensures Next(s, Answer(w)).Some? && Next(s, Answer(w)).value.At(a, Holding(t, Woken(0)))
  {
    assert Touched(s, Answer(w)) == [t] && !Freed(s, t);
    assert StepAnswer(s, w).Some?;
    AnswerOwn(s, w, StepAnswer(s, w).value, a, t);
  }

  /** The writer in flight can take its steps, and its last one wakes the sleeper. */
  lemma WriterWakesSleeper(s0: State, run: seq<Action>, s: State, a: Tid, t: Id, w: Tid)
    requires Init(s0) && Run(s0, run) == Some(s) && s.At(a, Holding(t, Asleep)) && InFlightOk(s, t, w)
    ensures s.At(w, Writing(t)) ==> forall status, err, kill ::
              var r := StepDispatch(s, w, status, err, kill); r.Some? && r.value.th[w].Pulled? && r.value.th[w].t == t
    ensures s.th[w].Pulled? ==> Next(s, Answer(w)).Some? && Next(s, Answer(w)).value.At(a, Holding(t, Woken(0)))
  {
    RunKeepsWaiters(s0, run, s);
    assert SleeperOk(s, a, t);
    SleeperHoldsItsMutexAlone(s, a, t);
    if s.th[w].Pulled? { AnswerWakes(s, a, t, w); }
  }

  lemma MarkWakes(s: State, a: Tid, t: Id, f: Tid)
    requires s.At(a, Holding(t, Asleep)) && s.At(f, InHand(t)) && s.Knows(t) && s.AwMtxFree(t) && !Freed(s, t)
    ensures Next(s, FlushMark(f)).Some?
    ensures var s' := Next(s, FlushMark(f)).value;
      s'.At(a, Holding(t, Woken(0))) && s'.m.tk[t].answered && s'.m.tk[t].errno == ENOTCONN
  {
    assert Touched(s, FlushMark(f)) == [t] && StepFlushMark(s, f).Some?;
  }

  /** So does the flush for every ticket it pops that has a sleeper: that ticket is not destroyed. */
  lemma FlushWakesSleeper(s0: State, run: seq<Action>, s: State, a: Tid, t: Id, f: Tid)
    requires Init(s0) && Run(s0, run) == Some(s) && s.At(a, Holding(t, Asleep)) && s.At(f, InHand(t))
    ensures Next(s, FlushMark(f)).Some?
    ensures var s' := Next(s, FlushMark(f)).value;
      s'.At(a, Holding(t, Woken(0))) && s'.m.tk[t].answered && s'.m.tk[t].errno == ENOTCONN
  {
    RunKeepsWaiters(s0, run, s);
    assert SleeperOk(s, a, t);
    SleeperHoldsItsMutexAlone(s, a, t);
    MarkWakes(s, a, t, f);
  }
}
