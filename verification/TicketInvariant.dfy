/** What holds between any two steps of a session that is not dead. */
module TicketInvariant {
  import opened Lists
  import opened TicketMemory
  import opened TicketProtocol

  function HandlerOf(mode: Mode): Handler {
    if mode == Foreground then StandardHandler else NoHandler
  }

  /** A use that is over ended in one release or in one reuse, and had at most one reply. */
  ghost predicate PastOk(past: seq<Tally>) {
    forall c :: c in past ==> c.drops + c.restarts == 1 && c.abandons == 0 && c.replies <= 1
  }

  lemma PastGrows(past: seq<Tally>, c: Tally)
    requires PastOk(past) && c.drops + c.restarts == 1 && c.abandons == 0 && c.replies <= 1
    ensures PastOk(past + [c])
  {
  }

  ghost predicate Untouched(k: Ticket) { !k.answered && !k.inval && !k.dirty }

  /** The answer queue holds the ticket for as long as its message can still be
    * answered, because fdisp_wait_answ pushes it there first.
    */
  ghost predicate LinkOk(r: Track) {
    || (r.ans.InFlight? && r.msg == Replied)
    || (r.ans.OnAw? && r.msg != Replied)
  }

  ghost predicate StagedOk(k: Ticket, r: Track, mode: Mode) {
    && !k.answered && r.msg == NoMsg && k.inval == (mode == Forget)
    && (if mode == Forget then r.ans == Off else r.ans == OnAw && k.handler == HandlerOf(mode))
  }

  ghost predicate WaitOk(k: Ticket, r: Track) {
    && !k.inval && k.handler == StandardHandler && r.msg != NoMsg
    && (if k.answered then r.ans == Off && r.msg == Replied else LinkOk(r))
  }

  /** What the holder of a ticket can rely on at each stage. */
  ghost predicate StageOk(g: Stage, k: Ticket, r: Track) {
    && (g.NewTicket? || g.InitSleep? || g.Failing? || g.Made? ==> Untouched(k) && r.msg == NoMsg && r.ans == Off)
    && (g.PushingAw? ==>
          Untouched(k) && r.msg == NoMsg && r.ans == Off && g.mode != Forget && k.handler == HandlerOf(g.mode))
    && (g.Posted? ==> !k.dirty && StagedOk(k, r, g.mode))
    && (g.PushingMs? ==> StagedOk(k, r, g.mode))
    && (g.WaitEnter? || g.WaitLocked? || g.Asleep? || g.Woken? || g.Waited? ==> WaitOk(k, r))
    && (g.WaitLocked? || g.Asleep? ==> !k.answered)
    && (g.Woken? && g.err == 0 ==> k.answered)
    && (g.Waited? && g.err == 0 ==> k.answered)
    && (g.HaveAnswer? ==> !k.inval && r.ans == Off && r.msg == Replied)
    && (g.Dropping? || g.Recycling? ==> r.ans == Off && (r.msg == Replied || r.msg == Lost))
    && r.now == Tally(One(g.Dropping? || g.Recycling?), 0, 0, One(r.msg == Replied))
  }

  /** A ticket in use that nobody holds: a FORGET on its way to the daemon, a request
    * whose handler will drop the ticket, or a ticket its caller walked away from.
    */
  ghost predicate OrphanOk(k: Ticket, r: Track) {
    && r.now == Tally(0, 0, One(r.ans == Off && !k.inval), One(r.msg == Replied))
    && if k.inval then r.ans == Off && (r.msg.OnMs? || r.msg.AtReader?)
    else if r.ans == Off then r.msg == Replied
    else LinkOk(r) && r.msg != NoMsg && (k.handler == NoHandler || k.answered)
  }

  /** The requester has been interrupted: it releases the ticket no more, the writer of the
    * reply will, or has.
    */
  ghost predicate GivenUp(k: Ticket, r: Track) {
    k.answered && !k.inval && (r.owner == None || r.now.drops == 1)
  }

  ghost predicate EndedInRelease(r: Track, g: nat) {
    g < |r.past| && r.past[g].drops == 1
  }

  ghost predicate ThreadOk(s: State, i: Tid)
    requires i in s.th
  {
    match s.th[i]
    case Idle => true
    case Alloc => true
    case ReadAsleep => true
    case Flushing => false
    case InHand(_) => false
    case Clearing(t, age, g) =>
      && s.Knows(t) && g <= s.tr[t].gen && age == g % AGE_SPAN
      && (if g == s.tr[t].gen then GivenUp(s.m.tk[t], s.tr[t]) else EndedInRelease(s.tr[t], g))
    case Reading(t) => s.Knows(t) && s.tr[t].msg == AtReader(i)
    case Writing(t) => s.Knows(t) && s.tr[t].ans == InFlight(i)
    case Pulled(t, _) => s.Knows(t) && s.tr[t].ans == InFlight(i) && s.m.tk[t].handler == StandardHandler
    case Holding(t, g) =>
      && s.Knows(t) && s.tr[t].life == InUse && s.tr[t].owner == Some(i)
      && StageOk(g, s.m.tk[t], s.tr[t]) && (g.NewTicket? <==> t in s.unlisted)
  }

  ghost predicate InFlightOk(s: State, t: Id, w: Tid) {
    w in s.th && (s.th[w] == Writing(t) || (s.th[w].Pulled? && s.th[w].t == t))
  }

  /** The record of one ticket agrees with the threads, the queues and the lists. */
  ghost predicate TicketOk(s: State, t: Id)
    requires s.Knows(t)
  {
    var k, r := s.m.tk[t], s.tr[t];
    && k.age == r.gen % AGE_SPAN
    && (r.life != InUse ==> r.owner == None && r.ans == Off)
    && (r.life == Free ==> Untouched(k) && r.msg == NoMsg)
    && (r.life == Destroyed ==> r.msg == Replied || r.msg == Lost)
    && (r.life == Free ==> r.now == NOTHING_YET)
    && (r.life == Destroyed ==> r.now == Tally(1, 0, 0, One(r.msg == Replied)))
    && |r.past| == r.gen && PastOk(r.past)
    && (r.owner.Some? ==> s.Holds(r.owner.value) && s.th[r.owner.value].t == t)
    && (r.life == InUse && r.owner == None ==> OrphanOk(k, r))
    && (r.msg.AtReader? ==> s.At(r.msg.reader, Reading(t)))
    && (r.ans.InFlight? ==> InFlightOk(s, t, r.ans.writer))
    && (t in s.m.ms <==> r.msg == OnMs)
    && (t in s.m.aw <==> r.ans == OnAw)
    && (t in s.m.free <==> r.life == Free)
    && (t in s.m.all <==> r.life != Destroyed && t !in s.unlisted)
    && (t in s.unlisted ==> r.life == InUse && r.owner.Some?)
    && (s.Cur(t) in s.daemon <==> r.msg == AtDaemon)
  }

  ghost predicate QueuesOk(m: Memory) {
    NoDup(m.ms) && NoDup(m.aw) && NoDup(m.free) && NoDup(m.all) && !m.loop
  }

  /** The counters: every ticket ever numbered is listed, destroyed, or being allocated. */
  ghost predicate CountersOk(s: State) {
    && s.m.freeCount == |s.m.free|
    && s.m.ticketer == s.m.deadCount + |s.m.all| + |s.unlisted|
  }

  ghost predicate Quiet(s: State) {
    !s.m.dead && s.awOwner == None && !s.flushed
  }

  /** Tickets are numbered 0, 1, ... as they are allocated. */
  ghost predicate NumbersOk(s: State) {
    && (forall t: Id :: t in s.m.tk <==> t < s.m.ticketer)
    && (forall t: Id :: t in s.tr <==> t < s.m.ticketer)
    && (forall t: Id :: t in s.m.ms || t in s.m.aw || t in s.m.free || t in s.m.all || t in s.unlisted
          ==> t < s.m.ticketer)
  }

  ghost predicate TokenOk(s: State, u: Use) {
    s.Knows(u.id) && u.gen == s.tr[u.id].gen
  }

  ghost predicate Good(s: State) {
    && Quiet(s) && NumbersOk(s) && QueuesOk(s.m) && CountersOk(s)
    && (forall i {:trigger ThreadOk(s, i)} :: i in s.th ==> ThreadOk(s, i))
    && (forall t {:trigger TicketOk(s, t)} :: s.Knows(t) ==> TicketOk(s, t))
    && (forall u {:trigger TokenOk(s, u)} :: u in s.daemon ==> TokenOk(s, u))
  }

  // ---- Steps that concern one thread and one ticket -----------------------------

  ghost predicate SameElsewhere(s: State, s': State, t: Id) {
    && (forall u :: u != t ==> (u in s'.m.tk <==> u in s.m.tk) && (u in s'.tr <==> u in s.tr))
    && (forall u :: u != t && u in s.m.tk ==> s'.m.tk[u] == s.m.tk[u])
    && (forall u :: u != t && u in s.tr ==> s'.tr[u] == s.tr[u])
    && (forall u :: u != t ==> (u in s'.m.ms <==> u in s.m.ms) && (u in s'.m.aw <==> u in s.m.aw))
    && (forall u :: u != t ==> (u in s'.m.free <==> u in s.m.free) && (u in s'.m.all <==> u in s.m.all))
    && (forall u :: u != t ==> (u in s'.unlisted <==> u in s.unlisted))
    && (forall u: Use :: u.id != t ==> (u in s'.daemon <==> u in s.daemon))
  }

  /** Thread i, and possibly other threads at t, move; nothing but t changes. */
  ghost predicate Local(s: State, s': State, i: Tid, t: Id) {
    && i in s.th && s'.th.Keys == s.th.Keys
    && (Nowhere(s.th[i]) || Mentions(s.th[i], t))
    && (Nowhere(s'.th[i]) || Mentions(s'.th[i], t))
    && (forall j :: j in s.th && j != i ==> s'.th[j] == s.th[j] || (Mentions(s.th[j], t) && Mentions(s'.th[j], t)))
    && SameElsewhere(s, s', t)
  }

  lemma TicketFrame(s: State, s': State, i: Tid, t: Id, u: Id)
    requires Local(s, s', i, t) && u != t && s.Knows(u) && TicketOk(s, u)
    ensures s'.Knows(u) && TicketOk(s', u)
  {
  }

  lemma ThreadFrame(s: State, s': State, i: Tid, t: Id, j: Tid)
    requires Local(s, s', i, t) && j in s.th && j != i && !Mentions(s.th[j], t) && ThreadOk(s, j)
    ensures ThreadOk(s', j)
  {
  }

  /** What the other threads at t rely on survives a step of thread i. */
  ghost predicate OthersKept(s: State, s': State, i: Tid, t: Id)
    requires s.Knows(t) && s'.Knows(t)
  {
    var k, r, k', r' := s.m.tk[t], s.tr[t], s'.m.tk[t], s'.tr[t];
    && r.gen <= r'.gen
    && (GivenUp(k, r) ==> if r'.gen == r.gen then GivenUp(k', r') else EndedInRelease(r', r.gen))
    && r.past <= r'.past
    && (r.msg.AtReader? && r.msg.reader != i ==> r'.msg == r.msg)
    && (r.ans.InFlight? && r.ans.writer != i ==> r'.ans == r.ans && k'.handler == k.handler)
    && (r.life == InUse && r.owner.Some? && r.owner.value != i && s.Holds(r.owner.value) ==>
          && r'.owner == r.owner && r'.life == InUse && s'.Holds(r.owner.value)
          && s'.th[r.owner.value].t == t && StageOk(s'.th[r.owner.value].stage, k', r')
          && (s'.th[r.owner.value].stage.NewTicket? <==> t in s'.unlisted))
    && (r'.gen != r.gen ==> s.Cur(t) !in s'.daemon)
  }

  /** Only the holder of t is moved by a step of another thread. */
  ghost predicate OthersStay(s: State, s': State, i: Tid, t: Id) {
    forall j {:trigger s'.th[j]} :: j in s.th && j in s'.th && j != i ==>
      s'.th[j] == s.th[j] || (s.Holds(j) && s.th[j].t == t)
  }

  /** What is left to show about a step that concerns thread i and ticket t. */
  ghost predicate Settled(s: State, s': State, i: Tid, t: Id) {
    && Local(s, s', i, t) && OthersStay(s, s', i, t)
    && Quiet(s') && NumbersOk(s') && QueuesOk(s'.m) && CountersOk(s')
    && s'.Knows(t) && TicketOk(s', t) && ThreadOk(s', i)
    && (s.Knows(t) ==> OthersKept(s, s', i, t))
    && (forall u {:trigger u in s'.daemon} :: u in s'.daemon ==> u in s.daemon || u == s'.Cur(t))
  }

  lemma OtherAtTicket(s: State, s': State, i: Tid, t: Id, j: Tid)
    requires j in s.th && j in s'.th && j != i && Mentions(s.th[j], t) && ThreadOk(s, j)
    requires s.Knows(t) && s'.Knows(t) && OthersKept(s, s', i, t)
    requires s'.th.Keys == s.th.Keys && (s.Holds(j) || s'.th[j] == s.th[j])
    ensures ThreadOk(s', j)
  {
  }

  lemma Assemble(s: State, s': State, i: Tid, t: Id)
    requires Good(s) && Settled(s, s', i, t)
    ensures Good(s')
  {
    forall j | j in s'.th ensures ThreadOk(s', j) {
      assert j == i || ThreadOk(s, j);
      if j != i {
        if Mentions(s.th[j], t) { OtherAtTicket(s, s', i, t, j); } else { ThreadFrame(s, s', i, t, j); }
      }
    }
    forall u | s'.Knows(u) ensures TicketOk(s', u) {
      assert u == t || TicketOk(s, u);
      if u != t { TicketFrame(s, s', i, t, u); }
    }
    forall u | u in s'.daemon ensures TokenOk(s', u) {
      assert u == s'.Cur(t) || TokenOk(s, u);
    }
  }

  lemma Appended(q: seq<Id>, t: Id)
    ensures forall u :: u in q + [t] <==> u in q || u == t
    ensures NoDup(q) && t !in q ==> NoDup(q + [t])
  {
  }

  lemma HeadRemoved(q: seq<Id>)
    requires q != [] && NoDup(q)
    ensures NoDup(q[1..]) && q[0] !in q[1..]
    ensures forall u :: u in q <==> u == q[0] || u in q[1..]
  {
  }

  lemma InitIsGood(s: State)
    requires Init(s)
    ensures Good(s)
  {
  }

  /** The part of the invariant that a step of thread i at ticket t starts from. */
  lemma Facts(s: State, i: Tid, t: Id)
    requires Good(s) && i in s.th && s.Knows(t)
    ensures ThreadOk(s, i) && TicketOk(s, t)
    ensures s.tr[t].owner.Some? ==> ThreadOk(s, s.tr[t].owner.value)
  {
    assert ThreadOk(s, i) && TicketOk(s, t);
    assert s.tr[t].owner.Some? ==> ThreadOk(s, s.tr[t].owner.value);
  }

  // ---- The recurring shapes of a step ------------------------------------------

  /** A thread with no ticket stays without one. */
  lemma IdleKeeps(s: State, i: Tid, pc: Pc)
    requires Good(s) && i in s.th && (s.th[i].Idle? || s.th[i].Alloc? || s.th[i].ReadAsleep?)
    requires pc.Idle? || pc.Alloc? || pc.ReadAsleep?
    ensures Good(s.Go(i, pc))
  {
    var s' := s.Go(i, pc);
    forall j | j in s'.th ensures ThreadOk(s', j) { assert ThreadOk(s, j); }
    forall t | s'.Knows(t) ensures TicketOk(s', t) { assert TicketOk(s, t); }
    forall u | u in s'.daemon ensures TokenOk(s', u) { assert TokenOk(s, u); }
  }

  /** The holder of a ticket goes to its next stage, possibly rewriting the record. */
  lemma HolderKeeps(s: State, i: Tid, g: Stage, k: Ticket)
    requires Good(s) && s.Holds(i) && !s.th[i].stage.NewTicket? && !g.NewTicket? && s.Knows(s.th[i].t)
    requires StageOk(g, k, s.tr[s.th[i].t]) && k.age == s.m.tk[s.th[i].t].age
    requires s.m.tk[s.th[i].t].answered && !s.m.tk[s.th[i].t].inval ==> k.answered && !k.inval
    requires s.tr[s.th[i].t].ans.InFlight? ==> k.handler == s.m.tk[s.th[i].t].handler
    ensures Good(s.SetK(s.th[i].t, k).Go(i, Holding(s.th[i].t, g)))
  {
    var t := s.th[i].t;
    var s' := s.SetK(t, k).Go(i, Holding(t, g));
    Facts(s, i, t);
    assert Settled(s, s', i, t);
    Assemble(s, s', i, t);
  }

  /** fuse_ticket_drop is called by the one thread that is left with the ticket. */
  lemma ReleaseKeeps(s: State, i: Tid, t: Id)
    requires Good(s) && i in s.th && s.Knows(t) && Mentions(s.th[i], t)
    requires var r := s.tr[t];
      && r.life == InUse && (r.owner == None || r.owner == Some(i))
      && (r.msg == Replied || r.msg == Lost || r.msg == AtReader(i))
      && (r.ans == Off || r.ans == InFlight(i))
      && r.now == Tally(0, 0, 0, One(r.msg == Replied))
    requires s.th[i].Holding? ==> !s.th[i].stage.NewTicket?
    ensures Good(s.Release(i, t))
  {
    var s' := s.Release(i, t);
    Facts(s, i, t);
    assert Settled(s, s', i, t);
    Assemble(s, s', i, t);
  }

  // ---- One lemma for every step --------------------------------------------------

  lemma FetchKeeps(s: State, i: Tid, s': State)
    requires Good(s) && StepFetch(s, i) == Some(s')
    ensures Good(s')
  {
    if s.m.freeCount == 0 {
      IdleKeeps(s, i, Alloc);
    } else {
      var t := s.m.free[0];
      Facts(s, i, t);
      HeadRemoved(s.m.free);
      assert Settled(s, s', i, t);
      Assemble(s, s', i, t);
    }
  }

  lemma AllocateSettles(s: State, i: Tid, t: Id, s': State)
    requires StepAllocate(s, i) == Some(s') && t == s.m.ticketer
    requires NumbersOk(s) && Use(t, 0) !in s.daemon
    ensures Local(s, s', i, t) && OthersStay(s, s', i, t)
    ensures !s.Knows(t) && s'.Knows(t) && TicketOk(s', t) && ThreadOk(s', i)
  {
  }

  lemma AllocateKeeps(s: State, i: Tid, s': State)
    requires Good(s) && StepAllocate(s, i) == Some(s')
    ensures Good(s')
  {
    var t := s.m.ticketer;
    assert ThreadOk(s, i);
    assert Use(t, 0) in s.daemon ==> TokenOk(s, Use(t, 0));
    AllocateSettles(s, i, t, s');
    assert Settled(s, s', i, t);
    Assemble(s, s', i, t);
  }

  lemma ListKeeps(s: State, i: Tid, s': State)
    requires Good(s) && StepList(s, i) == Some(s')
    ensures Good(s')
  {
    var t := s.th[i].t;
    assert ThreadOk(s, i);
    Facts(s, i, t);
    Appended(s.m.all, t);
    assert Settled(s, s', i, t);
    Assemble(s, s', i, t);
  }

  lemma InitSignalKeeps(s: State, i: Tid, s': State)
    requires Good(s) && StepInitSignal(s, i) == Some(s')
    ensures Good(s')
  {
    assert ThreadOk(s, i);
    var t := s.th[i].t;
    Facts(s, i, t);
    HolderKeeps(s, i, s'.th[i].stage, s'.m.tk[t]);
    assert s' == s.SetK(t, s'.m.tk[t]).Go(i, s'.th[i]);
  }

  lemma InitCompleteKeeps(s: State, s': State)
    requires Good(s) && StepInitComplete(s) == Some(s')
    ensures Good(s')
  {
    forall j | j in s'.th ensures ThreadOk(s', j) { assert ThreadOk(s, j); }
    forall t | s'.Knows(t) ensures TicketOk(s', t) { assert TicketOk(s, t); }
    forall u | u in s'.daemon ensures TokenOk(s', u) { assert TokenOk(s, u); }
  }

  lemma WakeInitWaitersKeeps(s: State, s': State)
    requires Good(s) && StepWakeInitWaiters(s) == Some(s')
    ensures Good(s')
  {
    forall j | j in s'.th ensures ThreadOk(s', j) { assert ThreadOk(s, j); }
    forall t | s'.Knows(t) ensures TicketOk(s', t) { assert TicketOk(s, t); }
    forall u | u in s'.daemon ensures TokenOk(s', u) { assert TokenOk(s, u); }
  }

  lemma MarkKilllKeeps(s: State, i: Tid, s': State)
    requires Good(s) && StepMarkKilll(s, i) == Some(s')
    ensures Good(s')
  {
    assert ThreadOk(s, i);
    var t := s.th[i].t;
    Facts(s, i, t);
    HolderKeeps(s, i, s'.th[i].stage, s'.m.tk[t]);
    assert s' == s.SetK(t, s'.m.tk[t]).Go(i, s'.th[i]);
  }

  lemma PostKeeps(s: State, i: Tid, mode: Mode, s': State)
    requires Good(s) && StepPost(s, i, mode) == Some(s')
    ensures Good(s')
  {
    assert ThreadOk(s, i);
    var t := s.th[i].t;
    Facts(s, i, t);
    HolderKeeps(s, i, s'.th[i].stage, s'.m.tk[t]);
    assert s' == s.SetK(t, s'.m.tk[t]).Go(i, s'.th[i]);
  }

  lemma PushAwKeeps(s: State, i: Tid, s': State)
    requires Good(s) && StepPushAw(s, i) == Some(s')
    ensures Good(s')
  {
    var t := s.th[i].t;
    assert ThreadOk(s, i);
    Facts(s, i, t);
    Appended(s.m.aw, t);
    assert Settled(s, s', i, t);
    Assemble(s, s', i, t);
  }

  lemma MessageKeeps(s: State, i: Tid, s': State)
    requires Good(s) && StepMessage(s, i) == Some(s')
    ensures Good(s')
  {
    assert ThreadOk(s, i);
    var t := s.th[i].t;
    Facts(s, i, t);
    HolderKeeps(s, i, s'.th[i].stage, s'.m.tk[t]);
    assert s' == s.SetK(t, s'.m.tk[t]).Go(i, s'.th[i]);
  }

  lemma PushMsKeeps(s: State, i: Tid, s': State)
    requires Good(s) && StepPushMs(s, i) == Some(s')
    ensures Good(s')
  {
    var t := s.th[i].t;
    assert ThreadOk(s, i);
    Facts(s, i, t);
    Appended(s.m.ms, t);
    assert Settled(s, s', i, t);
    Assemble(s, s', i, t);
  }

  lemma CheckKeeps(s: State, i: Tid, s': State)
    requires Good(s) && StepCheck(s, i) == Some(s')
    ensures Good(s')
  {
    assert ThreadOk(s, i);
    var t := s.th[i].t;
    Facts(s, i, t);
    HolderKeeps(s, i, s'.th[i].stage, s'.m.tk[t]);
    assert s' == s.SetK(t, s'.m.tk[t]).Go(i, s'.th[i]);
  }

  lemma SleepKeeps(s: State, i: Tid, s': State)
    requires Good(s) && StepSleep(s, i) == Some(s')
    ensures Good(s')
  {
    assert ThreadOk(s, i);
    var t := s.th[i].t;
    Facts(s, i, t);
    HolderKeeps(s, i, s'.th[i].stage, s'.m.tk[t]);
    assert s' == s.SetK(t, s'.m.tk[t]).Go(i, s'.th[i]);
  }

  lemma SignalKeeps(s: State, i: Tid, err: int, s': State)
    requires Good(s) && StepSignal(s, i, err) == Some(s')
    ensures Good(s')
  {
    assert ThreadOk(s, i);
    var t := s.th[i].t;
    Facts(s, i, t);
    HolderKeeps(s, i, s'.th[i].stage, s'.m.tk[t]);
    assert s' == s.SetK(t, s'.m.tk[t]).Go(i, s'.th[i]);
  }

  lemma ResumeKeeps(s: State, i: Tid, s': State)
    requires Good(s) && StepResume(s, i) == Some(s')
    ensures Good(s')
  {
    assert ThreadOk(s, i);
    var t := s.th[i].t;
    Facts(s, i, t);
    HolderKeeps(s, i, s'.th[i].stage, s'.m.tk[t]);
    assert s' == s.SetK(t, s'.m.tk[t]).Go(i, s'.th[i]);
  }

  lemma ReactSettles(s: State, i: Tid, t: Id, s': State)
    requires i in s.th && s.Knows(t) && s.th[i].Holding? && s.th[i].t == t
    requires s.th[i].stage.Waited? && s.th[i].stage.err != 0 && !s.m.tk[t].answered
    requires StepReact(s, i) == Some(s')
    requires ThreadOk(s, i) && TicketOk(s, t)
    requires s.tr[t].owner.Some? ==> ThreadOk(s, s.tr[t].owner.value)
    ensures Local(s, s', i, t) && OthersStay(s, s', i, t)
    ensures s'.Knows(t) && TicketOk(s', t) && ThreadOk(s', i) && OthersKept(s, s', i, t)
  {
  }

  lemma InterruptedKeeps(s: State, i: Tid, s': State)
    requires Good(s) && StepReact(s, i) == Some(s')
    requires s.th[i].stage.err != 0 && !s.m.tk[s.th[i].t].answered
    ensures Good(s')
  {
    var t := s.th[i].t;
    Facts(s, i, t);
    ReactSettles(s, i, t, s');
    assert Settled(s, s', i, t);
    Assemble(s, s', i, t);
  }

  lemma ReactKeeps(s: State, i: Tid, s': State)
    requires Good(s) && StepReact(s, i) == Some(s')
    ensures Good(s')
  {
    var t := s.th[i].t;
    assert ThreadOk(s, i);
    if s.th[i].stage.err != 0 && !s.m.tk[t].answered {
      InterruptedKeeps(s, i, s');
    } else if s'.th[i] == Holding(t, Dropping) {
      ReleaseKeeps(s, i, t);
    } else {
      HolderKeeps(s, i, HaveAnswer, s.m.tk[t]);
      assert s' == s.SetK(t, s.m.tk[t]).Go(i, s'.th[i]);
    }
  }

  lemma AgesTellApart(g: nat, g': nat)
    requires g <= g' < g + AGE_SPAN && g % AGE_SPAN == g' % AGE_SPAN
    ensures g == g'
  {
  }

  lemma ClearStays(s: State, i: Tid, t: Id, s': State)
    requires i in s.th && s.Knows(t) && s.th[i].Clearing? && s.th[i].t == t
    requires s.m.tk[t].age == s.th[i].age ==> s.th[i].gen == s.tr[t].gen
    requires StepClear(s, i) == Some(s')
    requires ThreadOk(s, i) && TicketOk(s, t)
    requires s.tr[t].owner.Some? ==> ThreadOk(s, s.tr[t].owner.value)
    ensures Local(s, s', i, t) && OthersStay(s, s', i, t)
  {
  }

  lemma ClearSettles(s: State, i: Tid, t: Id, s': State)
    requires i in s.th && s.Knows(t) && s.th[i].Clearing? && s.th[i].t == t
    requires s.m.tk[t].age == s.th[i].age ==> s.th[i].gen == s.tr[t].gen
    requires StepClear(s, i) == Some(s')
    requires ThreadOk(s, i) && TicketOk(s, t)
    requires s.tr[t].owner.Some? ==> ThreadOk(s, s.tr[t].owner.value)
    ensures s'.Knows(t) && TicketOk(s', t) && ThreadOk(s', i) && OthersKept(s, s', i, t)
  {
    if s'.m.tk[t] != s.m.tk[t] {
      assert s.m.tk[t].answered && s.tr[t].ans == OnAw;
      assert s.tr[t].owner == None && OrphanOk(s.m.tk[t], s.tr[t]);
    }
  }

  lemma ClearKeeps(s: State, i: Tid, s': State)
    requires Good(s) && StepClear(s, i) == Some(s') && AgeWindow(s, Clear(i))
    ensures Good(s')
  {
    var t := s.th[i].t;
    assert ThreadOk(s, i);
    Facts(s, i, t);
    if s.m.tk[t].age == s.th[i].age { AgesTellApart(s.th[i].gen, s.tr[t].gen); }
    ClearStays(s, i, t, s');
    ClearSettles(s, i, t, s');
    assert Settled(s, s', i, t);
    Assemble(s, s', i, t);
  }

  lemma CallerDropKeeps(s: State, i: Tid, s': State)
    requires Good(s) && StepCallerDrop(s, i) == Some(s')
    ensures Good(s')
  {
    assert ThreadOk(s, i);
    ReleaseKeeps(s, i, s.th[i].t);
  }

  /** A refreshed ticket starts a use that the daemon has not seen. */
  lemma NextUse(s: State, t: Id)
    requires Good(s) && s.Knows(t)
    ensures (s.tr[t].gen + 1) % AGE_SPAN == (s.tr[t].gen % AGE_SPAN + 1) % AGE_SPAN
    ensures Use(t, s.tr[t].gen + 1) !in s.daemon
  {
    var u := Use(t, s.tr[t].gen + 1);
    assert u in s.daemon ==> TokenOk(s, u);
  }

  lemma CallerReuseStays(s: State, i: Tid, t: Id, s': State)
    requires i in s.th && s.Knows(t) && s.th[i] == Holding(t, HaveAnswer) && Use(t, s.tr[t].gen + 1) !in s.daemon
      && (s.tr[t].gen + 1) % AGE_SPAN == (s.tr[t].gen % AGE_SPAN + 1) % AGE_SPAN
    requires StepCallerReuse(s, i) == Some(s')
    requires ThreadOk(s, i) && TicketOk(s, t)
    requires s.tr[t].owner.Some? ==> ThreadOk(s, s.tr[t].owner.value)
    ensures Local(s, s', i, t) && OthersStay(s, s', i, t)
  {
  }

  lemma CallerReuseSettles(s: State, i: Tid, t: Id, s': State)
    requires i in s.th && s.Knows(t) && s.th[i] == Holding(t, HaveAnswer) && Use(t, s.tr[t].gen + 1) !in s.daemon
      && (s.tr[t].gen + 1) % AGE_SPAN == (s.tr[t].gen % AGE_SPAN + 1) % AGE_SPAN
    requires StepCallerReuse(s, i) == Some(s')
    requires ThreadOk(s, i) && TicketOk(s, t)
    requires s.tr[t].owner.Some? ==> ThreadOk(s, s.tr[t].owner.value)
    ensures s'.Knows(t) && TicketOk(s', t) && ThreadOk(s', i) && OthersKept(s, s', i, t)
  {
  }

  lemma CallerReuseKeeps(s: State, i: Tid, s': State)
    requires Good(s) && StepCallerReuse(s, i) == Some(s')
    ensures Good(s')
  {
    var t := s.th[i].t;
    assert ThreadOk(s, i);
    Facts(s, i, t);
    NextUse(s, t);
    PastGrows(s.tr[t].past, s.tr[t].now.(restarts := 1));
    CallerReuseStays(s, i, t, s');
    CallerReuseSettles(s, i, t, s');
    assert Settled(s, s', i, t);
    Assemble(s, s', i, t);
  }

  lemma CallerAbandonKeeps(s: State, i: Tid, s': State)
    requires Good(s) && StepCallerAbandon(s, i) == Some(s')
    ensures Good(s')
  {
    var t := s.th[i].t;
    assert ThreadOk(s, i);
    Facts(s, i, t);
    assert Settled(s, s', i, t);
    Assemble(s, s', i, t);
  }

  lemma DecideSettles(s: State, i: Tid, t: Id, s': State)
    requires i in s.th && s.Knows(t) && s.th[i] == Holding(t, Dropping) && MustDie(s.m, t)
    requires t !in Without(s.m.all, t) && forall u :: u in Without(s.m.all, t) <==> u in s.m.all && u != t
    requires StepDecide(s, i) == Some(s')
    requires ThreadOk(s, i) && TicketOk(s, t)
    requires s.tr[t].owner.Some? ==> ThreadOk(s, s.tr[t].owner.value)
    ensures Local(s, s', i, t) && OthersStay(s, s', i, t)
    ensures s'.Knows(t) && TicketOk(s', t) && ThreadOk(s', i) && OthersKept(s, s', i, t)
  {
  }

  lemma DestroyKeeps(s: State, i: Tid, t: Id, s': State)
    requires Good(s) && i in s.th && s.th[i] == Holding(t, Dropping) && s.Knows(t) && MustDie(s.m, t)
    requires StepDecide(s, i) == Some(s')
    ensures Good(s')
  {
    Facts(s, i, t);
    WithoutMembers(s.m.all, t);
    DecideSettles(s, i, t, s');
    assert Settled(s, s', i, t);
    Assemble(s, s', i, t);
  }

  lemma DecideKeeps(s: State, i: Tid, s': State)
    requires Good(s) && StepDecide(s, i) == Some(s')
    ensures Good(s')
  {
    var t := s.th[i].t;
    assert ThreadOk(s, i);
    Facts(s, i, t);
    if MustDie(s.m, t) {
      DestroyKeeps(s, i, t, s');
    } else {
      HolderKeeps(s, i, Recycling, s.m.tk[t]);
      assert s' == s.SetK(t, s.m.tk[t]).Go(i, s'.th[i]);
    }
  }

  lemma RecycleSettles(s: State, i: Tid, t: Id, s': State)
    requires i in s.th && s.Knows(t) && s.th[i] == Holding(t, Recycling) && Use(t, s.tr[t].gen + 1) !in s.daemon
      && (s.tr[t].gen + 1) % AGE_SPAN == (s.tr[t].gen % AGE_SPAN + 1) % AGE_SPAN
    requires PushFree(s.m, t).free == s.m.free + [t] && forall u :: u in s.m.free + [t] <==> u in s.m.free || u == t
    requires StepRecycle(s, i) == Some(s')
    requires ThreadOk(s, i) && TicketOk(s, t)
    requires s.tr[t].owner.Some? ==> ThreadOk(s, s.tr[t].owner.value)
    ensures Local(s, s', i, t) && OthersStay(s, s', i, t)
    ensures s'.Knows(t) && TicketOk(s', t) && ThreadOk(s', i) && OthersKept(s, s', i, t)
  {
  }

  lemma RecycleKeeps(s: State, i: Tid, s': State)
    requires Good(s) && StepRecycle(s, i) == Some(s')
    ensures Good(s')
  {
    var t := s.th[i].t;
    assert ThreadOk(s, i);
    Facts(s, i, t);
    NextUse(s, t);
    PastGrows(s.tr[t].past, s.tr[t].now);
    Appended(s.m.free, t);
    RecycleSettles(s, i, t, s');
    assert Settled(s, s', i, t);
    Assemble(s, s', i, t);
  }

  lemma ReadPopSettles(s: State, i: Tid, t: Id, s': State)
    requires i in s.th && s.Knows(t) && s.m.ms != [] && t == s.m.ms[0]
    requires t !in s.m.ms[1..] && forall u :: u in s.m.ms <==> u == t || u in s.m.ms[1..]
    requires StepReadPop(s, i) == Some(s')
    requires ThreadOk(s, i) && TicketOk(s, t)
    requires s.tr[t].owner.Some? ==> ThreadOk(s, s.tr[t].owner.value)
    ensures Local(s, s', i, t) && OthersStay(s, s', i, t)
    ensures s'.Knows(t) && TicketOk(s', t) && ThreadOk(s', i) && OthersKept(s, s', i, t)
  {
  }

  lemma ReadPopKeeps(s: State, i: Tid, s': State)
    requires Good(s) && StepReadPop(s, i) == Some(s')
    ensures Good(s')
  {
    var t := s.m.ms[0];
    Facts(s, i, t);
    HeadRemoved(s.m.ms);
    ReadPopSettles(s, i, t, s');
    assert Settled(s, s', i, t);
    Assemble(s, s', i, t);
  }

  lemma ReadFinishSettles(s: State, i: Tid, t: Id, delivered: bool, s': State)
    requires i in s.th && s.th[i] == Reading(t) && s.Knows(t) && !s.m.tk[t].inval && !s.m.dead
    requires StepReadFinish(s, i, false, delivered) == Some(s')
    requires ThreadOk(s, i) && TicketOk(s, t)
    requires s.tr[t].owner.Some? ==> ThreadOk(s, s.tr[t].owner.value)
    ensures Local(s, s', i, t) && OthersStay(s, s', i, t)
    ensures s'.Knows(t) && TicketOk(s', t) && ThreadOk(s', i) && OthersKept(s, s', i, t)
  {
    var k, r := s.m.tk[t], s.tr[t];
    assert r.owner.Some? ==> WaitOk(k, r);
    assert r.owner == None ==> OrphanOk(k, r);
    assert Local(s, s', i, t) && OthersStay(s, s', i, t);
  }

  lemma ReadDoneKeeps(s: State, i: Tid, delivered: bool, s': State)
    requires Good(s) && s.Holds(i) == false && i in s.th && s.th[i].Reading? && s.Knows(s.th[i].t)
    requires StepReadFinish(s, i, false, delivered) == Some(s') && !s.m.tk[s.th[i].t].inval
    ensures Good(s')
  {
    var t := s.th[i].t;
    Facts(s, i, t);
    ReadFinishSettles(s, i, t, delivered, s');
    assert Settled(s, s', i, t);
    Assemble(s, s', i, t);
  }

  lemma ReadFinishKeeps(s: State, i: Tid, tooSmall: bool, delivered: bool, s': State)
    requires Good(s) && StepReadFinish(s, i, tooSmall, delivered) == Some(s') && !s'.m.dead
    ensures Good(s')
  {
    var t := s.th[i].t;
    assert ThreadOk(s, i);
    if s.m.tk[t].inval {
      Facts(s, i, t);
      ReleaseKeeps(s, i, t);
    } else {
      ReadDoneKeeps(s, i, delivered, s');
    }
  }

  /** Every reply of the daemon finds its ticket on the answer queue. */
  lemma ReplyFindsTicket(s: State, use: Use)
    requires Good(s) && use in s.daemon
    ensures s.Knows(use.id) && use == s.Cur(use.id) && use.id in s.m.aw && s.tr[use.id].life == InUse
  {
    assert TokenOk(s, use);
    var k, r := s.m.tk[use.id], s.tr[use.id];
    assert TicketOk(s, use.id);
    if r.owner.Some? {
      assert ThreadOk(s, r.owner.value);
      assert WaitOk(k, r);
    } else {
      assert OrphanOk(k, r);
    }
  }

  lemma TakeReplyStays(s: State, i: Tid, t: Id, use: Use, s': State)
    requires i in s.th && s.Knows(t) && t == use.id && use == s.Cur(t) && t in s.m.aw
    requires t !in Without(s.m.aw, t) && forall u :: u in Without(s.m.aw, t) <==> u in s.m.aw && u != t
    requires StepTakeReply(s, i, use) == Some(s')
    requires ThreadOk(s, i) && TicketOk(s, t) && s.tr[t].life == InUse
    requires s.tr[t].owner.Some? ==> ThreadOk(s, s.tr[t].owner.value)
    ensures Local(s, s', i, t) && OthersStay(s, s', i, t)
  {
  }

  lemma TakeReplySettles(s: State, i: Tid, t: Id, use: Use, s': State)
    requires i in s.th && s.Knows(t) && t == use.id && use == s.Cur(t) && t in s.m.aw
    requires t !in Without(s.m.aw, t) && forall u :: u in Without(s.m.aw, t) <==> u in s.m.aw && u != t
    requires StepTakeReply(s, i, use) == Some(s')
    requires ThreadOk(s, i) && TicketOk(s, t) && s.tr[t].life == InUse
    requires s.tr[t].owner.Some? ==> ThreadOk(s, s.tr[t].owner.value)
    ensures s'.Knows(t) && TicketOk(s', t) && ThreadOk(s', i) && OthersKept(s, s', i, t)
  {
    var k, r := s.m.tk[t], s.tr[t];
    assert r.owner.Some? ==> WaitOk(k, r);
    assert r.owner == None ==> OrphanOk(k, r);
  }

  lemma TakeReplyKeeps(s: State, i: Tid, use: Use, s': State)
    requires Good(s) && StepTakeReply(s, i, use) == Some(s')
    ensures Good(s')
  {
    var t := use.id;
    ReplyFindsTicket(s, use);
    Facts(s, i, t);
    WithoutMembers(s.m.aw, t);
    TakeReplyStays(s, i, t, use, s');
    TakeReplySettles(s, i, t, use, s');
    assert Settled(s, s', i, t);
    Assemble(s, s', i, t);
  }

  lemma DispatchSettles(s: State, i: Tid, t: Id, status: int, err: int, kill: bool, s': State)
    requires i in s.th && s.Knows(t) && s.th[i] == Writing(t) && s.m.tk[t].handler != NoHandler
    requires StepDispatch(s, i, status, err, kill) == Some(s')
    requires ThreadOk(s, i) && TicketOk(s, t)
    requires s.tr[t].owner.Some? ==> ThreadOk(s, s.tr[t].owner.value)
    ensures Local(s, s', i, t) && OthersStay(s, s', i, t)
    ensures s'.Knows(t) && TicketOk(s', t) && ThreadOk(s', i) && OthersKept(s, s', i, t)
  {
  }

  lemma DispatchKeeps(s: State, i: Tid, status: int, err: int, kill: bool, s': State)
    requires Good(s) && StepDispatch(s, i, status, err, kill) == Some(s')
    ensures Good(s')
  {
    var t := s.th[i].t;
    assert ThreadOk(s, i);
    Facts(s, i, t);
    if s.m.tk[t].handler == NoHandler {
      ReleaseKeeps(s, i, t);
    } else {
      DispatchSettles(s, i, t, status, err, kill, s');
      assert Settled(s, s', i, t);
      Assemble(s, s', i, t);
    }
  }

  lemma AnswerStays(s: State, i: Tid, t: Id, s': State)
    requires i in s.th && s.th[i].Pulled? && s.th[i].t == t && s.Knows(t) && !s.m.tk[t].answered
    requires StepAnswer(s, i) == Some(s')
    requires ThreadOk(s, i) && TicketOk(s, t)
    requires s.tr[t].owner.Some? ==> ThreadOk(s, s.tr[t].owner.value)
    requires forall j :: j in s.th && s.th[j] == Holding(t, Asleep) ==> s.tr[t].owner == Some(j)
    ensures Local(s, s', i, t) && OthersStay(s, s', i, t)
  {
  }

  lemma AnswerSettles(s: State, i: Tid, t: Id, s': State)
    requires i in s.th && s.th[i].Pulled? && s.th[i].t == t && s.Knows(t) && !s.m.tk[t].answered
    requires StepAnswer(s, i) == Some(s')
    requires ThreadOk(s, i) && TicketOk(s, t)
    requires s.tr[t].owner.Some? ==> ThreadOk(s, s.tr[t].owner.value)
    requires forall j :: j in s.th && s.th[j] == Holding(t, Asleep) ==> s.tr[t].owner == Some(j)
    ensures s'.Knows(t) && TicketOk(s', t) && ThreadOk(s', i) && OthersKept(s, s', i, t)
  {
    var j := s.tr[t].owner.value;
    assert s.Holds(j) && WaitOk(s.m.tk[t], s.tr[t]) && s.th[j].t == t && j != i;
    assert s'.m.tk[t].answered && s'.tr[t].ans == Off && s'.tr[t].msg == Replied;
  }

  lemma AnsweredKeeps(s: State, i: Tid, s': State)
    requires Good(s) && StepAnswer(s, i) == Some(s') && !s.m.tk[s.th[i].t].answered
    ensures Good(s')
  {
    var t := s.th[i].t;
    assert ThreadOk(s, i);
    Facts(s, i, t);
    forall j | j in s.th && s.th[j] == Holding(t, Asleep) ensures s.tr[t].owner == Some(j) { assert ThreadOk(s, j); }
    AnswerStays(s, i, t, s');
    AnswerSettles(s, i, t, s');
    assert Settled(s, s', i, t);
    Assemble(s, s', i, t);
  }

  lemma AnswerKeeps(s: State, i: Tid, s': State)
    requires Good(s) && StepAnswer(s, i) == Some(s')
    ensures Good(s')
  {
    var t := s.th[i].t;
    assert ThreadOk(s, i);
    Facts(s, i, t);
    if s.m.tk[t].answered { ReleaseKeeps(s, i, t); } else { AnsweredKeeps(s, i, s'); }
  }
}
