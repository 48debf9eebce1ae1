/** When the death of the session leads to two releases of one use of a ticket: exactly when
  * its requester is about to wait and the reply is on its way or still owed.
  */
module TicketTwice {
  import opened Lists
  import opened TicketMemory
  import opened TicketProtocol
  import opened TicketFrame
  import opened TicketInvariant
  import opened TicketTheorems
  import opened TicketCounts
  import opened TicketReuse

  /** The daemon may still answer a message that was sent with t. */
  ghost predicate Owed(s: State, t: Id) {
    exists u: Use {:trigger u in s.daemon} :: u in s.daemon && u.id == t
  }

  /** A writer has t, or a reply that is still owed will find it on the answer queue. */
  ghost predicate Replying(s: State, t: Id)
    requires t in s.tr
  {
    s.tr[t].ans.InFlight? || (Owed(s, t) && multiset(s.m.aw)[t] > 0)
  }

  /** The requester has yet to look whether the session is dead. */
  predicate Preparing(g: Stage) {
    g.NewTicket? || g.InitSleep? || g.Failing? || g.Made? || g.PushingAw?
  }

  predicate InDrop(g: Stage) { g.Dropping? || g.Recycling? }

  /** What keeps the holder of t and a writer from both releasing it: only while the ticket is
    * unanswered and has the standard handler can there be both, and then tk_aw_mtx decides.
    */
  ghost predicate HolderOk(s: State, t: Id, g: Stage)
    requires s.Knows(t)
  {
    var k, r := s.m.tk[t], s.tr[t];
    && r.life == InUse && r.now.drops == One(InDrop(g))
    && (g.PushingAw? ==> g.mode != Forget)
    && (Preparing(g) ==> !k.inval && r.msg == NoMsg && !Owed(s, t) && r.ans == Off && multiset(s.m.aw)[t] == 0)
    && (g.Posted? || g.PushingMs? ==> r.msg == NoMsg && !Owed(s, t) && !r.ans.InFlight? && (k.inval <==>
      g.mode == Forget))
    && (!Preparing(g) && !g.Posted? && !g.PushingMs? && !InDrop(g) ==> !k.inval)
    && (Replying(s, t) ==>
          && (g.WaitLocked? || g.Asleep? || g.Woken? || (g.Waited? && g.err != 0))
          && !k.answered && k.handler == StandardHandler)
  }

  ghost predicate PartyOk(s: State, t: Id, j: Tid)
    requires s.Knows(t) && j in s.th
  {
    var k, r := s.m.tk[t], s.tr[t];
    match s.th[j]
    case Clearing(u, age, g) => u == t ==>
      g <= r.gen && age == g % AGE_SPAN && (g == r.gen ==> (r.owner == None && r.life == InUse) || r.now.drops == 1)
    case Reading(u) => u == t ==> r.msg != NoMsg && (k.inval ==> r.msg == AtReader(j) && r.owner == None)
    case Writing(u) => u == t ==> r.ans == InFlight(j)
    case Pulled(u, _) => u == t ==> r.ans == InFlight(j)
    case InHand(u) => u == t ==> !Replying(s, t)
    case Holding(u, g) => u == t ==> r.owner == Some(j) && HolderOk(s, t, g)
    case _ => true
  }

  ghost predicate RecordOk(s: State, t: Id)
    requires s.Knows(t)
  {
    var k, r := s.m.tk[t], s.tr[t];
    && t < s.m.ticketer && k.age == r.gen % AGE_SPAN
    && (t in s.m.free ==> r.life == Free) && !LoopsAt(s.m, t) && multiset(s.m.aw)[t] <= 1
    && multiset(s.m.ms)[t] <= 1 && (multiset(s.m.ms)[t] > 0 ==> r.msg != NoMsg)
    && (multiset(s.m.ms)[t] > 0 && k.inval ==> r.msg == OnMs && r.owner == None && r.now.drops == 0 && r.life == InUse)
    && (r.ans.InFlight? || r.ans.Popped? ==> multiset(s.m.aw)[t] == 0)
    && r.now.drops <= 1
    && (r.now.drops == 1 ==> !Replying(s, t) && r.msg != NoMsg && r.life != Free)
    && (r.now.drops == 1 && k.inval ==> r.msg == Replied || r.msg == Lost)
    && (r.life == Destroyed ==> r.now.drops == 1)
    && (r.life == Free ==>
          r.owner == None && !k.inval && r.msg == NoMsg && r.ans == Off && multiset(s.m.aw)[t] == 0 && !Owed(s, t))
    && (k.inval ==> !Owed(s, t) && !r.ans.InFlight? && multiset(s.m.aw)[t] == 0)
  }

  ghost predicate Regime(s: State, t: Id) {
    && s.Knows(t) && RecordOk(s, t)
    && forall j {:trigger PartyOk(s, t, j)} :: j in s.th ==> PartyOk(s, t, j)
  }

  /** Use g of t is released at most once, whatever is still to come. */
  ghost predicate AtMostOnce(s: State, t: Id, g: nat) {
    && NoDup(s.m.free)
    && s.Knows(t) && t < s.m.ticketer && |s.tr[t].past| == s.tr[t].gen && g <= s.tr[t].gen
    && (if g == s.tr[t].gen then Regime(s, t) else s.tr[t].past[g].drops <= 1)
  }

  lemma SameOwed(s: State, s': State, t: Id)
    requires forall u: Use {:trigger u in s'.daemon} :: u.id == t ==> (u in s'.daemon <==> u in s.daemon)
    ensures Owed(s', t) == Owed(s, t)
  {
    if u :| u in s.daemon && u.id == t { assert u in s'.daemon; }
  }

  // ---- Steps away from t ------------------------------------------------------------------

  lemma AwayKeepsRegime(s: State, s': State, t: Id)
    requires Regime(s, t) && Away(s, s', t)
    ensures Regime(s', t)
  {
    SameOwed(s, s', t);
    forall j | j in s'.th ensures PartyOk(s', t, j) { assert PartyOk(s, t, j); }
  }

  // ---- Steps of the holder ---------------------------------------------------------------

  /** fuse_ticket_drop is called by the one thread that is left to call it. */
  lemma ReleaseRegime(s: State, i: Tid, t: Id)
    requires Regime(s, t) && i in s.th && Mentions(s.th[i], t)
    requires var k, r := s.m.tk[t], s.tr[t];
      && r.life == InUse && r.now.drops == 0
      && !(Owed(s, t) && multiset(s.m.aw)[t] > 0) && (r.ans.InFlight? ==> r.ans == InFlight(i))
      && (k.inval ==> r.msg == AtReader(i))
    requires forall j {:trigger HoldsTicket(s, j, t)} :: HoldsTicket(s, j, t) ==> j == i
    ensures Regime(s.Release(i, t), t)
  {
    var s' := s.Release(i, t);
    assert Owed(s', t) == Owed(s, t);
    forall j | j in s'.th ensures PartyOk(s', t, j) { assert PartyOk(s, t, j) && (j != i ==> !HoldsTicket(s, j, t)); }
  }

  lemma OneHolder(s: State, i: Tid, t: Id)
    requires Regime(s, t) && HoldsTicket(s, i, t)
    ensures forall j {:trigger HoldsTicket(s, j, t)} :: HoldsTicket(s, j, t) ==> j == i
    ensures s.tr[t].owner == Some(i) && HolderOk(s, t, s.th[i].stage)
  {
    assert PartyOk(s, t, i);
    forall j | HoldsTicket(s, j, t) ensures j == i { assert PartyOk(s, t, j); }
  }

  /** Nobody holds a ticket that only its reader or its writer is to release. */
  lemma NoHolder(s: State, t: Id)
    requires Regime(s, t)
    requires s.tr[t].owner == None || (Replying(s, t) && (s.m.tk[t].answered || s.m.tk[t].handler == NoHandler))
    ensures forall j {:trigger HoldsTicket(s, j, t)} :: !HoldsTicket(s, j, t)
  {
    forall j ensures !HoldsTicket(s, j, t) { if j in s.th { assert PartyOk(s, t, j); } }
  }

  /** The holder goes to its next stage, possibly rewriting the ticket. */
  lemma HolderMoves(s: State, i: Tid, g: Stage, k: Ticket, t: Id)
    requires Regime(s, t) && HoldsTicket(s, i, t) && k.age == s.m.tk[t].age
    requires HolderOk(s.SetK(t, k).Go(i, Holding(t, g)), t, g)
    requires k.inval && !s.m.tk[t].inval ==> Preparing(s.th[i].stage)
    ensures Regime(s.SetK(t, k).Go(i, Holding(t, g)), t)
  {
    var s' := s.SetK(t, k).Go(i, Holding(t, g));
    OneHolder(s, i, t);
    assert Owed(s', t) == Owed(s, t);
    forall j | j in s'.th ensures PartyOk(s', t, j) { assert PartyOk(s, t, j) && (j != i ==> !HoldsTicket(s, j, t)); }
  }

  lemma FetchRegime(s: State, i: Tid, s': State, t: Id)
    requires Regime(s, t) && StepFetch(s, i) == Some(s') && Subject(s, Fetch(i)) == Some(t) && NoDup(s.m.free)
    ensures Regime(s', t)
  {
    assert t in s.m.free;
    assert t !in s'.m.free;
    assert Owed(s', t) == Owed(s, t);
    forall j | j in s'.th ensures PartyOk(s', t, j) { assert PartyOk(s, t, j); }
  }

  lemma ListRegime(s: State, i: Tid, s': State, t: Id)
    requires Regime(s, t) && StepList(s, i) == Some(s') && Subject(s, List(i)) == Some(t)
    ensures Regime(s', t)
  {
    assert s.th[i].t == t && PartyOk(s, t, i);
    assert Owed(s', t) == Owed(s, t);
    forall j | j in s'.th ensures PartyOk(s', t, j) { assert PartyOk(s, t, j); }
  }

  lemma InitSignalRegime(s: State, i: Tid, s': State, t: Id)
    requires Regime(s, t) && StepInitSignal(s, i) == Some(s') && Subject(s, InitSignal(i)) == Some(t)
    ensures Regime(s', t)
  {
    assert s.th[i].t == t && PartyOk(s, t, i);
    assert Owed(s', t) == Owed(s, t);
    forall j | j in s'.th ensures PartyOk(s', t, j) { assert PartyOk(s, t, j); }
  }

  lemma FailDeadRegime(s: State, i: Tid, s': State, t: Id)
    requires Regime(s, t) && StepFailDead(s, i) == Some(s') && Subject(s, FailDead(i)) == Some(t)
    ensures Regime(s', t)
  {
    assert s.th[i].t == t && PartyOk(s, t, i);
    assert Owed(s', t) == Owed(s, t);
    forall j | j in s'.th ensures PartyOk(s', t, j) { assert PartyOk(s, t, j); }
  }

  lemma PostGoes(s: State, i: Tid, mode: Mode, s': State, t: Id)
    requires StepPost(s, i, mode) == Some(s') && HoldsTicket(s, i, t) && s.Knows(t) && HolderOk(s, t, s.th[i].stage)
    ensures s'.m.tk.Keys == s.m.tk.Keys && s' == s.SetK(t, s'.m.tk[t]).Go(i, s'.th[i])
    ensures s'.th[i].Holding? && s'.th[i].t == t && HolderOk(s', t, s'.th[i].stage)
    ensures s'.m.tk[t].age == s.m.tk[t].age && Preparing(s.th[i].stage)
  {
    assert Owed(s', t) == Owed(s, t);
  }

  lemma PostRegime(s: State, i: Tid, mode: Mode, s': State, t: Id)
    requires Regime(s, t) && StepPost(s, i, mode) == Some(s') && Subject(s, Post(i, mode)) == Some(t)
    ensures Regime(s', t)
  {
    OneHolder(s, i, t);
    PostGoes(s, i, mode, s', t);
    HolderMoves(s, i, s'.th[i].stage, s'.m.tk[t], t);
  }

  lemma PushAwRegime(s: State, i: Tid, s': State, t: Id)
    requires Regime(s, t) && StepPushAw(s, i) == Some(s') && Subject(s, DoPushAw(i)) == Some(t)
    ensures Regime(s', t)
  {
    TailCounts(s.m.aw, t);
    assert s.th[i].t == t && PartyOk(s, t, i);
    assert Owed(s', t) == Owed(s, t);
    forall j | j in s'.th ensures PartyOk(s', t, j) { assert PartyOk(s, t, j); }
  }

  lemma MessageRegime(s: State, i: Tid, s': State, t: Id)
    requires Regime(s, t) && StepMessage(s, i) == Some(s') && Subject(s, Message(i)) == Some(t)
    ensures Regime(s', t)
  {
    assert s.th[i].t == t && PartyOk(s, t, i);
    assert Owed(s', t) == Owed(s, t);
    forall j | j in s'.th ensures PartyOk(s', t, j) { assert PartyOk(s, t, j); }
  }

  lemma MarkKilllRegime(s: State, i: Tid, s': State, t: Id)
    requires Regime(s, t) && StepMarkKilll(s, i) == Some(s') && Subject(s, MarkKilll(i)) == Some(t)
    ensures Regime(s', t)
  {
    assert s.th[i].t == t && PartyOk(s, t, i);
    assert Owed(s', t) == Owed(s, t);
    forall j | j in s'.th ensures PartyOk(s', t, j) { assert PartyOk(s, t, j); }
  }

  lemma PushMsRegime(s: State, i: Tid, s': State, t: Id)
    requires Regime(s, t) && StepPushMs(s, i) == Some(s') && Subject(s, DoPushMs(i)) == Some(t)
    ensures Regime(s', t)
  {
    assert s.th[i].t == t && PartyOk(s, t, i);
    assert Owed(s', t) == Owed(s, t);
    forall j | j in s'.th ensures PartyOk(s', t, j) { assert PartyOk(s, t, j); }
  }

  lemma CheckGoes(s: State, i: Tid, s': State, t: Id, k: Ticket)
    requires StepCheck(s, i) == Some(s') && HoldsTicket(s, i, t) && Regime(s, t) && HolderOk(s, t, WaitEnter)
    requires k == if CheckWait(s.m, t) == SessionDead then s.m.tk[t].(answered := true) else s.m.tk[t]
    ensures s' == s.SetK(t, k).Go(i, s'.th[i]) && s'.th[i].Holding? && s'.th[i].t == t
      && HolderOk(s', t, s'.th[i].stage)
  {
    assert Owed(s', t) == Owed(s, t);
  }

  lemma CheckRegime(s: State, i: Tid, s': State, t: Id)
    requires Regime(s, t) && StepCheck(s, i) == Some(s') && Subject(s, Check(i)) == Some(t)
    ensures Regime(s', t)
  {
    OneHolder(s, i, t);
    var k := if CheckWait(s.m, t) == SessionDead then s.m.tk[t].(answered := true) else s.m.tk[t];
    CheckGoes(s, i, s', t, k);
    HolderMoves(s, i, s'.th[i].stage, k, t);
  }

  lemma SleepRegime(s: State, i: Tid, s': State, t: Id)
    requires Regime(s, t) && StepSleep(s, i) == Some(s') && Subject(s, Sleep(i)) == Some(t)
    ensures Regime(s', t)
  {
    assert s.th[i].t == t && PartyOk(s, t, i);
    assert Owed(s', t) == Owed(s, t);
    forall j | j in s'.th ensures PartyOk(s', t, j) { assert PartyOk(s, t, j); }
  }

  lemma SignalRegime(s: State, i: Tid, err: int, s': State, t: Id)
    requires Regime(s, t) && StepSignal(s, i, err) == Some(s') && Subject(s, Signal(i, err)) == Some(t)
    ensures Regime(s', t)
  {
    assert s.th[i].t == t && PartyOk(s, t, i);
    assert Owed(s', t) == Owed(s, t);
    forall j | j in s'.th ensures PartyOk(s', t, j) { assert PartyOk(s, t, j); }
  }

  lemma ResumeRegime(s: State, i: Tid, s': State, t: Id)
    requires Regime(s, t) && StepResume(s, i) == Some(s') && Subject(s, Resume(i)) == Some(t)
    ensures Regime(s', t)
  {
    assert s.th[i].t == t && PartyOk(s, t, i);
    assert Owed(s', t) == Owed(s, t);
    forall j | j in s'.th ensures PartyOk(s', t, j) { assert PartyOk(s, t, j); }
  }

  lemma GiveUpRegime(s: State, i: Tid, s': State, t: Id)
    requires Regime(s, t) && StepReact(s, i) == Some(s') && HoldsTicket(s, i, t)
    requires s.th[i].stage.err != 0 && !s.m.tk[t].answered
    ensures Regime(s', t)
  {
    OneHolder(s, i, t);
    assert Owed(s', t) == Owed(s, t);
    forall j | j in s'.th ensures PartyOk(s', t, j) { assert PartyOk(s, t, j) && (j != i ==> !HoldsTicket(s, j, t)); }
  }

  lemma TakeAnswerRegime(s: State, i: Tid, s': State, t: Id)
    requires Regime(s, t) && StepReact(s, i) == Some(s') && HoldsTicket(s, i, t)
    requires s.th[i].stage.err == 0 && !HoldsAtDrop(s', i, t)
    ensures Regime(s', t)
  {
    OneHolder(s, i, t);
    assert s' == s.SetK(t, s.m.tk[t]).Go(i, Holding(t, HaveAnswer));
    assert Owed(s', t) == Owed(s, t);
    HolderMoves(s, i, HaveAnswer, s.m.tk[t], t);
  }

  lemma ReactRegime(s: State, i: Tid, s': State, t: Id)
    requires Regime(s, t) && StepReact(s, i) == Some(s') && Subject(s, React(i)) == Some(t)
    ensures Regime(s', t)
  {
    OneHolder(s, i, t);
    if HoldsAtDrop(s', i, t) {
      ReleaseRegime(s, i, t);
    } else if s.th[i].stage.err != 0 {
      GiveUpRegime(s, i, s', t);
    } else {
      TakeAnswerRegime(s, i, s', t);
    }
  }

  lemma ClearRegime(s: State, i: Tid, s': State, t: Id)
    requires Regime(s, t) && StepClear(s, i) == Some(s') && Subject(s, Clear(i)) == Some(t)
    requires AgeWindow(s, Clear(i))
    ensures Regime(s', t)
  {
    assert s.th[i].t == t && PartyOk(s, t, i);
    if s.m.tk[t].age == s.th[i].age { AgesTellApart(s.th[i].gen, s.tr[t].gen); }
    assert Owed(s', t) == Owed(s, t);
    forall j | j in s'.th ensures PartyOk(s', t, j) { assert PartyOk(s, t, j); }
  }

  lemma CallerDropRegime(s: State, i: Tid, s': State, t: Id)
    requires Regime(s, t) && StepCallerDrop(s, i) == Some(s') && Subject(s, CallerDrop(i)) == Some(t)
    ensures Regime(s', t)
  {
    OneHolder(s, i, t);
    ReleaseRegime(s, i, t);
  }

  lemma CallerAbandonRegime(s: State, i: Tid, s': State, t: Id)
    requires Regime(s, t) && StepCallerAbandon(s, i) == Some(s') && Subject(s, CallerAbandon(i)) == Some(t)
    ensures Regime(s', t)
  {
    assert s.th[i].t == t && PartyOk(s, t, i);
    assert Owed(s', t) == Owed(s, t);
    forall j | j in s'.th ensures PartyOk(s', t, j) { assert PartyOk(s, t, j); }
  }

  lemma DestroyRegime(s: State, i: Tid, s': State, t: Id)
    requires Regime(s, t) && StepDecide(s, i) == Some(s') && HoldsTicket(s, i, t) && MustDie(s.m, t)
    ensures Regime(s', t)
  {
    OneHolder(s, i, t);
    assert Owed(s', t) == Owed(s, t);
    forall j | j in s'.th ensures PartyOk(s', t, j) { assert PartyOk(s, t, j) && (j != i ==> !HoldsTicket(s, j, t)); }
  }

  lemma DecideRegime(s: State, i: Tid, s': State, t: Id)
    requires Regime(s, t) && StepDecide(s, i) == Some(s') && Subject(s, Decide(i)) == Some(t)
    ensures Regime(s', t)
  {
    OneHolder(s, i, t);
    if MustDie(s.m, t) {
      DestroyRegime(s, i, s', t);
    } else {
      assert s' == s.SetK(t, s'.m.tk[t]).Go(i, s'.th[i]);
      assert Owed(s', t) == Owed(s, t);
      HolderMoves(s, i, s'.th[i].stage, s'.m.tk[t], t);
    }
  }

  lemma DeadRegime(s: State, s': State, t: Id)
    requires Regime(s, t) && (s' == s.(m := SetDead(s.m)) || s' == s)
    ensures Regime(s', t)
  {
    assert Owed(s', t) == Owed(s, t);
    forall j | j in s'.th ensures PartyOk(s', t, j) { assert PartyOk(s, t, j); }
  }

  lemma LostRegime(s: State, i: Tid, t: Id)
    requires Regime(s, t) && s.At(i, Reading(t)) && !s.m.tk[t].inval
    ensures Regime(s.SetR(t, s.tr[t].(msg := Lost)).Go(i, Idle), t)
  {
    var s' := s.SetR(t, s.tr[t].(msg := Lost)).Go(i, Idle);
    assert PartyOk(s, t, i);
    assert Owed(s', t) == Owed(s, t);
    forall j | j in s'.th ensures PartyOk(s', t, j) { assert PartyOk(s, t, j); }
  }

  lemma ReadFinishRegime(s: State, i: Tid, tooSmall: bool, delivered: bool, s': State, t: Id)
    requires Regime(s, t) && StepReadFinish(s, i, tooSmall, delivered) == Some(s')
      && Subject(s, ReadFinish(i, tooSmall, delivered)) == Some(t) && s'.m.dead
    ensures Regime(s', t)
  {
    assert s.th[i].t == t && PartyOk(s, t, i);
    if s.m.tk[t].inval {
      NoHolder(s, t);
      ReleaseRegime(s, i, t);
      DeadRegime(s.Release(i, t), s', t);
    } else {
      LostRegime(s, i, t);
      DeadRegime(s.SetR(t, s.tr[t].(msg := Lost)).Go(i, Idle), s', t);
    }
  }

  lemma DispatchRegime(s: State, i: Tid, status: int, err: int, kill: bool, s': State, t: Id)
    requires Regime(s, t) && StepDispatch(s, i, status, err, kill) == Some(s')
      && Subject(s, Dispatch(i, status, err, kill)) == Some(t)
    ensures Regime(s', t)
  {
    assert s.th[i].t == t && PartyOk(s, t, i);
    if s.m.tk[t].handler == NoHandler {
      NoHolder(s, t);
      ReleaseRegime(s, i, t);
    } else {
      assert Owed(s', t) == Owed(s, t);
      forall j | j in s'.th ensures PartyOk(s', t, j) { assert PartyOk(s, t, j); }
    }
  }

  /** The outcome is recorded by somebody who has taken the ticket off the answer queue. */
  lemma AnsweredRegime(s: State, i: Tid, pc: Pc, err: int, t: Id)
    requires Regime(s, t) && i in s.th && Mentions(s.th[i], t) && !s.Holds(i) && Nowhere(pc)
    requires !(Owed(s, t) && multiset(s.m.aw)[t] > 0) && (s.tr[t].ans.InFlight? ==> s.tr[t].ans == InFlight(i))
    ensures var s1 := s.SetK(t, s.m.tk[t].Answer(err)).SetR(t, s.tr[t].(ans := Off)).Go(i, pc);
      Regime(s1.(th := WakeAsleep(s1.th, t)), t)
  {
    var s1 := s.SetK(t, s.m.tk[t].Answer(err)).SetR(t, s.tr[t].(ans := Off)).Go(i, pc);
    var s' := s1.(th := WakeAsleep(s1.th, t));
    assert Owed(s', t) == Owed(s, t);
    forall j | j in s'.th ensures PartyOk(s', t, j) { assert PartyOk(s, t, j); }
  }

  lemma AnswerRegime(s: State, i: Tid, s': State, t: Id)
    requires Regime(s, t) && StepAnswer(s, i) == Some(s') && Subject(s, Answer(i)) == Some(t)
    ensures Regime(s', t)
  {
    assert s.th[i].t == t && PartyOk(s, t, i);
    if s.m.tk[t].answered {
      NoHolder(s, t);
      ReleaseRegime(s, i, t);
    } else {
      AnsweredRegime(s, i, Idle, s.th[i].err, t);
    }
  }

  lemma FlushMarkRegime(s: State, i: Tid, s': State, t: Id)
    requires Regime(s, t) && StepFlushMark(s, i) == Some(s') && Subject(s, FlushMark(i)) == Some(t)
    ensures Regime(s', t)
  {
    assert s.th[i].t == t && PartyOk(s, t, i);
    AnsweredRegime(s, i, Flushing, ENOTCONN, t);
  }

  lemma TakeReplyRegime(s: State, i: Tid, use: Use, s': State, t: Id)
    requires Regime(s, t) && StepTakeReply(s, i, use) == Some(s') && use.id == t
    ensures Regime(s', t)
  {
    WithoutCounts(s.m.aw, t);
    assert t in s.m.aw <==> t in multiset(s.m.aw);
    assert Owed(s, t);
    if u :| u in s'.daemon && u.id == t { assert u in s.daemon; }
    forall j | j in s'.th ensures PartyOk(s', t, j) { assert PartyOk(s, t, j); }
  }

  /** A reader that has slept takes a message of the dead session. */
  lemma ReadPopRegime(s: State, i: Tid, s': State, t: Id)
    requires Regime(s, t) && StepReadPop(s, i) == Some(s') && Subject(s, ReadPop(i)) == Some(t)
    ensures Regime(s', t)
  {
    HeadCounts(s.m.ms);
    assert Owed(s', t) == Owed(s, t);
    forall j | j in s'.th ensures PartyOk(s', t, j) { assert PartyOk(s, t, j); }
  }

  lemma FlushPopRegime(s: State, i: Tid, s': State, t: Id)
    requires Regime(s, t) && StepFlushPop(s, i) == Some(s') && Subject(s, FlushPop(i)) == Some(t)
    ensures Regime(s', t)
  {
    HeadCounts(s.m.aw);
    assert Owed(s', t) == Owed(s, t);
    forall j | j in s'.th ensures PartyOk(s', t, j) { assert PartyOk(s, t, j); }
  }

  // ---- All steps ---------------------------------------------------------------------------

  /** The step begins another use of t. */
  predicate NextUseBegins(a: Action) { a.CallerReuse? || a.Recycle? }

  lemma FetchingRegime(s: State, a: Action, s': State, t: Id)
    requires IsFetching(a) && StepFetching(s, a) == Some(s') && Regime(s, t) && Subject(s, a) == Some(t)
    requires NoDup(s.m.free)
    ensures Regime(s', t)
  {
    match a
    case Fetch(i) => FetchRegime(s, i, s', t);
    case Allocate(_) =>
    case List(i) => ListRegime(s, i, s', t);
    case InitSignal(i) => InitSignalRegime(s, i, s', t);
    case FailDead(i) => FailDeadRegime(s, i, s', t);
    case _ =>
  }

  lemma SendingRegime(s: State, a: Action, s': State, t: Id)
    requires IsSending(a) && StepSending(s, a) == Some(s') && Regime(s, t) && Subject(s, a) == Some(t)
    ensures Regime(s', t)
  {
    match a
    case MarkKilll(i) => MarkKilllRegime(s, i, s', t);
    case Post(i, mode) => PostRegime(s, i, mode, s', t);
    case DoPushAw(i) => PushAwRegime(s, i, s', t);
    case Message(i) => MessageRegime(s, i, s', t);
    case DoPushMs(i) => PushMsRegime(s, i, s', t);
    case Check(i) => CheckRegime(s, i, s', t);
    case Sleep(i) => SleepRegime(s, i, s', t);
    case Signal(i, err) => SignalRegime(s, i, err, s', t);
    case Resume(i) => ResumeRegime(s, i, s', t);
  }

  lemma SettlingRegime(s: State, a: Action, s': State, t: Id)
    requires IsSettling(a) && StepSettling(s, a) == Some(s') && Regime(s, t) && Subject(s, a) == Some(t)
    requires AgeWindow(s, a) && !NextUseBegins(a)
    ensures Regime(s', t)
  {
    match a
    case React(i) => ReactRegime(s, i, s', t);
    case Clear(i) => ClearRegime(s, i, s', t);
    case CallerDrop(i) => CallerDropRegime(s, i, s', t);
    case CallerAbandon(i) => CallerAbandonRegime(s, i, s', t);
    case Decide(i) => DecideRegime(s, i, s', t);
  }

  lemma ReadingRegime(s: State, a: Action, s': State, t: Id)
    requires a.ReadSleep? || a.ReadWake? || a.ReadPop? || a.ReadFinish?
    requires StepServing(s, a) == Some(s') && Regime(s, t) && Subject(s, a) == Some(t) && (s.m.dead || s'.m.dead)
    ensures Regime(s', t)
  {
    match a
    case ReadSleep(_) =>
    case ReadWake(_) =>
    case ReadPop(i) => ReadPopRegime(s, i, s', t);
    case ReadFinish(i, tooSmall, delivered) => ReadFinishRegime(s, i, tooSmall, delivered, s', t);
  }

  lemma WritingRegime(s: State, a: Action, s': State, t: Id)
    requires a.TakeReply? || a.Dispatch? || a.Answer?
    requires StepServing(s, a) == Some(s') && Regime(s, t) && Subject(s, a) == Some(t)
    ensures Regime(s', t)
  {
    match a
    case TakeReply(i, use) => TakeReplyRegime(s, i, use, s', t);
    case Dispatch(i, status, err, kill) => DispatchRegime(s, i, status, err, kill, s', t);
    case Answer(i) => AnswerRegime(s, i, s', t);
  }

  lemma ServingRegime(s: State, a: Action, s': State, t: Id)
    requires IsServing(a) && StepServing(s, a) == Some(s') && Regime(s, t) && Subject(s, a) == Some(t)
    requires s.m.dead || s'.m.dead
    ensures Regime(s', t)
  {
    if a.ReadSleep? || a.ReadWake? || a.ReadPop? || a.ReadFinish? { ReadingRegime(s, a, s', t); }
    else { WritingRegime(s, a, s', t); }
  }

  lemma FlushingRegime(s: State, a: Action, s': State, t: Id)
    requires IsFlushing(a) && StepFlushing(s, a) == Some(s') && Regime(s, t) && Subject(s, a) == Some(t)
    ensures Regime(s', t)
  {
    match a
    case FlushPop(i) => FlushPopRegime(s, i, s', t);
    case FlushMark(i) => FlushMarkRegime(s, i, s', t);
    case _ =>
  }

  lemma SubjectRegime(s: State, a: Action, s': State, t: Id)
    requires Step(s, a) == Some(s') && Regime(s, t) && Subject(s, a) == Some(t) && NoDup(s.m.free)
    requires AgeWindow(s, a) && !NextUseBegins(a) && (s.m.dead || s'.m.dead)
    ensures Regime(s', t)
  {
    if IsFetching(a) { FetchingRegime(s, a, s', t); }
    else if IsSending(a) { SendingRegime(s, a, s', t); }
    else if IsSettling(a) { SettlingRegime(s, a, s', t); }
    else if IsServing(a) { ServingRegime(s, a, s', t); }
    else { FlushingRegime(s, a, s', t); }
  }

  /** A use that is over is over; the tally of a use that ends is what it was, with no release added. */
  ghost predicate Remembers(r: Track, r': Track, next: bool) {
    && |r'.past| - r'.gen == |r.past| - r.gen && r.past <= r'.past
    && r'.gen == r.gen + One(next) && (next ==> r'.past[|r.past|..] != [] && r'.past[|r.past|].drops == r.now.drops)
  }

  lemma FetchingRemembers(s: State, a: Action, s': State, t: Id)
    requires IsFetching(a) && StepFetching(s, a) == Some(s') && s.Knows(t) && Subject(s, a) == Some(t) && !a.Allocate?
    ensures t in s'.tr && Remembers(s.tr[t], s'.tr[t], NextUseBegins(a))
  {
  }

  lemma PostingRemembers(s: State, a: Action, s': State, t: Id)
    requires IsPosting(a) && StepSending(s, a) == Some(s') && s.Knows(t) && Subject(s, a) == Some(t)
    ensures t in s'.tr && Remembers(s.tr[t], s'.tr[t], false)
  {
  }

  lemma SendingRemembers(s: State, a: Action, s': State, t: Id)
    requires IsSending(a) && StepSending(s, a) == Some(s') && s.Knows(t) && Subject(s, a) == Some(t)
    ensures t in s'.tr && Remembers(s.tr[t], s'.tr[t], NextUseBegins(a))
  {
    if IsPosting(a) { PostingRemembers(s, a, s', t); }
  }

  lemma ReactRemembers(s: State, i: Tid, s': State, t: Id)
    requires StepReact(s, i) == Some(s') && s.Knows(t) && s.th[i].t == t
    ensures t in s'.tr && Remembers(s.tr[t], s'.tr[t], false)
  {
  }

  lemma DecideRemembers(s: State, i: Tid, s': State, t: Id)
    requires StepDecide(s, i) == Some(s') && s.Knows(t) && s.th[i].t == t
    ensures t in s'.tr && Remembers(s.tr[t], s'.tr[t], false)
  {
  }

  lemma SettlingRemembers(s: State, a: Action, s': State, t: Id)
    requires IsSettling(a) && StepSettling(s, a) == Some(s') && s.Knows(t) && Subject(s, a) == Some(t)
    ensures t in s'.tr && Remembers(s.tr[t], s'.tr[t], NextUseBegins(a))
  {
    match a
    case React(i) => ReactRemembers(s, i, s', t);
    case Decide(i) => DecideRemembers(s, i, s', t);
    case _ =>
  }

  lemma ReadFinishRemembers(s: State, i: Tid, tooSmall: bool, delivered: bool, s': State, t: Id)
    requires StepReadFinish(s, i, tooSmall, delivered) == Some(s') && s.Knows(t) && s.th[i].t == t
    ensures t in s'.tr && Remembers(s.tr[t], s'.tr[t], false)
  {
  }

  lemma AnswerRemembers(s: State, i: Tid, s': State, t: Id)
    requires StepAnswer(s, i) == Some(s') && s.Knows(t) && s.th[i].t == t
    ensures t in s'.tr && Remembers(s.tr[t], s'.tr[t], false)
  {
  }

  lemma DispatchRemembers(s: State, i: Tid, status: int, err: int, kill: bool, s': State, t: Id)
    requires StepDispatch(s, i, status, err, kill) == Some(s') && s.Knows(t) && s.th[i].t == t
    ensures t in s'.tr && Remembers(s.tr[t], s'.tr[t], false)
  {
  }

  lemma TakeReplyRemembers(s: State, i: Tid, use: Use, s': State, t: Id)
    requires StepTakeReply(s, i, use) == Some(s') && s.Knows(t) && use.id == t
    ensures t in s'.tr && Remembers(s.tr[t], s'.tr[t], false)
  {
  }

  lemma ReadingRemembers(s: State, a: Action, s': State, t: Id)
    requires (a.ReadPop? || a.ReadFinish?) && StepServing(s, a) == Some(s') && s.Knows(t) && Subject(s, a) == Some(t)
    ensures t in s'.tr && Remembers(s.tr[t], s'.tr[t], false)
  {
    if a.ReadFinish? { ReadFinishRemembers(s, a.i, a.tooSmall, a.delivered, s', t); }
  }

  lemma WritingRemembers(s: State, a: Action, s': State, t: Id)
    requires a.TakeReply? || a.Dispatch? || a.Answer?
    requires StepServing(s, a) == Some(s') && s.Knows(t) && Subject(s, a) == Some(t)
    ensures t in s'.tr && Remembers(s.tr[t], s'.tr[t], false)
  {
    match a
    case TakeReply(i, use) => TakeReplyRemembers(s, i, use, s', t);
    case Dispatch(i, status, err, kill) => DispatchRemembers(s, i, status, err, kill, s', t);
    case Answer(i) => AnswerRemembers(s, i, s', t);
  }

  lemma ServingRemembers(s: State, a: Action, s': State, t: Id)
    requires IsServing(a) && StepServing(s, a) == Some(s') && s.Knows(t) && Subject(s, a) == Some(t)
    ensures t in s'.tr && Remembers(s.tr[t], s'.tr[t], NextUseBegins(a))
  {
    if a.ReadPop? || a.ReadFinish? { ReadingRemembers(s, a, s', t); } else { WritingRemembers(s, a, s', t); }
  }

  lemma FlushingRemembers(s: State, a: Action, s': State, t: Id)
    requires IsFlushing(a) && StepFlushing(s, a) == Some(s') && s.Knows(t) && Subject(s, a) == Some(t)
    ensures t in s'.tr && Remembers(s.tr[t], s'.tr[t], NextUseBegins(a))
  {
  }

  lemma SubjectRemembers(s: State, a: Action, s': State, t: Id)
    requires Step(s, a) == Some(s') && s.Knows(t) && t < s.m.ticketer && Subject(s, a) == Some(t)
    ensures t in s'.tr && Remembers(s.tr[t], s'.tr[t], NextUseBegins(a))
  {
    if IsFetching(a) { FetchingRemembers(s, a, s', t); }
    else if IsSending(a) { SendingRemembers(s, a, s', t); }
    else if IsSettling(a) { SettlingRemembers(s, a, s', t); }
    else if IsServing(a) { ServingRemembers(s, a, s', t); }
    else { FlushingRemembers(s, a, s', t); }
  }

  lemma FreeStaysOnce(s: State, a: Action, s': State)
    requires NoDup(s.m.free) && FreeMove(s, a, s')
    ensures NoDup(s'.m.free)
  {
    if a.Recycle? { UpToNoDup(s.m.free, s.th[a.i].t); }
  }

  lemma StepKeepsAtMostOnce(s: State, a: Action, s': State, t: Id, g: nat)
    requires AtMostOnce(s, t, g) && Step(s, a) == Some(s') && AgeWindow(s, a) && (s.m.dead || s'.m.dead)
    ensures AtMostOnce(s', t, g)
  {
    StepGrows(s, a, s');
    StepFrees(s, a, s');
    FreeStaysOnce(s, a, s');
    if Subject(s, a) == Some(t) {
      SubjectRemembers(s, a, s', t);
      if g == s.tr[t].gen && !NextUseBegins(a) { SubjectRegime(s, a, s', t); }
    } else {
      StepAway(s, a, s', t);
      if g == s.tr[t].gen { AwayKeepsRegime(s, s', t); }
    }
  }

  lemma {:induction false} DeadRunReleasesOnce(d: State, run: seq<Action>, e: State, t: Id, g: nat)
    requires d.m.dead && AtMostOnce(d, t, g) && Run(d, run) == Some(e)
    ensures e.m.dead && AtMostOnce(e, t, g)
  {
    if run != [] {
      var mid := Run(d, run[..|run| - 1]).value;
      DeadRunReleasesOnce(d, run[..|run| - 1], mid, t, g);
      StepIsSteady(mid, run[|run| - 1], e, t);
      StepKeepsAtMostOnce(mid, run[|run| - 1], e, t, g);
    }
  }

  // ---- From a live session -------------------------------------------------------------------

  /** The requester is about to wait for an answer that has not been recorded, and the reply
    * is with a writer or still owed by the daemon.
    */
  ghost predicate TwiceInSight(s: State, t: Id) {
    && s.Knows(t) && !s.m.tk[t].answered && (s.tr[t].ans.InFlight? || s.Cur(t) in s.daemon)
    && exists i :: s.At(i, Holding(t, WaitEnter))
  }

  lemma OwedIsCurrent(s: State, t: Id)
    requires Good(s) && s.Knows(t)
    ensures Owed(s, t) <==> s.Cur(t) in s.daemon
  {
    if u :| u in s.daemon && u.id == t { assert TokenOk(s, u); }
  }

  lemma LiveRecordOk(s: State, t: Id)
    requires Good(s) && s.Knows(t)
    ensures RecordOk(s, t)
  {
    OwedIsCurrent(s, t);
    OnceInQueue(s.m.aw, t);
    OnceInQueue(s.m.ms, t);
    assert TicketOk(s, t);
    CurrentUse(s, t);
    assert s.tr[t].owner.Some? ==> ThreadOk(s, s.tr[t].owner.value);
  }

  lemma LivePartyOk(s: State, t: Id, j: Tid)
    requires Good(s) && s.Knows(t) && j in s.th && !TwiceInSight(s, t)
    ensures PartyOk(s, t, j)
  {
    OwedIsCurrent(s, t);
    OnceInQueue(s.m.aw, t);
    assert s.th[j] == Holding(t, WaitEnter) ==> s.At(j, Holding(t, WaitEnter));
    assert ThreadOk(s, j) && TicketOk(s, t);
    assert s.tr[t].owner.Some? ==> ThreadOk(s, s.tr[t].owner.value);
  }

  lemma LiveRegime(s: State, t: Id)
    requires Good(s) && s.Knows(t) && !TwiceInSight(s, t)
    ensures AtMostOnce(s, t, s.tr[t].gen)
  {
    LiveRecordOk(s, t);
    assert TicketOk(s, t);
    forall j | j in s.th ensures PartyOk(s, t, j) { LivePartyOk(s, t, j); }
  }

  // ---- The two releases ------------------------------------------------------------------------

  /** Ticket t stands like this: so many releases of use g, an outcome recorded or not, tk_aw_mtx free. */
  ghost predicate Stands(s: State, t: Id, g: nat, drops: nat, answered: bool) {
    && s.m.dead && s.awOwner == None && s.Knows(t) && s.tr[t].gen == g && |s.tr[t].past| == g
    && s.tr[t].now.drops == drops && s.tr[t].life == InUse
    && s.m.tk[t].answered == answered && s.m.tk[t].handler == StandardHandler && s.AwMtxFree(t)
  }

  /** No destroyed ticket is on the answer queue. */
  ghost predicate AwAlive(s: State) {
    forall u {:trigger u in s.m.aw} :: u in s.m.aw ==> !Freed(s, u)
  }

  lemma AwStaysAlive(s: State, s': State, t: Id)
    requires AwAlive(s) && t in s.tr && t in s'.tr && s'.tr == s.tr[t := s'.tr[t]] && s'.tr[t].life == s.tr[t].life
    requires forall u {:trigger u in s'.m.aw} :: u in s'.m.aw ==> u in s.m.aw
    ensures AwAlive(s')
  {
  }

  /** Steps of thread i that use the memory of its own ticket only. */
  lemma OwnStep(s: State, a: Action, s': State, t: Id)
    requires a.Check? || a.React? || a.Dispatch? || a.Answer?
    requires Step(s, a) == Some(s') && a.i in s.th && Mentions(s.th[a.i], t) && !Freed(s, t)
    ensures Run(s, [a]) == Some(s')
  {
    OneStep(s, a, s');
  }

  ghost predicate OnlyMoves(s: State, s': State, i: Tid) {
    s'.th.Keys == s.th.Keys && forall j {:trigger s'.th[j]} :: j in s.th && j != i ==> s'.th[j] == s.th[j]
  }

  /** The requester is told ENOTCONN ... */
  lemma RequesterIsTold(s: State, i: Tid, t: Id, g: nat)
    requires Stands(s, t, g, 0, false) && s.At(i, Holding(t, WaitEnter))
    ensures StepCheck(s, i).Some?
    ensures var s' := StepCheck(s, i).value;
      s'.At(i, Holding(t, Waited(ENOTCONN))) && Stands(s', t, g, 0, true) && s'.m.aw == s.m.aw && s'.tr == s.tr
        && s'.daemon == s.daemon && OnlyMoves(s, s', i)
  {
    var s' := s.SetK(t, s.m.tk[t].(answered := true)).Go(i, Holding(t, Waited(ENOTCONN)));
    assert StepCheck(s, i) == Some(s');
  }

  /** ... and drops its ticket. */
  lemma RequesterDrops(s: State, i: Tid, t: Id, g: nat)
    requires Stands(s, t, g, 0, true) && s.At(i, Holding(t, Waited(ENOTCONN)))
    ensures StepReact(s, i) == Some(s.Release(i, t)) && Stands(s.Release(i, t), t, g, 1, true)
    ensures OnlyMoves(s, s.Release(i, t), i)
  {
  }

  lemma RequesterGivesUp(s: State, i: Tid, t: Id, g: nat)
    requires Stands(s, t, g, 0, false) && s.At(i, Holding(t, WaitEnter)) && AwAlive(s)
    ensures var r := Run(s, [Check(i), React(i)]);
      r.Some? && Stands(r.value, t, g, 1, true) && r.value.m.aw == s.m.aw && r.value.daemon == s.daemon
        && OnlyMoves(s, r.value, i) && AwAlive(r.value)
  {
    RequesterIsTold(s, i, t, g);
    var s1 := StepCheck(s, i).value;
    RequesterDrops(s1, i, t, g);
    var s2 := s1.Release(i, t);
    OwnStep(s, Check(i), s1, t);
    OwnStep(s1, React(i), s2, t);
    RunsJoin(s, [Check(i)], s1, [React(i)]);
    AwStaysAlive(s, s2, t);
  }

  /** The daemon's reply finds the ticket still on the answer queue. */
  lemma ReplyIsTaken(s: State, w: Tid, t: Id, g: nat)
    requires Stands(s, t, g, 1, true) && s.At(w, Idle) && Use(t, g) in s.daemon && t in s.m.aw && AwAlive(s)
    ensures var r := Run(s, [TakeReply(w, Use(t, g))]);
      r.Some? && Stands(r.value, t, g, 1, true) && r.value.At(w, Writing(t))
  {
    var s' := StepTakeReply(s, w, Use(t, g)).value;
    ReplyGoesThrough(s, w, Use(t, g));
    OneStep(s, TakeReply(w, Use(t, g)), s');
  }

  lemma WriterCallsHandler(s: State, w: Tid, t: Id, g: nat)
    requires Stands(s, t, g, 1, true) && s.At(w, Writing(t))
    ensures var r := Run(s, [Dispatch(w, 0, 0, false)]);
      r.Some? && Stands(r.value, t, g, 1, true) && r.value.At(w, Pulled(t, 0))
  {
    var s' := StepDispatch(s, w, 0, 0, false).value;
    OwnStep(s, Dispatch(w, 0, 0, false), s', t);
  }

  /** The standard handler finds the ticket answered and drops it as well. */
  lemma HandlerAlsoDrops(s: State, w: Tid, t: Id)
    requires w in s.th && s.th[w].Pulled? && s.th[w].t == t && s.Knows(t) && s.m.tk[t].answered && s.AwMtxFree(t)
    ensures Step(s, Answer(w)) == Some(s.Release(w, t))
  {
    assert StepAnswer(s, w).Some?;
  }

  lemma HandlerDropsToo(s: State, w: Tid, t: Id, g: nat)
    requires Stands(s, t, g, 1, true) && w in s.th && s.th[w].Pulled? && s.th[w].t == t
    ensures var r := Run(s, [Answer(w)]); r.Some? && Stands(r.value, t, g, 2, true)
  {
    HandlerAlsoDrops(s, w, t);
    OwnStep(s, Answer(w), s.Release(w, t), t);
  }

  predicate ReleasedTwice(s: State, t: Id, g: nat) {
    t in s.tr && g <= |s.tr[t].past| && TallyOf(s, t, g).drops >= 2
  }

  /** Some run leads from d to two releases of use g of t. */
  ghost predicate TwiceReachable(d: State, t: Id, g: nat) {
    exists run: seq<Action> {:trigger Run(d, run)} :: Run(d, run).Some? && ReleasedTwice(Run(d, run).value, t, g)
  }

  lemma HandlerReleasesToo(d: State, start: seq<Action>, s: State, w: Tid, t: Id, g: nat)
    requires Run(d, start) == Some(s) && Stands(s, t, g, 1, true)
    requires w in s.th && s.th[w].Pulled? && s.th[w].t == t
    ensures TwiceReachable(d, t, g)
  {
    HandlerDropsToo(s, w, t, g);
    RunsJoin(d, start, s, [Answer(w)]);
    assert ReleasedTwice(Run(d, start + [Answer(w)]).value, t, g);
  }

  lemma WriterReleasesToo(d: State, start: seq<Action>, s: State, w: Tid, t: Id, g: nat)
    requires Run(d, start) == Some(s) && Stands(s, t, g, 1, true) && s.At(w, Writing(t))
    ensures TwiceReachable(d, t, g)
  {
    WriterCallsHandler(s, w, t, g);
    var more := [Dispatch(w, 0, 0, false)];
    RunsJoin(d, start, s, more);
    HandlerReleasesToo(d, start + more, Run(s, more).value, w, t, g);
  }

  lemma ReplyReleasesToo(d: State, start: seq<Action>, s: State, w: Tid, t: Id, g: nat)
    requires Run(d, start) == Some(s) && Stands(s, t, g, 1, true) && AwAlive(s)
    requires s.At(w, Idle) && Use(t, g) in s.daemon && t in s.m.aw
    ensures TwiceReachable(d, t, g)
  {
    ReplyIsTaken(s, w, t, g);
    var more := [TakeReply(w, Use(t, g))];
    RunsJoin(d, start, s, more);
    WriterReleasesToo(d, start + more, Run(s, more).value, w, t, g);
  }

  // ---- Exactly when ----------------------------------------------------------------------------

  /** What the step that kills the session is, and what it leaves alone. */
  lemma KillingStep(s: State, a: Action, d: State)
    requires Step(s, a) == Some(d) && !s.m.dead && d.m.dead
    ensures a.SetSessionDead? || (a.FailDead? && s.Holds(a.i) && s.th[a.i].stage.Failing?)
      || (a.ReadFinish? && a.i in s.th && s.th[a.i].Reading?)
    ensures d.awOwner == s.awOwner && d.m == SetDead(s.m) && d.daemon == s.daemon
  {
    StepAges(s, a, d);
    match a
    case SetSessionDead =>
    case FailDead(i) => assert StepFailDead(s, i) == Some(d);
    case ReadFinish(i, tooSmall, delivered) => assert StepReadFinish(s, i, tooSmall, delivered) == Some(d);
  }

  lemma NotTheReaders(s: State, a: Action, d: State, t: Id, i: Tid)
    requires Good(s) && Step(s, a) == Some(d) && !s.m.dead && d.m.dead
    requires TwiceInSight(s, t) && s.At(i, Holding(t, WaitEnter))
    ensures Subject(s, a) != Some(t)
  {
    KillingStep(s, a, d);
    assert ThreadOk(s, i) && TicketOk(s, t);
    if Actor(a).Some? { assert ThreadOk(s, a.i); }
  }

  lemma KilledAwIsAlive(s: State, a: Action, d: State)
    requires Good(s) && Step(s, a) == Some(d) && !s.m.dead && d.m.dead
    ensures AwAlive(d)
  {
    QueuedIsAlive(s);
    KillingStep(s, a, d);
    forall u | u in d.m.aw ensures !Freed(d, u) {
      assert !Freed(s, u);
      if Subject(s, a) == Some(u) && s.Knows(u) { SubjectLife(s, a, d, u); } else { StepAway(s, a, d, u); }
    }
  }

  lemma InSightStands(s: State, a: Action, d: State, t: Id, i: Tid)
    requires Good(s) && Step(s, a) == Some(d) && !s.m.dead && d.m.dead
    requires TwiceInSight(s, t) && s.At(i, Holding(t, WaitEnter))
    ensures Away(s, d, t) && Stands(d, t, s.tr[t].gen, 0, false) && d.At(i, Holding(t, WaitEnter))
      && d.m.aw == s.m.aw && d.daemon == s.daemon && AwAlive(d)
  {
    KilledAwIsAlive(s, a, d);
    NotTheReaders(s, a, d, t, i);
    StepAway(s, a, d, t);
    KillingStep(s, a, d);
    assert ThreadOk(s, i) && TicketOk(s, t);
    assert d.th[i] == Holding(t, WaitEnter);
    forall j | j in d.th ensures d.th[j] != Holding(t, WaitLocked) { assert ThreadOk(s, j); }
  }

  lemma InFlightLeadsToTwo(s: State, d: State, t: Id, i: Tid)
    requires Good(s) && s.Knows(t) && s.tr[t].ans.InFlight?
    requires Away(s, d, t) && Stands(d, t, s.tr[t].gen, 0, false) && d.At(i, Holding(t, WaitEnter)) && AwAlive(d)
    ensures TwiceReachable(d, t, s.tr[t].gen)
  {
    var g, j := s.tr[t].gen, s.tr[t].ans.writer;
    assert TicketOk(s, t) && InFlightOk(s, t, j) && d.th[j] == s.th[j];
    RequesterGivesUp(d, i, t, g);
    var start := [Check(i), React(i)];
    if s.th[j] == Writing(t) { WriterReleasesToo(d, start, Run(d, start).value, j, t, g); }
    else { HandlerReleasesToo(d, start, Run(d, start).value, j, t, g); }
  }

  lemma OwedLeadsToTwo(s: State, d: State, t: Id, i: Tid, w: Tid)
    requires Good(s) && s.Knows(t) && Stands(d, t, s.tr[t].gen, 0, false) && d.At(i, Holding(t, WaitEnter))
      && d.At(w, Idle)
    requires s.Cur(t) in s.daemon && d.daemon == s.daemon && d.m.aw == s.m.aw && AwAlive(d)
    ensures TwiceReachable(d, t, s.tr[t].gen)
  {
    var g := s.tr[t].gen;
    ReplyFindsTicket(s, s.Cur(t));
    RequesterGivesUp(d, i, t, g);
    var start := [Check(i), React(i)];
    ReplyReleasesToo(d, start, Run(d, start).value, w, t, g);
  }

  lemma IdleStaysIdle(s: State, a: Action, d: State, w: Tid)
    requires Step(s, a) == Some(d) && !s.m.dead && d.m.dead && s.At(w, Idle)
    ensures d.At(w, Idle)
  {
    KillingStep(s, a, d);
    StepMoves(s, a, d);
  }

  lemma InSightLeadsToTwo(s: State, a: Action, d: State, t: Id, w: Tid)
    requires Good(s) && Step(s, a) == Some(d) && !s.m.dead && d.m.dead && s.At(w, Idle) && TwiceInSight(s, t)
    ensures TwiceReachable(d, t, s.tr[t].gen)
  {
    var i :| s.At(i, Holding(t, WaitEnter));
    InSightStands(s, a, d, t, i);
    IdleStaysIdle(s, a, d, w);
    if s.tr[t].ans.InFlight? { InFlightLeadsToTwo(s, d, t, i); } else { OwedLeadsToTwo(s, d, t, i, w); }
  }

  /** The session dies in any of its three ways. Some run from there releases the current use
    * of t twice if and only if its requester was about to wait, without an outcome recorded,
    * and the reply was with a writer or still owed by the daemon.
    */
  lemma ReleasedTwiceExactly(s0: State, run: seq<Action>, s: State, a: Action, d: State, t: Id, w: Tid)
    requires Init(s0) && Run(s0, run) == Some(s) && !s.m.dead && s.Knows(t) && s.At(w, Idle)
    requires Step(s, a) == Some(d) && d.m.dead
    ensures TwiceReachable(d, t, s.tr[t].gen) <==> TwiceInSight(s, t)
  {
    LiveRunIsGood(s0, run, s);
    var g := s.tr[t].gen;
    if TwiceInSight(s, t) {
      InSightLeadsToTwo(s, a, d, t, w);
    } else {
      KillingStep(s, a, d);
      LiveRegime(s, t);
      StepKeepsAtMostOnce(s, a, d, t, g);
      forall more: seq<Action> | Run(d, more).Some? ensures !ReleasedTwice(Run(d, more).value, t, g) {
        DeadRunReleasesOnce(d, more, Run(d, more).value, t, g);
      }
    }
  }
}
