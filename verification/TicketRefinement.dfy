/** The thread model and the session objects speak of the same memory: the steps of a thread
  * that nobody interrupts add up to the methods of Session.
  */
module TicketRefinement {
  import opened Lists
  import opened TicketMemory
  import opened TicketProtocol

  /** fuse_ticket_drop: one step if the ticket dies, two if it is recycled. */
  function DropSteps(s: State, i: Tid): Option<State> {
    match StepDecide(s, i)
    case None => None
    case Some(s1) => if s1.At(i, Idle) then Some(s1) else StepRecycle(s1, i)
  }

  lemma DropAddsUp(s: State, i: Tid, t: Id)
    requires s.At(i, Holding(t, Dropping)) && s.Knows(t)
    ensures DropSteps(s, i).Some?
    ensures DropSteps(s, i).value.m == DropTicket(s.m, t) && DropSteps(s, i).value.At(i, Idle)
  {
  }

  function ThenDrop(s: Option<State>, i: Tid): Option<State> {
    match s
    case None => None
    case Some(s1) => if s1.At(i, Idle) then s else DropSteps(s1, i)
  }

  /** fuse_device_write: call the handler, if there is one, and drop if that is the outcome. */
  function HandleSteps(s: State, i: Tid, status: int, err: int, kill: bool): Option<State> {
    match StepDispatch(s, i, status, err, kill)
    case None => None
    case Some(s1) => ThenDrop(if i in s1.th && s1.th[i].Pulled? then StepAnswer(s1, i) else Some(s1), i)
  }

  lemma HandlerlessAddsUp(s: State, i: Tid, t: Id, status: int, err: int, kill: bool)
    requires s.At(i, Writing(t)) && s.Knows(t) && s.m.tk[t].handler == NoHandler
    ensures var r := HandleSteps(s, i, status, err, kill);
      r.Some? && r.value.At(i, Idle) && r.value.m == Handled(s.m, t, status, err, kill)
  {
    var s1 := StepDispatch(s, i, status, err, kill).value;
    DropAddsUp(s1, i, t);
  }

  /** The handler records the outcome ... */
  lemma AnswerAddsUp(s: State, i: Tid, t: Id, err: int)
    requires s.At(i, Pulled(t, err)) && s.Knows(t) && !s.m.tk[t].answered && s.AwMtxFree(t)
    ensures var r := ThenDrop(StepAnswer(s, i), i);
      r.Some? && r.value.At(i, Idle) && r.value.m == SetTicket(s.m, t, s.m.tk[t].Answer(err))
  {
  }

  /** ... or drops the ticket. */
  lemma AnswerDropAddsUp(s: State, i: Tid, t: Id, err: int)
    requires s.At(i, Pulled(t, err)) && s.Knows(t) && s.m.tk[t].answered && s.AwMtxFree(t)
    ensures var r := ThenDrop(StepAnswer(s, i), i);
      r.Some? && r.value.At(i, Idle) && r.value.m == DropTicket(s.m, t)
  {
    DropAddsUp(s.Release(i, t), i, t);
  }

  lemma HandlerAddsUp(s: State, i: Tid, t: Id, status: int, err: int, kill: bool)
    requires s.At(i, Writing(t)) && s.Knows(t) && s.m.tk[t].handler != NoHandler && s.AwMtxFree(t)
    ensures var r := HandleSteps(s, i, status, err, kill);
      r.Some? && r.value.At(i, Idle) && r.value.m == Handled(s.m, t, status, err, kill)
  {
    var s1 := StepDispatch(s, i, status, err, kill).value;
    assert s1.AwMtxFree(t);
    var e := if status != 0 then 0 else err;
    if s.m.tk[t].answered { AnswerDropAddsUp(s1, i, t, e); } else { AnswerAddsUp(s1, i, t, e); }
  }

  /** A whole fuse_device_write that nobody interrupts does to the session memory what
    * FuseData.DeviceWrite does.
    */
  lemma WriteAddsUp(s: State, i: Tid, use: Use, status: int, err: int, kill: bool)
    requires s.At(i, Idle) && use in s.daemon && s.awOwner == None && s.Knows(use.id) && s.AwMtxFree(use.id)
    requires use.id in s.m.aw
    ensures StepTakeReply(s, i, use).Some?
    ensures var r := HandleSteps(StepTakeReply(s, i, use).value, i, status, err, kill);
      r.Some? && r.value.At(i, Idle) && r.value.m == Reply(s.m, use.id, status, err, kill)
  {
    var t := use.id;
    var s1 := StepTakeReply(s, i, use).value;
    assert s1.AwMtxFree(t);
    if s.m.tk[t].handler == NoHandler { HandlerlessAddsUp(s1, i, t, status, err, kill); }
    else { HandlerAddsUp(s1, i, t, status, err, kill); }
  }

  /** fuse_ticket_fetch: one step if a ticket is free, three if one is allocated. */
  function FetchSteps(s: State, i: Tid): Option<State> {
    match StepFetch(s, i)
    case None => None
    case Some(s1) =>
      if !s1.At(i, Alloc) then Some(s1)
      else
        match StepAllocate(s1, i)
        case None => None
        case Some(s2) => StepList(s2, i)
  }

  /** The steps of a fuse_ticket_fetch that nobody interrupts do to the session memory what
    * FuseData.TicketFetch does, and lead to the stage that it tells.
    */
  lemma FetchAddsUp(s: State, i: Tid)
    requires s.At(i, Idle) && (s.m.freeCount > 0 ==> s.m.free != [] && s.Knows(s.m.free[0]) && !CountMismatch(s.m))
    ensures FetchSteps(s, i).Some?
    ensures var n, t := FetchSteps(s, i).value, if s.m.freeCount == 0 then s.m.ticketer else s.m.free[0];
      && n.m == (if s.m.freeCount == 0 then ListTicket(AllocTicket(s.m), t) else PopFree(s.m))
      && n.At(i, Holding(t, if MustWaitForInit(n.m) then InitSleep else if TooManyTickets(n.m) then Failing else Made))
  {
  }

  /** fticket_wait_answer up to the sleep is one step, and does what FuseData.WaitAnswer does. */
  lemma WaitAddsUp(s: State, i: Tid, t: Id)
    requires s.At(i, Holding(t, WaitEnter)) && s.Knows(t) && s.AwMtxFree(t)
    ensures StepCheck(s, i).Some?
    ensures var n, r := StepCheck(s, i).value, CheckWait(s.m, t);
      && n.m == (if r == SessionDead then SetTicket(s.m, t, s.m.tk[t].(answered := true)) else s.m)
      && n.At(i, Holding(t, if r == AlreadyAnswered then Waited(0) else if r == SessionDead then Waited(ENOTCONN)
                            else WaitLocked))
  {
  }

  /** fdisp_wait_answ after the wait: React, and then the search on the answer queue or the drop. */
  function ConcludeSteps(s: State, i: Tid): Option<State> {
    match StepReact(s, i)
    case None => None
    case Some(s1) =>
      if i in s1.th && s1.th[i].Clearing? then StepClear(s1, i)
      else if s1.Holds(i) && s1.th[i].stage.Dropping? then DropSteps(s1, i)
      else Some(s1)
  }

  lemma GivesUpAddsUp(s: State, i: Tid, t: Id, err: int)
    requires s.At(i, Holding(t, Waited(err))) && s.Knows(t) && s.AwMtxFree(t) && s.awOwner == None
    requires err != 0 && !s.m.tk[t].answered
    ensures var r, k := ConcludeSteps(s, i), s.m.tk[t];
      r.Some? && r.value.At(i, Idle)
      && r.value.m == ClearHandler(SetTicket(s.m, t, k.(answered := true)), t, k.age)
  {
    var s1 := StepReact(s, i).value;
    assert s1.At(i, Clearing(t, s.m.tk[t].age, s.tr[t].gen));
    assert StepClear(s1, i).Some?;
  }

  /** The steps of the end of a fdisp_wait_answ that nobody interrupts do to the session memory what
    * FuseData.ConcludeWait does, and the requester has the answer exactly if that returns 0.
    */
  lemma ConcludeAddsUp(s: State, i: Tid, t: Id, err: int)
    requires s.At(i, Holding(t, Waited(err))) && s.Knows(t) && s.AwMtxFree(t) && s.awOwner == None
    ensures ConcludeSteps(s, i).Some?
    ensures var n, k, e := ConcludeSteps(s, i).value, s.m.tk[t], Returned(s.m.tk[t], err);
      && n.At(i, if e == 0 then Holding(t, HaveAnswer) else Idle)
      && n.m == if e == 0 then s.m
                else if err != 0 && !k.answered then ClearHandler(SetTicket(s.m, t, k.(answered := true)), t, k.age)
                else DropTicket(s.m, t)
  {
    if err != 0 && !s.m.tk[t].answered {
      GivesUpAddsUp(s, i, t, err);
    } else if Returned(s.m.tk[t], err) != 0 {
      assert StepReact(s, i) == Some(s.Release(i, t));
      DropAddsUp(s.Release(i, t), i, t);
    }
  }

  /** One turn of the loop of a flush. */
  function FlushTurn(s: State, i: Tid): (r: Option<State>)
    requires s.m.aw != []
    ensures r.Some? ==> |r.value.m.aw| < |s.m.aw|
  {
    match StepFlushPop(s, i)
    case None => None
    case Some(s1) =>
      if UsesFreed(s, FlushPop(i)) || UsesFreed(s1, FlushMark(i)) then None else StepFlushMark(s1, i)
  }

  /** The loop of a flush that nobody interrupts. */
  function FlushSteps(s: State, i: Tid): Option<State>
    decreases |s.m.aw|
  {
    if s.m.aw == [] then StepFlushEnd(s, i)
    else
      match FlushTurn(s, i)
      case None => None
      case Some(s1) => FlushSteps(s1, i)
  }

  ghost predicate Markable(s: State, t: Id) { s.Knows(t) && s.AwMtxFree(t) && !Freed(s, t) }

  /** No queued ticket has been destroyed, and the tk_aw_mtx of each is free. */
  ghost predicate Undisturbed(s: State) {
    forall t {:trigger Markable(s, t)} :: t in s.m.aw ==> Markable(s, t)
  }

  /** m' is m after every ticket of queue has been answered with ENOTCONN. */
  ghost predicate FlushedTo(m: Memory, queue: seq<Id>, m': Memory) {
    && m'.(aw := m.aw, tk := m.tk) == m && m'.tk.Keys == m.tk.Keys
    && forall u {:trigger m'.tk[u]} :: u in m.tk ==>
      m'.tk[u] == if u in queue then m.tk[u].Answer(ENOTCONN) else m.tk[u]
  }

  lemma FlushTakes(s: State, i: Tid, t: Id)
    requires s.At(i, Flushing) && s.m.aw != [] && s.m.aw[0] == t && Undisturbed(s)
    ensures !UsesFreed(s, FlushPop(i)) && StepFlushPop(s, i).Some?
    ensures var s1 := StepFlushPop(s, i).value;
      s1.At(i, InHand(t)) && Markable(s1, t) && s1.m == PopAw(s.m)
  {
    assert Markable(s, t);
    forall u | u in Touched(s, FlushPop(i)) ensures !Freed(s, u) { assert Markable(s, u); }
  }

  lemma FlushMarks(s: State, i: Tid, t: Id)
    requires s.At(i, InHand(t)) && Markable(s, t)
    ensures !UsesFreed(s, FlushMark(i)) && StepFlushMark(s, i).Some?
    ensures var n := StepFlushMark(s, i).value;
      n.At(i, Flushing) && n.m == SetTicket(s.m, t, s.m.tk[t].Answer(ENOTCONN))
  {
    assert Touched(s, FlushMark(i)) == [t];
  }

  lemma StaysMarkable(s: State, i: Tid, u: Id)
    requires StepFlushPop(s, i).Some? && StepFlushMark(StepFlushPop(s, i).value, i).Some? && Markable(s, u)
    ensures Markable(StepFlushMark(StepFlushPop(s, i).value, i).value, u)
  {
    var s1 := StepFlushPop(s, i).value;
    assert s1.AwMtxFree(u);
  }

  lemma OneFlushed(s: State, i: Tid)
    requires s.At(i, Flushing) && s.m.aw != []
    requires Undisturbed(s)
    ensures FlushTurn(s, i).Some?
    ensures var n := FlushTurn(s, i).value;
      && n.At(i, Flushing) && Undisturbed(n)
      && n.m == s.m.(aw := s.m.aw[1..], tk := s.m.tk[s.m.aw[0] := s.m.tk[s.m.aw[0]].Answer(ENOTCONN)])
  {
    var t := s.m.aw[0];
    FlushTakes(s, i, t);
    var s1 := StepFlushPop(s, i).value;
    FlushMarks(s1, i, t);
    var n := StepFlushMark(s1, i).value;
    forall u | u in n.m.aw ensures Markable(n, u) {
      assert u in s.m.aw && Markable(s, u);
      StaysMarkable(s, i, u);
    }
  }

  lemma FlushedOneMore(m: Memory, t: Id, m1: Memory, m2: Memory)
    requires t in m.tk && m.aw != [] && m.aw[0] == t
    requires m1 == m.(aw := m.aw[1..], tk := m.tk[t := m.tk[t].Answer(ENOTCONN)])
    requires FlushedTo(m1, m.aw[1..], m2)
    ensures FlushedTo(m, m.aw, m2)
  {
    assert m.aw == [t] + m.aw[1..];
    assert m2 == m1.(aw := m2.aw, tk := m2.tk);
  }

  /** A flush that nobody interrupts, and that finds no destroyed ticket, does to the session memory
    * what FuseData.FlushAnswerQueue does.
    */
  lemma {:induction false} FlushAddsUp(s: State, i: Tid)
    requires s.At(i, Flushing)
    requires Undisturbed(s)
    ensures FlushSteps(s, i).Some?
    ensures FlushSteps(s, i).value.At(i, Idle) && FlushSteps(s, i).value.m.aw == []
    ensures FlushedTo(s.m, s.m.aw, FlushSteps(s, i).value.m)
    decreases |s.m.aw|
  {
    if s.m.aw != [] {
      OneFlushed(s, i);
      var n := FlushTurn(s, i).value;
      FlushAddsUp(n, i);
      assert Markable(s, s.m.aw[0]);
      FlushedOneMore(s.m, s.m.aw[0], n.m, FlushSteps(n, i).value.m);
    }
  }
}
