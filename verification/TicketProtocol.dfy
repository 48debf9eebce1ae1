/** Requesters, daemon threads and closers as program counters over TicketMemory.
  *
  * One step is one critical section, or one unlocked read or write between which
  * other threads can run. A run is any sequence of steps by any threads. The daemon
  * answers each message it has read at most once: `daemon` holds the uses it may
  * still answer. `tr`, `unlisted` and `flushed` are bookkeeping that decides
  * no step.
  */
module TicketProtocol {
  import opened Lists
  import opened TicketMemory

  type Tid = nat

  /** One use of a ticket: the ticket and how often it had been refreshed before. */
  datatype Use = Use(id: Id, gen: nat)

  /** Foreground requests wait for the answer; Background ones install a NULL handler
    * (fuse_filehandle_put); Forget ones set FT_INVAL and want no answer.
    */
  datatype Mode = Foreground | Background | Forget

  /** What the thread that must see a ticket through is doing. */
  datatype Stage =
    // fuse_ticket_fetch
    | NewTicket                  // allocated, not yet on alltickets
    | InitSleep                  // msleep on &data->ticketer
    | Failing                    // about to call fdata_set_dead
    | Made                       // the request is being filled in
    // fuse_insert_callback and fuse_insert_message
    | PushingAw(mode: Mode)
    | Posted(mode: Mode)         // past fuse_insert_callback
    | PushingMs(mode: Mode)
    // fticket_wait_answer
    | WaitEnter
    | WaitLocked                 // holds tk_aw_mtx, about to msleep
    | Asleep
    | Woken(err: int)
    // fdisp_wait_answ
    | Waited(err: int)
    | HaveAnswer
    // fuse_ticket_drop
    | Dropping
    | Recycling

  /** Where a thread is; t is the ticket it works on. */
  datatype Pc =
    | Idle
    | Alloc                               // saw an empty free list and dropped ticket_mtx
    | ReadAsleep                          // fuse_device_read, in msleep
    | Holding(t: Id, stage: Stage)
    | Clearing(t: Id, age: nat, gen: nat) // interrupted, about to look for t on the answer queue
    | Reading(t: Id)                      // fuse_device_read has popped t
    | Writing(t: Id)                      // fuse_device_write has taken t off the answer queue
    | Pulled(t: Id, err: int)             // ... and is inside fuse_standard_handler
    | Flushing                            // close or kill, holds aw_mtx
    | InHand(t: Id)                       // ... and has popped t

  predicate Nowhere(pc: Pc) {
    pc.Idle? || pc.Alloc? || pc.ReadAsleep? || pc.Flushing?
  }

  predicate Mentions(pc: Pc, t: Id) {
    !Nowhere(pc) && pc.t == t
  }

  /** How far the current use of a ticket has come. */
  datatype Msg = NoMsg | OnMs | AtReader(reader: Tid) | AtDaemon | Lost | Replied
  datatype Ans = Off | OnAw | InFlight(writer: Tid) | Popped(flusher: Tid)
  datatype Life = Free | InUse | Destroyed

  /** How often, during one use: fuse_ticket_drop was called for the ticket, its holder
    * made the next request with it, its holder walked away, a reply was taken.
    */
  datatype Tally = Tally(drops: nat, restarts: nat, abandons: nat, replies: nat)

  const NOTHING_YET := Tally(0, 0, 0, 0)

  /** now is the tally of the current use, past[g] that of use g. */
  datatype Track = Track(gen: nat, owner: Option<Tid>, msg: Msg, ans: Ans, life: Life,
                         now: Tally, past: seq<Tally>)
  {
    function NextUse(last: Tally): Track {
      this.(gen := gen + 1, msg := NoMsg, ans := Off, now := NOTHING_YET, past := past + [last])
    }
  }

  datatype State = State(m: Memory, th: map<Tid, Pc>, awOwner: Option<Tid>, wakePending: bool,
                         daemon: set<Use>, tr: map<Id, Track>, unlisted: set<Id>,
                         flushed: bool)
  {
    predicate Knows(t: Id) { t in m.tk && t in tr }

    predicate At(i: Tid, pc: Pc) { i in th && th[i] == pc }

    predicate Holds(i: Tid) { i in th && th[i].Holding? }

    function Cur(t: Id): Use
      requires t in tr
    {
      Use(t, tr[t].gen)
    }

    /** tk_aw_mtx of t is free: nobody sits between the checks and the msleep. */
    predicate AwMtxFree(t: Id) {
      forall j :: j in th ==> th[j] != Holding(t, WaitLocked)
    }

    function Go(i: Tid, pc: Pc): State { this.(th := th[i := pc]) }

    function SetK(t: Id, k: Ticket): State { this.(m := SetTicket(m, t, k)) }

    function SetR(t: Id, r: Track): State { this.(tr := tr[t := r]) }

    /** Thread i calls fuse_ticket_drop on t. */
    function Release(i: Tid, t: Id): State
      requires t in tr
    {
      Go(i, Holding(t, Dropping)).SetR(t, tr[t].(
        owner := Some(i), ans := Off, msg := if tr[t].msg == Replied then Replied else Lost,
        now := tr[t].now.(drops := tr[t].now.drops + 1)))
    }
  }

  /** fuse_wakeup(ftick). */
  function WakeAsleep(th: map<Tid, Pc>, t: Id): map<Tid, Pc> {
    map i | i in th :: if th[i] == Holding(t, Asleep) then Holding(t, Woken(0)) else th[i]
  }

  /** fuse_wakeup(&data->ticketer). */
  function WakeInit(th: map<Tid, Pc>): map<Tid, Pc> {
    map i | i in th :: if th[i].Holding? && th[i].stage == InitSleep then Holding(th[i].t, Made) else th[i]
  }

  function AfterFetch(m: Memory): Stage {
    if MustWaitForInit(m) then InitSleep else if TooManyTickets(m) then Failing else Made
  }

  function AfterMessage(t: Id, mode: Mode): Pc {
    if mode == Foreground then Holding(t, WaitEnter) else Idle
  }

  datatype Action =
    | Fetch(i: Tid) | Allocate(i: Tid) | List(i: Tid)
    | InitSignal(i: Tid) | FailDead(i: Tid) | InitComplete | SetSessionDead | WakeInitWaiters
    | MarkKilll(i: Tid) | Post(i: Tid, mode: Mode) | DoPushAw(i: Tid) | Message(i: Tid) | DoPushMs(i: Tid)
    | Check(i: Tid) | Sleep(i: Tid) | Signal(i: Tid, err: int) | Resume(i: Tid)
    | React(i: Tid) | Clear(i: Tid)
    | CallerDrop(i: Tid) | CallerReuse(i: Tid) | CallerAbandon(i: Tid)
    | Decide(i: Tid) | Recycle(i: Tid)
    | ReadSleep(i: Tid) | ReadWake(i: Tid) | ReadPop(i: Tid) | ReadFinish(i: Tid, tooSmall: bool, delivered: bool)
    | TakeReply(i: Tid, use: Use) | Dispatch(i: Tid, status: int, err: int, kill: bool)
    | Answer(i: Tid)
    | FlushBegin(i: Tid) | FlushPop(i: Tid) | FlushMark(i: Tid) | FlushEnd(i: Tid)

  // ---- fuse_ticket_fetch -------------------------------------------------

  /** The two panics, "no free ticket despite the counter's value" and "ticket count mismatch",
    * are no steps.
    */
  function StepFetch(s: State, i: Tid): Option<State> {
    if !s.At(i, Idle) then None
    else if s.m.freeCount == 0 then Some(s.Go(i, Alloc))
    else if s.m.free == [] || !s.Knows(s.m.free[0]) || CountMismatch(s.m) then None
    else
      var t := s.m.free[0];
      var s1 := s.(m := PopFree(s.m)).SetR(t, s.tr[t].(owner := Some(i), life := InUse));
      Some(s1.Go(i, Holding(t, AfterFetch(s1.m))))
  }

  function StepAllocate(s: State, i: Tid): Option<State> {
    if !s.At(i, Alloc) then None
    else
      var t := s.m.ticketer;
      var r := Track(0, Some(i), NoMsg, Off, InUse, NOTHING_YET, []);
      Some(s.(m := AllocTicket(s.m), unlisted := s.unlisted + {t}).SetR(t, r).Go(i, Holding(t, NewTicket)))
  }

  function StepList(s: State, i: Tid): Option<State> {
    if !s.Holds(i) || !s.th[i].stage.NewTicket? then None
    else
      var t := s.th[i].t;
      var m1 := ListTicket(s.m, t);
      Some(s.(m := m1, unlisted := s.unlisted - {t}).Go(i, Holding(t, AfterFetch(m1))))
  }

  function StepInitSignal(s: State, i: Tid): Option<State> {
    if !s.Holds(i) || !s.th[i].stage.InitSleep? then None else Some(s.Go(i, Holding(s.th[i].t, Failing)))
  }

  function StepFailDead(s: State, i: Tid): Option<State> {
    if !s.Holds(i) || !s.th[i].stage.Failing? then None
    else Some(s.(m := SetDead(s.m), wakePending := s.wakePending || !s.m.dead).Go(i, Holding(s.th[i].t, Made)))
  }

  /** fuse_internal_init_synchronous: FSESS_INITED is set and all waiters are woken. */
  function StepInitComplete(s: State): Option<State> {
    Some(s.(m := s.m.(inited := true), th := WakeInit(s.th)))
  }

  /** fdata_set_dead up to the release of ms_mtx. */
  function StepSetSessionDead(s: State): Option<State> {
    Some(s.(m := SetDead(s.m), wakePending := s.wakePending || !s.m.dead))
  }

  /** fdata_set_dead, the second critical section: the wake-up under ticket_mtx. */
  function StepWakeInitWaiters(s: State): Option<State> {
    if !s.wakePending then None else Some(s.(wakePending := false, th := WakeInit(s.th)))
  }

  // ---- fuse_insert_callback and fuse_insert_message ------------------------

  /** fticket_set_killl, by a caller with a large extended attribute. */
  function StepMarkKilll(s: State, i: Tid): Option<State> {
    if !s.Holds(i) || !s.th[i].stage.Made? || !s.Knows(s.th[i].t) then None
    else
      var t := s.th[i].t;
      Some(s.SetK(t, s.m.tk[t].(killl := true)).Go(i, Holding(t, Made)))
  }

  function StepPost(s: State, i: Tid, mode: Mode): Option<State> {
    if !s.Holds(i) || !s.th[i].stage.Made? || !s.Knows(s.th[i].t) then None
    else
      var t := s.th[i].t;
      if mode == Forget then Some(s.SetK(t, s.m.tk[t].(inval := true)).Go(i, Holding(t, Posted(mode))))
      else if s.m.dead then Some(s.Go(i, Holding(t, Posted(mode))))
      else
        var h := if mode == Foreground then StandardHandler else NoHandler;
        Some(s.SetK(t, s.m.tk[t].(handler := h)).Go(i, Holding(t, PushingAw(mode))))
  }

  function StepPushAw(s: State, i: Tid): Option<State> {
    if !s.Holds(i) || !s.th[i].stage.PushingAw? || !s.Knows(s.th[i].t) || s.awOwner != None then None
    else
      var t := s.th[i].t;
      Some(s.(m := PushAw(s.m, t)).SetR(t, s.tr[t].(ans := OnAw)).Go(i, Holding(t, Posted(s.th[i].stage.mode))))
  }

  /** A dirty ticket makes fuse_insert_message panic: no step. */
  function StepMessage(s: State, i: Tid): Option<State> {
    if !s.Holds(i) || !s.th[i].stage.Posted? || !s.Knows(s.th[i].t) || s.m.tk[s.th[i].t].dirty then None
    else
      var t, mode := s.th[i].t, s.th[i].stage.mode;
      var s1 := s.SetK(t, s.m.tk[t].(dirty := true));
      Some(s1.Go(i, if s.m.dead then AfterMessage(t, mode) else Holding(t, PushingMs(mode))))
  }

  function StepPushMs(s: State, i: Tid): Option<State> {
    if !s.Holds(i) || !s.th[i].stage.PushingMs? || !s.Knows(s.th[i].t) then None
    else
      var t, mode := s.th[i].t, s.th[i].stage.mode;
      var r := s.tr[t].(msg := OnMs, owner := if mode == Foreground then Some(i) else None);
      Some(s.(m := PushMs(s.m, t)).SetR(t, r).Go(i, AfterMessage(t, mode)))
  }

  // ---- fticket_wait_answer ---------------------------------------------------

  function StepCheck(s: State, i: Tid): Option<State> {
    if !s.Holds(i) || !s.th[i].stage.WaitEnter? || !s.Knows(s.th[i].t) || !s.AwMtxFree(s.th[i].t) then None
    else
      var t := s.th[i].t;
      match CheckWait(s.m, t)
      case AlreadyAnswered => Some(s.Go(i, Holding(t, Waited(0))))
      case SessionDead => Some(s.SetK(t, s.m.tk[t].(answered := true)).Go(i, Holding(t, Waited(ENOTCONN))))
      case MustSleep => Some(s.Go(i, Holding(t, WaitLocked)))
  }

  function StepSleep(s: State, i: Tid): Option<State> {
    if !s.Holds(i) || !s.th[i].stage.WaitLocked? then None else Some(s.Go(i, Holding(s.th[i].t, Asleep)))
  }

  /** PCATCH: msleep returns EINTR or ERESTART. */
  function StepSignal(s: State, i: Tid, err: int): Option<State> {
    if !s.Holds(i) || !s.th[i].stage.Asleep? || err == 0 then None else Some(s.Go(i, Holding(s.th[i].t, Woken(err))))
  }

  function StepResume(s: State, i: Tid): Option<State> {
    if !s.Holds(i) || !s.th[i].stage.Woken? || !s.Knows(s.th[i].t) || !s.AwMtxFree(s.th[i].t) then None
    else
      var t, err := s.th[i].t, s.th[i].stage.err;
      Some(s.Go(i, Holding(t, Waited(if err != 0 || s.m.tk[t].answered then err else ENXIO))))
  }

  // ---- fdisp_wait_answ -------------------------------------------------------

  function StepReact(s: State, i: Tid): Option<State> {
    if !s.Holds(i) || !s.th[i].stage.Waited? || !s.Knows(s.th[i].t) then None
    else if s.th[i].stage.err != 0 && !s.AwMtxFree(s.th[i].t) then None
    else
      var t, k := s.th[i].t, s.m.tk[s.th[i].t];
      if s.th[i].stage.err != 0 then
        if k.answered then Some(s.Release(i, t))
        else Some(s.SetK(t, k.(answered := true)).SetR(t, s.tr[t].(owner := None))
                  .Go(i, Clearing(t, k.age, s.tr[t].gen)))
      else if k.errno != 0 || k.status != 0 then Some(s.Release(i, t))
      else Some(s.Go(i, Holding(t, HaveAnswer)))
  }

  function StepClear(s: State, i: Tid): Option<State> {
    if i !in s.th || !s.th[i].Clearing? || !s.Knows(s.th[i].t) || s.awOwner != None then None
    else Some(s.(m := ClearHandler(s.m, s.th[i].t, s.th[i].age)).Go(i, Idle))
  }

  /** The caller is done with the answer: it drops the ticket, ... */
  function StepCallerDrop(s: State, i: Tid): Option<State> {
    if !s.Holds(i) || !s.th[i].stage.HaveAnswer? || !s.Knows(s.th[i].t) then None
    else Some(s.Release(i, s.th[i].t))
  }

  /** ... or makes its next request with it (fdisp_make with fdip->tick set), ... */
  function StepCallerReuse(s: State, i: Tid): Option<State> {
    if !s.Holds(i) || !s.th[i].stage.HaveAnswer? || !s.Knows(s.th[i].t) then None
    else
      var t := s.th[i].t;
      var last := s.tr[t].now.(restarts := s.tr[t].now.restarts + 1);
      Some(s.SetK(t, s.m.tk[t].Refresh()).SetR(t, s.tr[t].NextUse(last)).Go(i, Holding(t, Made)))
  }

  /** ... or forgets it, as fuse_vnop_lookup does on a reply with node id 0. */
  function StepCallerAbandon(s: State, i: Tid): Option<State> {
    if !s.Holds(i) || !s.th[i].stage.HaveAnswer? || !s.Knows(s.th[i].t) then None
    else
      var t := s.th[i].t;
      var now := s.tr[t].now.(abandons := s.tr[t].now.abandons + 1);
      Some(s.SetR(t, s.tr[t].(owner := None, now := now)).Go(i, Idle))
  }

  // ---- fuse_ticket_drop ------------------------------------------------------

  function StepDecide(s: State, i: Tid): Option<State> {
    if !s.Holds(i) || !s.th[i].stage.Dropping? || !s.Knows(s.th[i].t) then None
    else
      var t := s.th[i].t;
      if MustDie(s.m, t)
      then Some(s.(m := DestroyTicket(s.m, t)).SetR(t, s.tr[t].(life := Destroyed, owner := None)).Go(i, Idle))
      else Some(s.Go(i, Holding(t, Recycling)))
  }

  function StepRecycle(s: State, i: Tid): Option<State> {
    if !s.Holds(i) || !s.th[i].stage.Recycling? || !s.Knows(s.th[i].t) then None
    else
      var t := s.th[i].t;
      var r := s.tr[t].NextUse(s.tr[t].now).(owner := None, life := Free);
      Some(s.(m := RecycleTicket(s.m, t)).SetR(t, r).Go(i, Idle))
  }

  // ---- fuse_device_read ------------------------------------------------------

  function StepReadSleep(s: State, i: Tid): Option<State> {
    if !s.At(i, Idle) || s.m.dead || s.m.ms != [] then None else Some(s.Go(i, ReadAsleep))
  }

  /** Woken by a signal, or to find no message. */
  function StepReadWake(s: State, i: Tid): Option<State> {
    if !s.At(i, ReadAsleep) then None else Some(s.Go(i, Idle))
  }

  /** A reader that has slept takes a message without another look at FSESS_DEAD. */
  function StepReadPop(s: State, i: Tid): Option<State> {
    if !(s.At(i, Idle) && !s.m.dead) && !s.At(i, ReadAsleep) then None
    else if s.m.ms == [] || !s.Knows(s.m.ms[0]) then None
    else
      var t := s.m.ms[0];
      Some(s.(m := PopMs(s.m)).SetR(t, s.tr[t].(msg := AtReader(i))).Go(i, Reading(t)))
  }

  /** A buffer that is too small kills the session; FT_INVAL tickets are dropped here. */
  function StepReadFinish(s: State, i: Tid, tooSmall: bool, delivered: bool): Option<State> {
    if i !in s.th || !s.th[i].Reading? || !s.Knows(s.th[i].t) then None
    else
      var t := s.th[i].t;
      var s1 := if !s.m.dead && tooSmall then s.(m := SetDead(s.m)) else s;
      if s.m.tk[t].inval then Some(s1.Release(i, t))
      else if s.m.dead || tooSmall || !delivered then Some(s1.SetR(t, s.tr[t].(msg := Lost)).Go(i, Idle))
      else Some(s.(daemon := s.daemon + {s.Cur(t)}).SetR(t, s.tr[t].(msg := AtDaemon)).Go(i, Idle))
  }

  // ---- fuse_device_write and fuse_standard_handler --------------------------

  /** The reply carries only the ticket's number; an unknown one is ignored. */
  function StepTakeReply(s: State, i: Tid, use: Use): Option<State> {
    if !s.At(i, Idle) || use !in s.daemon || s.awOwner != None || !s.Knows(use.id) then None
    else
      var t := use.id;
      var r := s.tr[t].(msg := Replied, now := s.tr[t].now.(replies := s.tr[t].now.replies + 1));
      var s1 := s.(daemon := s.daemon - {use});
      if t in s.m.aw
      then Some(s1.(m := RemoveAw(s.m, t)).SetR(t, r.(ans := InFlight(i))).Go(i, Writing(t)))
      else Some(s1.SetR(t, r))
  }

  function StepDispatch(s: State, i: Tid, status: int, err: int, kill: bool): Option<State> {
    if i !in s.th || !s.th[i].Writing? || !s.Knows(s.th[i].t) then None
    else
      var t, k := s.th[i].t, s.m.tk[s.th[i].t];
      if k.handler == NoHandler then Some(s.Release(i, t))
      else
        var k1 := k.(status := status, killl := k.killl || kill);
        Some(s.SetK(t, k1).Go(i, Pulled(t, if status != 0 then 0 else err)))
  }

  function StepAnswer(s: State, i: Tid): Option<State> {
    if i !in s.th || !s.th[i].Pulled? || !s.Knows(s.th[i].t) || !s.AwMtxFree(s.th[i].t) then None
    else
      var t, k := s.th[i].t, s.m.tk[s.th[i].t];
      if k.answered then Some(s.Release(i, t))
      else
        var s1 := s.SetK(t, k.Answer(s.th[i].err)).SetR(t, s.tr[t].(ans := Off)).Go(i, Idle);
        Some(s1.(th := WakeAsleep(s1.th, t)))
  }

  // ---- the flush of fuse_device_close and fuse_device_kill --------------------

  function StepFlushBegin(s: State, i: Tid): Option<State> {
    if !s.At(i, Idle) || !s.m.dead || s.awOwner != None then None
    else Some(s.(awOwner := Some(i)).Go(i, Flushing))
  }

  function StepFlushPop(s: State, i: Tid): Option<State> {
    if !s.At(i, Flushing) || s.m.aw == [] || !s.Knows(s.m.aw[0]) then None
    else
      var t := s.m.aw[0];
      Some(s.(m := PopAw(s.m)).SetR(t, s.tr[t].(ans := Popped(i))).Go(i, InHand(t)))
  }

  function StepFlushMark(s: State, i: Tid): Option<State> {
    if i !in s.th || !s.th[i].InHand? || !s.Knows(s.th[i].t) || !s.AwMtxFree(s.th[i].t) then None
    else
      var t := s.th[i].t;
      var s1 := s.SetK(t, s.m.tk[t].Answer(ENOTCONN)).SetR(t, s.tr[t].(ans := Off)).Go(i, Flushing);
      Some(s1.(th := WakeAsleep(s1.th, t)))
  }

  function StepFlushEnd(s: State, i: Tid): Option<State> {
    if !s.At(i, Flushing) || s.m.aw != [] then None
    else Some(s.(awOwner := None, flushed := true).Go(i, Idle))
  }

  // The five kinds of steps.

  /** fuse_ticket_fetch and fdata_set_dead. */
  predicate IsFetching(a: Action) {
    a.Fetch? || a.Allocate? || a.List? || a.InitSignal? || a.FailDead? || a.InitComplete? || a.SetSessionDead?
    || a.WakeInitWaiters?
  }

  function StepFetching(s: State, a: Action): Option<State>
    requires IsFetching(a)
  {
    match a
    case Fetch(i) => StepFetch(s, i)
    case Allocate(i) => StepAllocate(s, i)
    case List(i) => StepList(s, i)
    case InitSignal(i) => StepInitSignal(s, i)
    case FailDead(i) => StepFailDead(s, i)
    case InitComplete => StepInitComplete(s)
    case SetSessionDead => StepSetSessionDead(s)
    case WakeInitWaiters => StepWakeInitWaiters(s)
  }

  /** From fuse_insert_callback to the end of the wait. */
  predicate IsSending(a: Action) {
    a.MarkKilll? || a.Post? || a.DoPushAw? || a.Message? || a.DoPushMs? || a.Check? || a.Sleep? || a.Signal?
    || a.Resume?
  }

  function StepSending(s: State, a: Action): Option<State>
    requires IsSending(a)
  {
    match a
    case MarkKilll(i) => StepMarkKilll(s, i)
    case Post(i, mode) => StepPost(s, i, mode)
    case DoPushAw(i) => StepPushAw(s, i)
    case Message(i) => StepMessage(s, i)
    case DoPushMs(i) => StepPushMs(s, i)
    case Check(i) => StepCheck(s, i)
    case Sleep(i) => StepSleep(s, i)
    case Signal(i, err) => StepSignal(s, i, err)
    case Resume(i) => StepResume(s, i)
  }

  /** fdisp_wait_answ, its caller, and fuse_ticket_drop. */
  predicate IsSettling(a: Action) {
    a.React? || a.Clear? || a.CallerDrop? || a.CallerReuse? || a.CallerAbandon? || a.Decide? || a.Recycle?
  }

  function StepSettling(s: State, a: Action): Option<State>
    requires IsSettling(a)
  {
    match a
    case React(i) => StepReact(s, i)
    case Clear(i) => StepClear(s, i)
    case CallerDrop(i) => StepCallerDrop(s, i)
    case CallerReuse(i) => StepCallerReuse(s, i)
    case CallerAbandon(i) => StepCallerAbandon(s, i)
    case Decide(i) => StepDecide(s, i)
    case Recycle(i) => StepRecycle(s, i)
  }

  /** fuse_device_read and fuse_device_write. */
  predicate IsServing(a: Action) {
    a.ReadSleep? || a.ReadWake? || a.ReadPop? || a.ReadFinish? || a.TakeReply? || a.Dispatch? || a.Answer?
  }

  function StepServing(s: State, a: Action): Option<State>
    requires IsServing(a)
  {
    match a
    case ReadSleep(i) => StepReadSleep(s, i)
    case ReadWake(i) => StepReadWake(s, i)
    case ReadPop(i) => StepReadPop(s, i)
    case ReadFinish(i, tooSmall, delivered) => StepReadFinish(s, i, tooSmall, delivered)
    case TakeReply(i, use) => StepTakeReply(s, i, use)
    case Dispatch(i, status, err, kill) => StepDispatch(s, i, status, err, kill)
    case Answer(i) => StepAnswer(s, i)
  }

  /** fuse_device_close and fuse_device_kill. */
  predicate IsFlushing(a: Action) {
    a.FlushBegin? || a.FlushPop? || a.FlushMark? || a.FlushEnd?
  }

  function StepFlushing(s: State, a: Action): Option<State>
    requires IsFlushing(a)
  {
    match a
    case FlushBegin(i) => StepFlushBegin(s, i)
    case FlushPop(i) => StepFlushPop(s, i)
    case FlushMark(i) => StepFlushMark(s, i)
    case FlushEnd(i) => StepFlushEnd(s, i)
  }

  function Step(s: State, a: Action): Option<State> {
    if IsFetching(a) then StepFetching(s, a)
    else if IsSending(a) then StepSending(s, a)
    else if IsSettling(a) then StepSettling(s, a)
    else if IsServing(a) then StepServing(s, a)
    else StepFlushing(s, a)
  }

  /** A fresh session (fdata_alloc) and a set of threads that have not started. */
  predicate Init(s: State) {
    && s.m.tk == map[] && s.m.ms == [] && s.m.aw == [] && s.m.free == [] && s.m.all == []
    && !s.m.loop && s.m.freeCount == 0 && s.m.deadCount == 0 && s.m.ticketer == 0
    && !s.m.dead && !s.m.inited
    && (forall i :: i in s.th ==> s.th[i] == Idle)
    && s.awOwner == None && !s.wakePending && s.daemon == {} && s.tr == map[] && s.unlisted == {} && !s.flushed
  }

  /** tk_age cannot tell uses apart that are 2^32 refreshes away from each other; the
    * interrupted requester must get to the answer queue before that.
    */
  predicate AgeWindow(s: State, a: Action) {
    a.Clear? && a.i in s.th && s.th[a.i].Clearing? && s.th[a.i].t in s.tr
    ==> s.tr[s.th[a.i].t].gen < s.th[a.i].gen + AGE_SPAN
  }

  // ---- Destroyed tickets ------------------------------------------------------

  /** The first elements of q up to the first t, and n more; all if there is no t. */
  function Walk(q: seq<Id>, t: Id, n: nat): seq<Id> {
    var k := |UpTo(q, t)| + n;
    if k <= |q| then q[..k] else q
  }

  lemma WalkStays(q: seq<Id>, t: Id, n: nat)
    ensures forall u :: u in Walk(q, t, n) ==> u in q
  {
  }

  function Tail(q: seq<Id>): seq<Id> { if q == [] then [] else [q[|q| - 1]] }

  function Own(s: State, i: Tid): seq<Id> {
    if i in s.th && !Nowhere(s.th[i]) then [s.th[i].t] else []
  }

  /** The tickets whose memory a step uses: its own; the neighbours that it links to or unlinks
    * from; and those that it passes in a search. alltickets never holds a destroyed ticket.
    */
  function Touched(s: State, a: Action): seq<Id> {
    match a
    case Fetch(_) => if s.m.freeCount > 0 && s.m.free != [] then [s.m.free[0]] else []
    case InitComplete => []
    case SetSessionDead => []
    case WakeInitWaiters => []
    case DoPushAw(i) => Own(s, i) + Tail(s.m.aw)
    case DoPushMs(i) => Own(s, i) + Tail(s.m.ms)
    case Clear(i) => Own(s, i) + (if i in s.th && s.th[i].Clearing? then Walk(s.m.aw, s.th[i].t, 0) else [])
    case Recycle(i) => Own(s, i) + Tail(s.m.free)
    case ReadPop(_) => if s.m.ms != [] then [s.m.ms[0]] else []
    case TakeReply(_, use) => Walk(s.m.aw, use.id, 1)
    case FlushPop(_) => if s.m.aw != [] then Walk(s.m.aw, s.m.aw[0], 1) else []
    case _ => Own(s, a.i)
  }

  predicate Freed(s: State, t: Id) { t in s.tr && s.tr[t].life == Destroyed }

  /** Step a uses the memory of a ticket that fticket_destroy has freed. */
  predicate UsesFreed(s: State, a: Action) {
    exists t {:trigger Freed(s, t)} :: t in Touched(s, a) && Freed(s, t)
  }

  /** Step a can be taken, and uses freed memory. */
  ghost predicate Dangles(s: State, a: Action) { Step(s, a).Some? && UsesFreed(s, a) }

  /** The runs go on as long as no step uses freed memory. */
  function Next(s: State, a: Action): Option<State> {
    if UsesFreed(s, a) then None else Step(s, a)
  }

  /** The state after a run, if every step of it is possible. */
  function AnyRun(s: State, run: seq<Action>): Option<State> {
    if run == [] then Some(s)
    else
      var last := |run| - 1;
      match AnyRun(s, run[..last])
      case None => None
      case Some(mid) => Next(mid, run[last])
  }

  /** The same, if every step is also within the age window. */
  function Run(s: State, run: seq<Action>): Option<State> {
    if run == [] then Some(s)
    else
      var last := |run| - 1;
      match Run(s, run[..last])
      case None => None
      case Some(mid) => if AgeWindow(mid, run[last]) then Next(mid, run[last]) else None
  }

  lemma {:induction false} RunIsAnyRun(s: State, run: seq<Action>)
    requires Run(s, run).Some?
    ensures AnyRun(s, run) == Run(s, run)
  {
    if run != [] { RunIsAnyRun(s, run[..|run| - 1]); }
  }

  lemma OneStep(s: State, a: Action, s': State)
    requires Next(s, a) == Some(s') && AgeWindow(s, a)
    ensures Run(s, [a]) == Some(s')
  {
    assert [a][..0] == [];
    assert Run(s, []) == Some(s);
  }

  lemma {:induction false} RunsJoin(s: State, run: seq<Action>, mid: State, more: seq<Action>)
    requires Run(s, run) == Some(mid)
    ensures Run(s, run + more) == Run(mid, more)
  {
    if more == [] {
      assert run + more == run;
    } else {
      var last := |more| - 1;
      assert (run + more)[..|run + more| - 1] == run + more[..last];
      assert (run + more)[|run + more| - 1] == more[last];
      RunsJoin(s, run, mid, more[..last]);
    }
  }
}
