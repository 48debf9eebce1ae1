/** Tickets and the session memory they live in: the data that the kernel threads
  * and the daemon share (fuse_ipc.h, struct fuse_ticket and struct fuse_data).
  *
  * Every function below is the effect of one critical section of fuse_ipc.c or
  * fuse_device.c. The thread model (TicketProtocol) interleaves them and the
  * imperative classes (Session) are proved to compute them.
  */
module TicketMemory {
  import opened Lists

  /** tk_unique: assigned once, when the ticket is allocated. */
  type Id = nat

  const EIO := 5
  const ENXIO := 6
  const ENOTCONN := 57

  /** tk_age is a uint32_t. */
  const AGE_SPAN: nat := 0x1_0000_0000

  datatype Handler = NoHandler | StandardHandler

  /** The fields of struct fuse_ticket that decide who releases it. The four
    * booleans are the bits FT_ANSW, FT_INVAL, FT_DIRTY and FT_KILLL of tk_flag;
    * errno is tk_aw_errno and status is tk_aw_ohead.error.
    */
  datatype Ticket = Ticket(answered: bool, inval: bool, dirty: bool, killl: bool,
                           age: nat, handler: Handler, errno: int, status: int)
  {
    /** fticket_refresh: everything is cleared except the handler; the age grows. */
    function Refresh(): Ticket {
      Ticket(false, false, false, false, (age + 1) % AGE_SPAN, handler, 0, 0)
    }

    /** fuse_standard_handler and the flush loops: record the outcome. */
    function Answer(err: int): Ticket {
      this.(answered := true, errno := err)
    }
  }

  const FRESH_TICKET := Ticket(false, false, false, false, 0, NoHandler, 0, 0)

  /** struct fuse_data: the ticket table, the two message queues, the ticket lists
    * and their counters, and the session flags. maxFree and maxTickets are the
    * tunables fuse_max_freetickets and fuse_max_tickets.
    *
    * free is what a walk along tk_freetickets_link finds: every ticket has one such link, so
    * that no ticket is found twice, unless loop says that the last one links to itself.
    */
  datatype Memory = Memory(tk: map<Id, Ticket>, ms: seq<Id>, aw: seq<Id>,
                           free: seq<Id>, loop: bool, freeCount: nat, all: seq<Id>, deadCount: nat,
                           ticketer: nat, dead: bool, inited: bool,
                           maxFree: nat, maxTickets: nat)

  /** The last free ticket links to itself, and that is t. */
  predicate LoopsAt(m: Memory, t: Id) { m.loop && EndsIn(m.free, t) }

  /** fuse_pop_freeticks: STAILQ_REMOVE_HEAD makes the link of the first ticket the new head. */
  function PopFree(m: Memory): Memory
    requires m.free != [] && m.freeCount > 0
  {
    m.(free := if m.loop && |m.free| == 1 then m.free else m.free[1..], freeCount := m.freeCount - 1)
  }

  /** "ticket count mismatch": the list is empty after the pop, and the counter is not 0. */
  predicate CountMismatch(m: Memory)
    requires m.free != [] && m.freeCount > 0
  {
    PopFree(m).free == [] && PopFree(m).freeCount != 0
  }

  /** fuse_push_freeticks: STAILQ_INSERT_TAIL clears the link of t and makes the last ticket
    * link to t. A ticket that is on the list already becomes its end, or a loop.
    */
  function PushFree(m: Memory, t: Id): Memory {
    m.(free := if t in m.free then UpTo(m.free, t) else m.free + [t], loop := EndsIn(m.free, t),
       freeCount := m.freeCount + 1)
  }

  /** fticket_alloc: data->ticketer++ and a cleared ticket. */
  function AllocTicket(m: Memory): Memory {
    m.(ticketer := m.ticketer + 1, tk := m.tk[m.ticketer := FRESH_TICKET])
  }

  /** fuse_push_allticks. */
  function ListTicket(m: Memory, t: Id): Memory {
    m.(all := m.all + [t])
  }

  /** fuse_ticket_fetch: every request but the first waits for the FUSE_INIT handshake. */
  predicate MustWaitForInit(m: Memory) {
    !m.inited && m.ticketer > 1
  }

  predicate TooManyTickets(m: Memory) {
    m.maxTickets != 0 && m.ticketer - m.deadCount > m.maxTickets
  }

  /** fuse_ticket_drop: is the ticket destroyed instead of recycled? */
  predicate MustDie(m: Memory, t: Id)
    requires t in m.tk
  {
    m.maxFree <= m.freeCount || m.tk[t].killl
  }

  /** fuse_remove_allticks followed by fticket_destroy. */
  function DestroyTicket(m: Memory, t: Id): Memory {
    m.(all := Without(m.all, t), deadCount := m.deadCount + 1)
  }

  /** The recycling branch of fuse_ticket_drop. */
  function RecycleTicket(m: Memory, t: Id): Memory
    requires t in m.tk
  {
    PushFree(SetTicket(m, t, m.tk[t].Refresh()), t)
  }

  /** fuse_ticket_drop as a whole, with nobody in between. */
  function DropTicket(m: Memory, t: Id): Memory
    requires t in m.tk
  {
    if MustDie(m, t) then DestroyTicket(m, t) else RecycleTicket(m, t)
  }

  function SetTicket(m: Memory, t: Id, k: Ticket): Memory {
    m.(tk := m.tk[t := k])
  }

  function PushAw(m: Memory, t: Id): Memory { m.(aw := m.aw + [t]) }

  function PushMs(m: Memory, t: Id): Memory { m.(ms := m.ms + [t]) }

  function PopMs(m: Memory): Memory
    requires m.ms != []
  {
    m.(ms := m.ms[1..])
  }

  function PopAw(m: Memory): Memory
    requires m.aw != []
  {
    m.(aw := m.aw[1..])
  }

  function RemoveAw(m: Memory, t: Id): Memory { m.(aw := Without(m.aw, t)) }

  /** fdata_set_dead and the plain flag write of fuse_device_read. */
  function SetDead(m: Memory): Memory { m.(dead := true) }

  /** What fuse_device_write does with the ticket it has taken off the answer queue. */
  function Handled(m: Memory, t: Id, status: int, err: int, kill: bool): Memory
    requires t in m.tk
  {
    var k := m.tk[t];
    if k.handler == NoHandler then DropTicket(m, t)
    else
      var k1 := k.(status := status, killl := k.killl || kill);
      if k.answered then DropTicket(SetTicket(m, t, k1), t)
      else SetTicket(m, t, k1.Answer(if status != 0 then 0 else err))
  }

  /** fuse_device_write for a reply that finds its ticket, with nobody in between. */
  function Reply(m: Memory, t: Id, status: int, err: int, kill: bool): Memory
    requires t in m.tk
  {
    Handled(RemoveAw(m, t), t, status, err, kill)
  }

  /** What fticket_wait_answer finds once it holds tk_aw_mtx. */
  datatype WaitCheck = AlreadyAnswered | SessionDead | MustSleep

  function CheckWait(m: Memory, t: Id): WaitCheck
    requires t in m.tk
  {
    if m.tk[t].answered then AlreadyAnswered else if m.dead then SessionDead else MustSleep
  }

  /** What fdisp_wait_answ returns after a wait that ended with err (fuse_ipc.c:1076-1091). */
  function Returned(k: Ticket, err: int): int {
    if err != 0 then err else if k.errno != 0 then EIO else k.status
  }

  /** fdisp_wait_answ after an interrupted wait: the handler of an unchanged ticket
    * still on the answer queue is cleared (fuse_ipc.c:1058-1069).
    */
  function ClearHandler(m: Memory, t: Id, age: nat): Memory
    requires t in m.tk
  {
    if t in m.aw && m.tk[t].age == age then SetTicket(m, t, m.tk[t].(handler := NoHandler)) else m
  }
}
