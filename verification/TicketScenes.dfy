/** A fresh session in which thread i makes a request with ticket 0 and thread w reads and writes
  * for the daemon: the states on the way to the daemon, to a signal and to a shutdown.
  */
module TicketScenes {
  import opened Lists
  import opened TicketMemory
  import opened TicketProtocol

  const EINTR := 4

  /** A fresh session with two threads. */
  ghost predicate Fresh(s0: State, i: Tid, w: Tid) { Init(s0) && i in s0.th && w in s0.th && i != w }

  /** The memory of s0 after one allocation. */
  function Mem(s0: State, k: Ticket, ms: seq<Id>, aw: seq<Id>, dead: bool): Memory {
    Memory(map[0 := k], ms, aw, [], false, 0, [0], 0, 1, dead, false, s0.m.maxFree, s0.m.maxTickets)
  }

  /** In a dead session ticket 0 is, or was, free. */
  function FreeMem(s0: State, k: Ticket, loop: bool, freeCount: nat): Memory {
    Mem(s0, k, [], [], true).(free := [0], loop := loop, freeCount := freeCount)
  }

  /** Thread i is at p, thread w at q and everybody else has not started; m and r are the memory
    * and the record of the ticket, and owed are the uses that may still be answered.
    */
  function Scene(s0: State, i: Tid, p: Pc, w: Tid, q: Pc, m: Memory, r: Track, owed: set<Use>): State {
    State(m, s0.th[i := p][w := q], None, m.dead, owed, map[0 := r], {}, false)
  }

  // The first use of a ticket; killl is FT_KILLL.
  function New(killl: bool): Ticket { FRESH_TICKET.(killl := killl) }

  function Queued(killl: bool): Ticket { New(killl).(handler := StandardHandler) }

  function Sent(killl: bool): Ticket { Queued(killl).(dirty := true) }

  function Closed(killl: bool): Ticket { Sent(killl).(answered := true) }

  /** A ticket that has been refreshed n times. */
  function Again(n: nat): Ticket { Queued(false).(age := n % AGE_SPAN) }

  function R(owner: Option<Tid>, msg: Msg, ans: Ans, drops: nat, replies: nat): Track {
    Track(0, owner, msg, ans, InUse, Tally(drops, 0, 0, replies), [])
  }

  const TWICE := Tally(2, 0, 0, 1)

  /** The second use of a ticket whose first use was released twice, and the third. */
  const SECOND := Track(1, None, NoMsg, Off, Free, NOTHING_YET, [TWICE])

  function Third(owner: Option<Tid>, life: Life): Track {
    Track(2, owner, NoMsg, Off, life, NOTHING_YET, [TWICE, NOTHING_YET])
  }

  /** No ticket has been destroyed. */
  ghost predicate AllAlive(s: State) {
    forall t {:trigger Freed(s, t)} :: !Freed(s, t)
  }

  lemma Then(s0: State, run0: seq<Action>, s: State, a: Action, s': State) returns (run: seq<Action>)
    requires Run(s0, run0) == Some(s) && Step(s, a) == Some(s') && AgeWindow(s, a) && AllAlive(s)
    ensures Run(s0, run) == Some(s') && run == run0 + [a]
  {
    OneStep(s, a, s');
    RunsJoin(s0, run0, s, [a]);
    run := run0 + [a];
  }

  /** Thread i goes from p to p' or thread w from q to q', and the ticket and its record are rewritten. */
  lemma Becomes(s0: State, i: Tid, p: Pc, p': Pc, w: Tid, q: Pc, q': Pc, k: Ticket, k': Ticket, r: Track, r': Track)
    requires i != w
    ensures s0.th[i := p][w := q][i := p'] == s0.th[i := p'][w := q]
    ensures s0.th[i := p][w := q][w := q'] == s0.th[i := p][w := q']
    ensures map[0 := k][0 := k'] == map[0 := k'] && map[0 := r][0 := r'] == map[0 := r']
  {
  }

  // ---- A request on its way to the daemon ----------------------------------------------------

  function Requesting(s0: State, i: Tid, w: Tid, killl: bool): State {
    Scene(s0, i, Holding(0, Made), w, Idle, Mem(s0, New(killl), [], [], false), R(Some(i), NoMsg, Off, 0, 0), {})
  }

  function Posting(s0: State, i: Tid, w: Tid, killl: bool): State {
    Scene(s0, i, Holding(0, PushingAw(Foreground)), w, Idle, Mem(s0, Queued(killl), [], [], false),
      R(Some(i), NoMsg, Off, 0, 0), {})
  }

  function OnAnswerQueue(s0: State, i: Tid, w: Tid, killl: bool): State {
    Scene(s0, i, Holding(0, Posted(Foreground)), w, Idle, Mem(s0, Queued(killl), [], [0], false),
      R(Some(i), NoMsg, OnAw, 0, 0), {})
  }

  function Sending(s0: State, i: Tid, w: Tid, killl: bool): State {
    Scene(s0, i, Holding(0, PushingMs(Foreground)), w, Idle, Mem(s0, Sent(killl), [], [0], false),
      R(Some(i), NoMsg, OnAw, 0, 0), {})
  }

  function OnBothQueues(s0: State, i: Tid, w: Tid, killl: bool): State {
    Scene(s0, i, Holding(0, WaitEnter), w, Idle, Mem(s0, Sent(killl), [0], [0], false),
      R(Some(i), OnMs, OnAw, 0, 0), {})
  }

  function AtTheReader(s0: State, i: Tid, w: Tid, killl: bool): State {
    Scene(s0, i, Holding(0, WaitEnter), w, Reading(0), Mem(s0, Sent(killl), [], [0], false),
      R(Some(i), AtReader(w), OnAw, 0, 0), {})
  }

  function AtTheDaemon(s0: State, i: Tid, w: Tid, killl: bool): State {
    Scene(s0, i, Holding(0, WaitEnter), w, Idle, Mem(s0, Sent(killl), [], [0], false),
      R(Some(i), AtDaemon, OnAw, 0, 0), {Use(0, 0)})
  }

  lemma Allocates(s0: State, i: Tid, w: Tid) returns (run: seq<Action>)
    requires Fresh(s0, i, w)
    ensures Run(s0, run) == Some(Requesting(s0, i, w, false))
  {
    var s1 := s0.Go(i, Alloc);
    var r := R(Some(i), NoMsg, Off, 0, 0);
    var s2 := s1.(m := AllocTicket(s0.m), unlisted := {0}).SetR(0, r).Go(i, Holding(0, NewTicket));
    run := Then(s0, [], s0, Fetch(i), s1);
    assert s1.(m := AllocTicket(s0.m)).unlisted == {} && {} + {0} == {0};
    assert StepAllocate(s1, i) == Some(s2);
    run := Then(s0, run, s1, Allocate(i), s2);
    assert s2.unlisted - {0} == {} && [] + [0] == s2.m.all + [0] == [0];
    assert s2.m.tk == map[0 := New(false)] && s2.Go(i, Holding(0, Made)).th == s0.th[i := Holding(0, Made)][w := Idle];
    run := Then(s0, run, s2, List(i), Requesting(s0, i, w, false));
  }

  /** The request is one with a large extended attribute. */
  lemma IsMarked(s0: State, run0: seq<Action>, i: Tid, w: Tid) returns (run: seq<Action>)
    requires Fresh(s0, i, w) && Run(s0, run0) == Some(Requesting(s0, i, w, false))
    ensures Run(s0, run) == Some(Requesting(s0, i, w, true))
  {
    var r := R(Some(i), NoMsg, Off, 0, 0);
    Becomes(s0, i, Holding(0, Made), Holding(0, Made), w, Idle, Idle, New(false), New(true), r, r);
    run := Then(s0, run0, Requesting(s0, i, w, false), MarkKilll(i), Requesting(s0, i, w, true));
  }

  lemma Posts(s0: State, run0: seq<Action>, i: Tid, w: Tid, killl: bool) returns (run: seq<Action>)
    requires Fresh(s0, i, w) && Run(s0, run0) == Some(Requesting(s0, i, w, killl))
    ensures Run(s0, run) == Some(Posting(s0, i, w, killl))
  {
    Becomes(s0, i, Holding(0, Made), Holding(0, PushingAw(Foreground)), w, Idle, Idle, New(killl), Queued(killl),
      R(Some(i), NoMsg, Off, 0, 0), R(Some(i), NoMsg, Off, 0, 0));
    run := Then(s0, run0, Requesting(s0, i, w, killl), Post(i, Foreground), Posting(s0, i, w, killl));
  }

  lemma Queues(s0: State, run0: seq<Action>, i: Tid, w: Tid, killl: bool) returns (run: seq<Action>)
    requires Fresh(s0, i, w) && Run(s0, run0) == Some(Posting(s0, i, w, killl))
    ensures Run(s0, run) == Some(OnAnswerQueue(s0, i, w, killl))
  {
    assert Posting(s0, i, w, killl).m.aw + [0] == [0];
    Becomes(s0, i, Holding(0, PushingAw(Foreground)), Holding(0, Posted(Foreground)), w, Idle, Idle, Queued(killl),
      Queued(killl), R(Some(i), NoMsg, Off, 0, 0), R(Some(i), NoMsg, OnAw, 0, 0));
    run := Then(s0, run0, Posting(s0, i, w, killl), DoPushAw(i), OnAnswerQueue(s0, i, w, killl));
  }

  lemma Marks(s0: State, run0: seq<Action>, i: Tid, w: Tid, killl: bool) returns (run: seq<Action>)
    requires Fresh(s0, i, w) && Run(s0, run0) == Some(OnAnswerQueue(s0, i, w, killl))
    ensures Run(s0, run) == Some(Sending(s0, i, w, killl))
  {
    Becomes(s0, i, Holding(0, Posted(Foreground)), Holding(0, PushingMs(Foreground)), w, Idle, Idle, Queued(killl),
      Sent(killl), R(Some(i), NoMsg, OnAw, 0, 0), R(Some(i), NoMsg, OnAw, 0, 0));
    run := Then(s0, run0, OnAnswerQueue(s0, i, w, killl), Message(i), Sending(s0, i, w, killl));
  }

  lemma Sends(s0: State, run0: seq<Action>, i: Tid, w: Tid, killl: bool) returns (run: seq<Action>)
    requires Fresh(s0, i, w) && Run(s0, run0) == Some(Sending(s0, i, w, killl))
    ensures Run(s0, run) == Some(OnBothQueues(s0, i, w, killl))
  {
    assert Sending(s0, i, w, killl).m.ms + [0] == [0];
    Becomes(s0, i, Holding(0, PushingMs(Foreground)), Holding(0, WaitEnter), w, Idle, Idle, Sent(killl),
      Sent(killl), R(Some(i), NoMsg, OnAw, 0, 0), R(Some(i), OnMs, OnAw, 0, 0));
    run := Then(s0, run0, Sending(s0, i, w, killl), DoPushMs(i), OnBothQueues(s0, i, w, killl));
  }

  /** The one message is taken. */
  lemma MessageIsPopped(s: State, w: Tid)
    requires s.At(w, Idle) && !s.m.dead && s.Knows(0) && s.m.ms == [0]
    ensures Step(s, ReadPop(w)) ==
              Some(s.(m := s.m.(ms := [])).SetR(0, s.tr[0].(msg := AtReader(w))).Go(w, Reading(0)))
  {
    assert s.m.ms[1..] == [];
    assert StepReadPop(s, w).Some?;
  }

  lemma Pops(s0: State, run0: seq<Action>, i: Tid, w: Tid, killl: bool) returns (run: seq<Action>)
    requires Fresh(s0, i, w) && Run(s0, run0) == Some(OnBothQueues(s0, i, w, killl))
    ensures Run(s0, run) == Some(AtTheReader(s0, i, w, killl))
  {
    MessageIsPopped(OnBothQueues(s0, i, w, killl), w);
    Becomes(s0, i, Holding(0, WaitEnter), Holding(0, WaitEnter), w, Idle, Reading(0), Sent(killl), Sent(killl),
      R(Some(i), OnMs, OnAw, 0, 0), R(Some(i), AtReader(w), OnAw, 0, 0));
    run := Then(s0, run0, OnBothQueues(s0, i, w, killl), ReadPop(w), AtTheReader(s0, i, w, killl));
  }

  /** The message goes out, and its reply is owed. */
  lemma MessageGoesOut(s: State, w: Tid)
    requires s.At(w, Reading(0)) && !s.m.dead && s.Knows(0) && !s.m.tk[0].inval && s.daemon == {}
    ensures Step(s, ReadFinish(w, false, true)) ==
              Some(s.(daemon := {s.Cur(0)}).SetR(0, s.tr[0].(msg := AtDaemon)).Go(w, Idle))
  {
    assert s.daemon + {s.Cur(0)} == {s.Cur(0)};
    assert StepReadFinish(s, w, false, true).Some?;
  }

  lemma Delivers(s0: State, run0: seq<Action>, i: Tid, w: Tid, killl: bool) returns (run: seq<Action>)
    requires Fresh(s0, i, w) && Run(s0, run0) == Some(AtTheReader(s0, i, w, killl))
    ensures Run(s0, run) == Some(AtTheDaemon(s0, i, w, killl))
  {
    MessageGoesOut(AtTheReader(s0, i, w, killl), w);
    Becomes(s0, i, Holding(0, WaitEnter), Holding(0, WaitEnter), w, Reading(0), Idle, Sent(killl), Sent(killl),
      R(Some(i), AtReader(w), OnAw, 0, 0), R(Some(i), AtDaemon, OnAw, 0, 0));
    run := Then(s0, run0, AtTheReader(s0, i, w, killl), ReadFinish(w, false, true), AtTheDaemon(s0, i, w, killl));
  }

  /** The one owed reply finds the one queued ticket. */
  lemma ReplyFinds(s: State, w: Tid)
    requires s.At(w, Idle) && s.awOwner == None && s.Knows(0) && s.daemon == {Use(0, 0)} && s.m.aw == [0]
    ensures var r := s.tr[0].(msg := Replied, now := s.tr[0].now.(replies := s.tr[0].now.replies + 1));
      Step(s, TakeReply(w, Use(0, 0))) ==
        Some(s.(m := s.m.(aw := []), daemon := {}).SetR(0, r.(ans := InFlight(w))).Go(w, Writing(0)))
  {
    assert RemoveAw(s.m, 0) == s.m.(aw := []) && s.daemon - {Use(0, 0)} == {};
    assert StepTakeReply(s, w, Use(0, 0)).Some?;
  }

  lemma ReplyIsTaken(s0: State, run0: seq<Action>, s: State, w: Tid, r: Track, s': State) returns (run: seq<Action>)
    requires Run(s0, run0) == Some(s) && s.At(w, Idle) && s.awOwner == None && s.Knows(0) && AllAlive(s)
    requires s.daemon == {Use(0, 0)} && s.m.aw == [0]
    requires r == s.tr[0].(msg := Replied, now := s.tr[0].now.(replies := s.tr[0].now.replies + 1), ans := InFlight(w))
    requires s' == s.(m := s.m.(aw := []), daemon := {}).SetR(0, r).Go(w, Writing(0))
    ensures Run(s0, run) == Some(s')
  {
    ReplyFinds(s, w);
    run := Then(s0, run0, s, TakeReply(w, Use(0, 0)), s');
  }

  /** From a new ticket to a message on the message queue. */
  lemma IsSent(s0: State, run0: seq<Action>, i: Tid, w: Tid, killl: bool) returns (run: seq<Action>)
    requires Fresh(s0, i, w) && Run(s0, run0) == Some(Requesting(s0, i, w, killl))
    ensures Run(s0, run) == Some(OnBothQueues(s0, i, w, killl))
  {
    run := Posts(s0, run0, i, w, killl);
    run := Queues(s0, run, i, w, killl);
    run := Marks(s0, run, i, w, killl);
    run := Sends(s0, run, i, w, killl);
  }

  /** The daemon reads it. */
  lemma IsRead(s0: State, run0: seq<Action>, i: Tid, w: Tid, killl: bool) returns (run: seq<Action>)
    requires Fresh(s0, i, w) && Run(s0, run0) == Some(OnBothQueues(s0, i, w, killl))
    ensures Run(s0, run) == Some(AtTheDaemon(s0, i, w, killl))
  {
    run := Pops(s0, run0, i, w, killl);
    run := Delivers(s0, run, i, w, killl);
  }

  // ---- Two releases ----------------------------------------------------------------------------

  function AtTheWriter(s0: State, i: Tid, w: Tid, killl: bool): State {
    Scene(s0, i, Holding(0, WaitEnter), w, Writing(0), Mem(s0, Sent(killl), [], [], false),
      R(Some(i), Replied, InFlight(w), 0, 1), {})
  }

  function DeadAtTheWriter(s0: State, i: Tid, w: Tid, killl: bool): State {
    Scene(s0, i, Holding(0, WaitEnter), w, Writing(0), Mem(s0, Sent(killl), [], [], true),
      R(Some(i), Replied, InFlight(w), 0, 1), {})
  }

  function Told(s0: State, i: Tid, w: Tid, killl: bool): State {
    Scene(s0, i, Holding(0, Waited(ENOTCONN)), w, Writing(0), Mem(s0, Closed(killl), [], [], true),
      R(Some(i), Replied, InFlight(w), 0, 1), {})
  }

  function DroppedOnce(s0: State, i: Tid, w: Tid, killl: bool): State {
    Scene(s0, i, Holding(0, Dropping), w, Writing(0), Mem(s0, Closed(killl), [], [], true),
      R(Some(i), Replied, Off, 1, 1), {})
  }

  function InTheHandler(s0: State, i: Tid, w: Tid, killl: bool): State {
    Scene(s0, i, Holding(0, Dropping), w, Pulled(0, 0), Mem(s0, Closed(killl), [], [], true),
      R(Some(i), Replied, Off, 1, 1), {})
  }

  function DroppedTwice(s0: State, i: Tid, w: Tid, killl: bool): State {
    Scene(s0, i, Holding(0, Dropping), w, Holding(0, Dropping), Mem(s0, Closed(killl), [], [], true),
      R(Some(w), Replied, Off, 2, 1), {})
  }

  lemma ReplyComes(s0: State, run0: seq<Action>, i: Tid, w: Tid, killl: bool) returns (run: seq<Action>)
    requires Fresh(s0, i, w) && Run(s0, run0) == Some(AtTheDaemon(s0, i, w, killl))
    ensures Run(s0, run) == Some(AtTheWriter(s0, i, w, killl))
  {
    Becomes(s0, i, Holding(0, WaitEnter), Holding(0, WaitEnter), w, Idle, Writing(0), Sent(killl), Sent(killl),
      R(Some(i), AtDaemon, OnAw, 0, 0), R(Some(i), Replied, InFlight(w), 0, 1));
    run := ReplyIsTaken(s0, run0, AtTheDaemon(s0, i, w, killl), w, R(Some(i), Replied, InFlight(w), 0, 1),
      AtTheWriter(s0, i, w, killl));
  }

  /** The handler drops a ticket that has been answered. */
  lemma AnswerDrops(s: State, w: Tid)
    requires s.At(w, Pulled(0, 0)) && s.Knows(0) && s.m.tk[0].answered && s.AwMtxFree(0)
    ensures Step(s, Answer(w)) == Some(s.Release(w, 0))
  {
    assert StepAnswer(s, w).Some?;
  }

  /** The handler is called, with no error in the header. */
  lemma HandlerIsCalled(s: State, w: Tid)
    requires s.At(w, Writing(0)) && s.Knows(0) && s.m.tk[0].handler == StandardHandler && s.m.tk[0].status == 0
    ensures Step(s, Dispatch(w, 0, 0, false)) == Some(s.SetK(0, s.m.tk[0]).Go(w, Pulled(0, 0)))
  {
    assert StepDispatch(s, w, 0, 0, false).Some?;
  }

  /** The requester finds the session dead. */
  lemma FindsItDead(s: State, i: Tid)
    requires s.At(i, Holding(0, WaitEnter)) && s.Knows(0) && s.AwMtxFree(0) && s.m.dead && !s.m.tk[0].answered
    ensures Step(s, Check(i)) ==
              Some(s.SetK(0, s.m.tk[0].(answered := true)).Go(i, Holding(0, Waited(ENOTCONN))))
  {
    assert StepCheck(s, i).Some?;
  }

  lemma Dies(s0: State, run0: seq<Action>, i: Tid, w: Tid, killl: bool) returns (run: seq<Action>)
    requires Fresh(s0, i, w) && Run(s0, run0) == Some(AtTheWriter(s0, i, w, killl))
    ensures Run(s0, run) == Some(DeadAtTheWriter(s0, i, w, killl))
  {
    Becomes(s0, i, Holding(0, WaitEnter), Holding(0, WaitEnter), w, Writing(0), Writing(0), Sent(killl),
      Sent(killl), R(Some(i), Replied, InFlight(w), 0, 1), R(Some(i), Replied, InFlight(w), 0, 1));
    run := Then(s0, run0, AtTheWriter(s0, i, w, killl), SetSessionDead, DeadAtTheWriter(s0, i, w, killl));
  }

  lemma IsTold(s0: State, run0: seq<Action>, i: Tid, w: Tid, killl: bool) returns (run: seq<Action>)
    requires Fresh(s0, i, w) && Run(s0, run0) == Some(DeadAtTheWriter(s0, i, w, killl))
    ensures Run(s0, run) == Some(Told(s0, i, w, killl))
  {
    FindsItDead(DeadAtTheWriter(s0, i, w, killl), i);
    Becomes(s0, i, Holding(0, WaitEnter), Holding(0, Waited(ENOTCONN)), w, Writing(0), Writing(0), Sent(killl),
      Closed(killl), R(Some(i), Replied, InFlight(w), 0, 1), R(Some(i), Replied, InFlight(w), 0, 1));
    run := Then(s0, run0, DeadAtTheWriter(s0, i, w, killl), Check(i), Told(s0, i, w, killl));
  }

  lemma DropsFirst(s0: State, run0: seq<Action>, i: Tid, w: Tid, killl: bool) returns (run: seq<Action>)
    requires Fresh(s0, i, w) && Run(s0, run0) == Some(Told(s0, i, w, killl))
    ensures Run(s0, run) == Some(DroppedOnce(s0, i, w, killl))
  {
    Becomes(s0, i, Holding(0, Waited(ENOTCONN)), Holding(0, Dropping), w, Writing(0), Writing(0), Closed(killl),
      Closed(killl), R(Some(i), Replied, InFlight(w), 0, 1), R(Some(i), Replied, Off, 1, 1));
    run := Then(s0, run0, Told(s0, i, w, killl), React(i), DroppedOnce(s0, i, w, killl));
  }

  lemma CallsHandler(s0: State, run0: seq<Action>, i: Tid, w: Tid, killl: bool) returns (run: seq<Action>)
    requires Fresh(s0, i, w) && Run(s0, run0) == Some(DroppedOnce(s0, i, w, killl))
    ensures Run(s0, run) == Some(InTheHandler(s0, i, w, killl))
  {
    HandlerIsCalled(DroppedOnce(s0, i, w, killl), w);
    Becomes(s0, i, Holding(0, Dropping), Holding(0, Dropping), w, Writing(0), Pulled(0, 0), Closed(killl),
      Closed(killl), R(Some(i), Replied, Off, 1, 1), R(Some(i), Replied, Off, 1, 1));
    run := Then(s0, run0, DroppedOnce(s0, i, w, killl), Dispatch(w, 0, 0, false), InTheHandler(s0, i, w, killl));
  }

  lemma DropsAgain(s0: State, run0: seq<Action>, i: Tid, w: Tid, killl: bool) returns (run: seq<Action>)
    requires Fresh(s0, i, w) && Run(s0, run0) == Some(InTheHandler(s0, i, w, killl))
    ensures Run(s0, run) == Some(DroppedTwice(s0, i, w, killl))
  {
    AnswerDrops(InTheHandler(s0, i, w, killl), w);
    Becomes(s0, i, Holding(0, Dropping), Holding(0, Dropping), w, Pulled(0, 0), Holding(0, Dropping), Closed(killl),
      Closed(killl), R(Some(i), Replied, Off, 1, 1), R(Some(w), Replied, Off, 2, 1));
    run := Then(s0, run0, InTheHandler(s0, i, w, killl), Answer(w), DroppedTwice(s0, i, w, killl));
  }

  /** The session dies between the reply and its handler: requester and writer both drop the ticket. */
  lemma IsReleasedTwice(s0: State, run0: seq<Action>, i: Tid, w: Tid, killl: bool) returns (run: seq<Action>)
    requires Fresh(s0, i, w) && Run(s0, run0) == Some(AtTheDaemon(s0, i, w, killl))
    ensures Run(s0, run) == Some(DroppedTwice(s0, i, w, killl))
  {
    run := ReplyComes(s0, run0, i, w, killl);
    run := Dies(s0, run, i, w, killl);
    run := IsTold(s0, run, i, w, killl);
    run := DropsFirst(s0, run, i, w, killl);
    run := CallsHandler(s0, run, i, w, killl);
    run := DropsAgain(s0, run, i, w, killl);
  }

  // ---- A signal --------------------------------------------------------------------------------

  function Locked(s0: State, i: Tid, w: Tid): State {
    Scene(s0, i, Holding(0, WaitLocked), w, Idle, Mem(s0, Sent(true), [], [0], false),
      R(Some(i), AtDaemon, OnAw, 0, 0), {Use(0, 0)})
  }

  function Sleeping(s0: State, i: Tid, w: Tid): State {
    Scene(s0, i, Holding(0, Asleep), w, Idle, Mem(s0, Sent(true), [], [0], false), R(Some(i), AtDaemon, OnAw, 0, 0),
      {Use(0, 0)})
  }

  function Signalled(s0: State, i: Tid, w: Tid): State {
    Scene(s0, i, Holding(0, Woken(EINTR)), w, Idle, Mem(s0, Sent(true), [], [0], false),
      R(Some(i), AtDaemon, OnAw, 0, 0), {Use(0, 0)})
  }

  function Awake(s0: State, i: Tid, w: Tid): State {
    Scene(s0, i, Holding(0, Waited(EINTR)), w, Idle, Mem(s0, Sent(true), [], [0], false),
      R(Some(i), AtDaemon, OnAw, 0, 0), {Use(0, 0)})
  }

  function Interrupted(s0: State, i: Tid, w: Tid): State {
    Scene(s0, i, Clearing(0, 0, 0), w, Idle, Mem(s0, Closed(true), [], [0], false), R(None, AtDaemon, OnAw, 0, 0),
      {Use(0, 0)})
  }

  function ReplyInFlight(s0: State, i: Tid, w: Tid): State {
    Scene(s0, i, Clearing(0, 0, 0), w, Writing(0), Mem(s0, Closed(true), [], [], false),
      R(None, Replied, InFlight(w), 0, 1), {})
  }

  function ReplyInHandler(s0: State, i: Tid, w: Tid): State {
    Scene(s0, i, Clearing(0, 0, 0), w, Pulled(0, 0), Mem(s0, Closed(true), [], [], false),
      R(None, Replied, InFlight(w), 0, 1), {})
  }

  function ReplyDrops(s0: State, i: Tid, w: Tid): State {
    Scene(s0, i, Clearing(0, 0, 0), w, Holding(0, Dropping), Mem(s0, Closed(true), [], [], false),
      R(Some(w), Replied, Off, 1, 1), {})
  }

  lemma Waits(s0: State, run0: seq<Action>, i: Tid, w: Tid) returns (run: seq<Action>)
    requires Fresh(s0, i, w) && Run(s0, run0) == Some(AtTheDaemon(s0, i, w, true))
    ensures Run(s0, run) == Some(Locked(s0, i, w))
  {
    Becomes(s0, i, Holding(0, WaitEnter), Holding(0, WaitLocked), w, Idle, Idle, Sent(true), Sent(true),
      R(Some(i), AtDaemon, OnAw, 0, 0), R(Some(i), AtDaemon, OnAw, 0, 0));
    run := Then(s0, run0, AtTheDaemon(s0, i, w, true), Check(i), Locked(s0, i, w));
  }

  lemma FallsAsleep(s0: State, run0: seq<Action>, i: Tid, w: Tid) returns (run: seq<Action>)
    requires Fresh(s0, i, w) && Run(s0, run0) == Some(Locked(s0, i, w))
    ensures Run(s0, run) == Some(Sleeping(s0, i, w))
  {
    Becomes(s0, i, Holding(0, WaitLocked), Holding(0, Asleep), w, Idle, Idle, Sent(true), Sent(true),
      R(Some(i), AtDaemon, OnAw, 0, 0), R(Some(i), AtDaemon, OnAw, 0, 0));
    run := Then(s0, run0, Locked(s0, i, w), Sleep(i), Sleeping(s0, i, w));
  }

  lemma IsSignalled(s0: State, run0: seq<Action>, i: Tid, w: Tid) returns (run: seq<Action>)
    requires Fresh(s0, i, w) && Run(s0, run0) == Some(Sleeping(s0, i, w))
    ensures Run(s0, run) == Some(Signalled(s0, i, w))
  {
    Becomes(s0, i, Holding(0, Asleep), Holding(0, Woken(EINTR)), w, Idle, Idle, Sent(true), Sent(true),
      R(Some(i), AtDaemon, OnAw, 0, 0), R(Some(i), AtDaemon, OnAw, 0, 0));
    run := Then(s0, run0, Sleeping(s0, i, w), Signal(i, EINTR), Signalled(s0, i, w));
  }

  lemma SignalEndsWait(s: State, i: Tid)
    requires s.At(i, Holding(0, Woken(EINTR))) && s.Knows(0) && s.AwMtxFree(0)
    ensures Step(s, Resume(i)) == Some(s.Go(i, Holding(0, Waited(EINTR))))
  {
    assert StepResume(s, i).Some?;
  }

  lemma WakesUp(s0: State, run0: seq<Action>, i: Tid, w: Tid) returns (run: seq<Action>)
    requires Fresh(s0, i, w) && Run(s0, run0) == Some(Signalled(s0, i, w))
    ensures Run(s0, run) == Some(Awake(s0, i, w))
  {
    SignalEndsWait(Signalled(s0, i, w), i);
    Becomes(s0, i, Holding(0, Woken(EINTR)), Holding(0, Waited(EINTR)), w, Idle, Idle, Sent(true), Sent(true),
      R(Some(i), AtDaemon, OnAw, 0, 0), R(Some(i), AtDaemon, OnAw, 0, 0));
    run := Then(s0, run0, Signalled(s0, i, w), Resume(i), Awake(s0, i, w));
  }

  lemma GivesUp(s0: State, run0: seq<Action>, i: Tid, w: Tid) returns (run: seq<Action>)
    requires Fresh(s0, i, w) && Run(s0, run0) == Some(Awake(s0, i, w))
    ensures Run(s0, run) == Some(Interrupted(s0, i, w))
  {
    Becomes(s0, i, Holding(0, Waited(EINTR)), Clearing(0, 0, 0), w, Idle, Idle, Sent(true), Closed(true),
      R(Some(i), AtDaemon, OnAw, 0, 0), R(None, AtDaemon, OnAw, 0, 0));
    run := Then(s0, run0, Awake(s0, i, w), React(i), Interrupted(s0, i, w));
  }

  lemma ReplyStillComes(s0: State, run0: seq<Action>, i: Tid, w: Tid) returns (run: seq<Action>)
    requires Fresh(s0, i, w) && Run(s0, run0) == Some(Interrupted(s0, i, w))
    ensures Run(s0, run) == Some(ReplyInFlight(s0, i, w))
  {
    Becomes(s0, i, Clearing(0, 0, 0), Clearing(0, 0, 0), w, Idle, Writing(0), Closed(true), Closed(true),
      R(None, AtDaemon, OnAw, 0, 0), R(None, Replied, InFlight(w), 0, 1));
    run := ReplyIsTaken(s0, run0, Interrupted(s0, i, w), w, R(None, Replied, InFlight(w), 0, 1),
      ReplyInFlight(s0, i, w));
  }

  lemma CallsHandlerToo(s0: State, run0: seq<Action>, i: Tid, w: Tid) returns (run: seq<Action>)
    requires Fresh(s0, i, w) && Run(s0, run0) == Some(ReplyInFlight(s0, i, w))
    ensures Run(s0, run) == Some(ReplyInHandler(s0, i, w))
  {
    HandlerIsCalled(ReplyInFlight(s0, i, w), w);
    Becomes(s0, i, Clearing(0, 0, 0), Clearing(0, 0, 0), w, Writing(0), Pulled(0, 0), Closed(true), Closed(true),
      R(None, Replied, InFlight(w), 0, 1), R(None, Replied, InFlight(w), 0, 1));
    run := Then(s0, run0, ReplyInFlight(s0, i, w), Dispatch(w, 0, 0, false), ReplyInHandler(s0, i, w));
  }

  lemma HandlerDrops(s0: State, run0: seq<Action>, i: Tid, w: Tid) returns (run: seq<Action>)
    requires Fresh(s0, i, w) && Run(s0, run0) == Some(ReplyInHandler(s0, i, w))
    ensures Run(s0, run) == Some(ReplyDrops(s0, i, w))
  {
    AnswerDrops(ReplyInHandler(s0, i, w), w);
    Becomes(s0, i, Clearing(0, 0, 0), Clearing(0, 0, 0), w, Pulled(0, 0), Holding(0, Dropping), Closed(true),
      Closed(true), R(None, Replied, InFlight(w), 0, 1), R(Some(w), Replied, Off, 1, 1));
    run := Then(s0, run0, ReplyInHandler(s0, i, w), Answer(w), ReplyDrops(s0, i, w));
  }

  /** A signal ends the wait; the requester is on its way to the answer queue. */
  lemma IsInterrupted(s0: State, run0: seq<Action>, i: Tid, w: Tid) returns (run: seq<Action>)
    requires Fresh(s0, i, w) && Run(s0, run0) == Some(AtTheDaemon(s0, i, w, true))
    ensures Run(s0, run) == Some(Interrupted(s0, i, w))
  {
    run := Waits(s0, run0, i, w);
    run := FallsAsleep(s0, run, i, w);
    run := IsSignalled(s0, run, i, w);
    run := WakesUp(s0, run, i, w);
    run := GivesUp(s0, run, i, w);
  }

  /** The reply is handled before it gets there. */
  lemma IsHandled(s0: State, run0: seq<Action>, i: Tid, w: Tid) returns (run: seq<Action>)
    requires Fresh(s0, i, w) && Run(s0, run0) == Some(Interrupted(s0, i, w))
    ensures Run(s0, run) == Some(ReplyDrops(s0, i, w))
  {
    run := ReplyStillComes(s0, run0, i, w);
    run := CallsHandlerToo(s0, run, i, w);
    run := HandlerDrops(s0, run, i, w);
  }
}
