/** The message queue and the answer queue over every run, live or dead: no ticket is linked twice,
  * and a ticket leaves its requester while it is linked only if that requester finds the session
  * dead before the flush has got to the ticket.
  */
module TicketQueues {
  import opened Lists
  import opened TicketMemory
  import opened TicketProtocol
  import opened TicketFrame
  import opened TicketInvariant
  import opened TicketTheorems
  import opened TicketCounts
  import opened TicketTwice

  // ---- What one step does to the queues --------------------------------------------------------

  function AwAfter(s: State, a: Action): seq<Id> {
    if a.DoPushAw? then s.m.aw + Own(s, a.i)
    else if a.TakeReply? then Without(s.m.aw, a.use.id)
    else if a.FlushPop? && s.m.aw != [] then s.m.aw[1..]
    else s.m.aw
  }

  function MsAfter(s: State, a: Action): seq<Id> {
    if a.DoPushMs? then s.m.ms + Own(s, a.i) else if a.ReadPop? && s.m.ms != [] then s.m.ms[1..] else s.m.ms
  }

  predicate AtPush(pc: Pc) { pc.Holding? && (pc.stage.PushingAw? || pc.stage.PushingMs?) }

  /** In a dead session nobody comes to one of the two pushes. */
  ghost predicate QueueMoves(s: State, a: Action, s': State) {
    && s'.m.aw == AwAfter(s, a) && s'.m.ms == MsAfter(s, a)
    && (Actor(a).Some? && a.i in s'.th ==>
          && (AtPush(s'.th[a.i]) ==> !s.m.dead && (a.Post? || a.Message?))
          && (s'.th[a.i].InHand? ==> a.FlushPop? && s.m.aw != [] && s'.th[a.i].t == s.m.aw[0]))
  }

  lemma FetchingQueues(s: State, a: Action, s': State)
    requires IsFetching(a) && StepFetching(s, a) == Some(s')
    ensures QueueMoves(s, a, s')
  {
  }

  lemma PostingQueues(s: State, a: Action, s': State)
    requires IsPosting(a) && StepSending(s, a) == Some(s')
    ensures QueueMoves(s, a, s')
  {
  }

  lemma SendingQueues(s: State, a: Action, s': State)
    requires IsSending(a) && StepSending(s, a) == Some(s')
    ensures QueueMoves(s, a, s')
  {
    if IsPosting(a) { PostingQueues(s, a, s'); }
  }

  lemma ReactQueues(s: State, i: Tid, s': State)
    requires StepReact(s, i) == Some(s')
    ensures QueueMoves(s, React(i), s')
  {
  }

  lemma SettlingQueues(s: State, a: Action, s': State)
    requires IsSettling(a) && StepSettling(s, a) == Some(s')
    ensures QueueMoves(s, a, s')
  {
    if a.React? { ReactQueues(s, a.i, s'); }
  }

  lemma TakeReplyQueues(s: State, i: Tid, use: Use, s': State)
    requires StepTakeReply(s, i, use) == Some(s')
    ensures QueueMoves(s, TakeReply(i, use), s')
  {
    if use.id !in s.m.aw { WithoutAbsent(s.m.aw, use.id); }
  }

  lemma ReadFinishQueues(s: State, i: Tid, tooSmall: bool, delivered: bool, s': State)
    requires StepReadFinish(s, i, tooSmall, delivered) == Some(s')
    ensures QueueMoves(s, ReadFinish(i, tooSmall, delivered), s')
  {
  }

  lemma ServingQueues(s: State, a: Action, s': State)
    requires IsServing(a) && StepServing(s, a) == Some(s')
    ensures QueueMoves(s, a, s')
  {
    match a
    case TakeReply(i, use) => TakeReplyQueues(s, i, use, s');
    case ReadFinish(i, tooSmall, delivered) => ReadFinishQueues(s, i, tooSmall, delivered, s');
    case _ =>
  }

  lemma FlushingQueues(s: State, a: Action, s': State)
    requires IsFlushing(a) && StepFlushing(s, a) == Some(s')
    ensures QueueMoves(s, a, s')
  {
  }

  lemma StepQueues(s: State, a: Action, s': State)
    requires Step(s, a) == Some(s')
    ensures QueueMoves(s, a, s')
  {
    if IsFetching(a) { FetchingQueues(s, a, s'); }
    else if IsSending(a) { SendingQueues(s, a, s'); }
    else if IsSettling(a) { SettlingQueues(s, a, s'); }
    else if IsServing(a) { ServingQueues(s, a, s'); }
    else if IsFlushing(a) { FlushingQueues(s, a, s'); }
  }

  // ---- Linked once ---------------------------------------------------------------------------------

  /** Thread j is about to link t to the answer queue, or has just unlinked it in a flush. */
  predicate AtAw(s: State, j: Tid, t: Id) {
    j in s.th && (s.th[j] == InHand(t) || (s.th[j].Holding? && s.th[j].t == t && s.th[j].stage.PushingAw?))
  }

  predicate AtMs(s: State, j: Tid, t: Id) {
    s.Holds(j) && s.th[j].t == t && s.th[j].stage.PushingMs?
  }

  ghost predicate OnceOnAw(s: State, t: Id) {
    && multiset(s.m.aw)[t] <= 1
    && (forall j {:trigger AtAw(s, j, t)} :: AtAw(s, j, t) ==> multiset(s.m.aw)[t] == 0)
    && (forall j, l {:trigger AtAw(s, j, t), AtAw(s, l, t)} :: AtAw(s, j, t) && AtAw(s, l, t) ==> j == l)
  }

  ghost predicate OnceOnMs(s: State, t: Id) {
    && multiset(s.m.ms)[t] <= 1
    && (forall j {:trigger AtMs(s, j, t)} :: AtMs(s, j, t) ==> multiset(s.m.ms)[t] == 0)
    && (forall j, l {:trigger AtMs(s, j, t), AtMs(s, l, t)} :: AtMs(s, j, t) && AtMs(s, l, t) ==> j == l)
  }

  /** What is needed of a step of a session that is dead, or that the step kills. */
  ghost predicate DeadMoves(s: State, a: Action, s': State) {
    && QueueMoves(s, a, s') && Moves(s, a, s') && (s.m.dead || !(a.Post? || a.Message?))
    && (Actor(a).Some? ==> a.i in s.th && Fits(s.th[a.i], a))
  }

  lemma StepDead(s: State, a: Action, s': State)
    requires Step(s, a) == Some(s') && (s.m.dead || s'.m.dead)
    ensures DeadMoves(s, a, s')
  {
    StepQueues(s, a, s');
    StepMoves(s, a, s');
    if Actor(a).Some? { StepFits(s, a); }
    if !s.m.dead { KillingStep(s, a, s'); }
  }

  lemma NobodyComes(s: State, a: Action, s': State, j: Tid, t: Id)
    requires DeadMoves(s, a, s')
    ensures AtAw(s', j, t) ==> AtAw(s, j, t) || (a.FlushPop? && j == a.i && s.m.aw != [] && t == s.m.aw[0])
    ensures AtMs(s', j, t) ==> AtMs(s, j, t)
    ensures Actor(a) == Some(j) && AtAw(s', j, t) ==> a.FlushPop?
    ensures Actor(a) == Some(j) ==> !AtMs(s', j, t)
  {
  }

  /** The step takes t off the answer queue. */
  predicate TakesFromAw(s: State, a: Action, t: Id) {
    (a.TakeReply? && a.use.id == t) || (a.FlushPop? && s.m.aw != [] && s.m.aw[0] == t)
  }

  lemma WithoutCount(q: seq<Id>, u: Id, t: Id)
    ensures var n := multiset(q)[t]; multiset(Without(q, u))[t] == if u == t && n > 0 then n - 1 else n
  {
    WithoutCounts(q, u);
  }

  lemma PushCount(q: seq<Id>, u: Id, t: Id)
    ensures multiset(q + [u])[t] == multiset(q)[t] + One(u == t)
  {
    TailCounts(q, u);
  }

  lemma RestCount(q: seq<Id>, t: Id)
    requires q != []
    ensures multiset(q[1..])[t] == multiset(q)[t] - One(q[0] == t)
  {
    HeadCounts(q);
  }

  lemma PushAwCounts(s: State, i: Tid, t: Id)
    requires s.Holds(i)
    ensures multiset(AwAfter(s, DoPushAw(i)))[t] == multiset(s.m.aw)[t] + One(s.th[i].t == t)
  {
    PushCount(s.m.aw, s.th[i].t, t);
    assert AwAfter(s, DoPushAw(i)) == s.m.aw + [s.th[i].t];
  }

  lemma FlushCounts(s: State, i: Tid, t: Id)
    ensures multiset(AwAfter(s, FlushPop(i)))[t] == multiset(s.m.aw)[t] - One(s.m.aw != [] && s.m.aw[0] == t)
  {
    if s.m.aw != [] { RestCount(s.m.aw, t); }
  }

  lemma AwCounts(s: State, a: Action, t: Id)
    requires a.DoPushAw? ==> s.Holds(a.i)
    ensures var n, n' := multiset(s.m.aw)[t], multiset(AwAfter(s, a))[t];
      n' == if a.DoPushAw? && s.th[a.i].t == t then n + 1 else if TakesFromAw(s, a, t) && n > 0 then n - 1 else n
  {
    match a
    case DoPushAw(i) => PushAwCounts(s, i, t);
    case TakeReply(_, use) => WithoutCount(s.m.aw, use.id, t);
    case FlushPop(i) => FlushCounts(s, i, t);
    case _ =>
  }

  lemma MsCounts(s: State, a: Action, t: Id)
    requires a.DoPushMs? ==> s.Holds(a.i)
    ensures var n, n' := multiset(s.m.ms)[t], multiset(MsAfter(s, a))[t];
      if a.DoPushMs? && s.th[a.i].t == t then n' == n + 1 else n' <= n
  {
    match a
    case DoPushMs(i) => PushCount(s.m.ms, s.th[i].t, t);
    case ReadPop(_) => if s.m.ms != [] { RestCount(s.m.ms, t); }
    case _ =>
  }

  lemma StepKeepsOnAw(s: State, a: Action, s': State, t: Id)
    requires OnceOnAw(s, t) && DeadMoves(s, a, s')
    ensures OnceOnAw(s', t)
  {
    AwCounts(s, a, t);
    if a.DoPushAw? && s.th[a.i].t == t { assert AtAw(s, a.i, t); }
    if a.FlushPop? && s.m.aw != [] && s.m.aw[0] == t { HeadCounts(s.m.aw); }
    forall j | AtAw(s', j, t) ensures multiset(s'.m.aw)[t] == 0 { NobodyComes(s, a, s', j, t); }
    forall j, l | AtAw(s', j, t) && AtAw(s', l, t) ensures j == l {
      NobodyComes(s, a, s', j, t);
      NobodyComes(s, a, s', l, t);
    }
  }

  lemma StepKeepsOnMs(s: State, a: Action, s': State, t: Id)
    requires OnceOnMs(s, t) && DeadMoves(s, a, s')
    ensures OnceOnMs(s', t)
  {
    MsCounts(s, a, t);
    if a.DoPushMs? && s.th[a.i].t == t { assert AtMs(s, a.i, t); }
    forall j | AtMs(s', j, t) ensures multiset(s'.m.ms)[t] == 0 { NobodyComes(s, a, s', j, t); }
    forall j, l | AtMs(s', j, t) && AtMs(s', l, t) ensures j == l {
      NobodyComes(s, a, s', j, t);
      NobodyComes(s, a, s', l, t);
    }
  }

  lemma PushersHold(s: State, j: Tid, t: Id)
    requires Good(s) && (AtAw(s, j, t) || AtMs(s, j, t))
    ensures s.Knows(t) && TicketOk(s, t) && s.tr[t].owner == Some(j) && t !in s.m.ms && (AtAw(s, j, t) ==> t !in s.m.aw)
  {
    assert ThreadOk(s, j);
    assert s.Knows(t) && TicketOk(s, t);
  }

  lemma LiveIsOnce(s: State, t: Id)
    requires Good(s)
    ensures OnceOnAw(s, t) && OnceOnMs(s, t)
  {
    OnceInQueue(s.m.aw, t);
    OnceInQueue(s.m.ms, t);
    forall j: Tid | AtAw(s, j, t) || AtMs(s, j, t)
      ensures s.Knows(t) && s.tr[t].owner == Some(j) && t !in s.m.ms && (AtAw(s, j, t) ==> t !in s.m.aw)
    {
      PushersHold(s, j, t);
    }
  }

  lemma {:induction false} RunIsOnce(s0: State, run: seq<Action>, s: State, t: Id)
    requires Init(s0) && Run(s0, run) == Some(s)
    ensures OnceOnAw(s, t) && OnceOnMs(s, t)
  {
    if !s.m.dead {
      LiveRunIsGood(s0, run, s);
      LiveIsOnce(s, t);
    } else if run != [] {
      var mid, a := Run(s0, run[..|run| - 1]).value, run[|run| - 1];
      RunIsOnce(s0, run[..|run| - 1], mid, t);
      StepDead(mid, a, s);
      StepKeepsOnAw(mid, a, s, t);
      StepKeepsOnMs(mid, a, s, t);
    }
  }

  lemma OnceIsNoDup(q: seq<Id>)
    requires forall t: Id {:trigger multiset(q)[t]} :: multiset(q)[t] <= 1
    ensures NoDup(q)
  {
    forall i, j | 0 <= i < j < |q| ensures q[i] != q[j] {
      assert q == q[..j] + q[j..] && q[i] in q[..j] && q[j] in q[j..];
      assert multiset(q)[q[i]] == multiset(q[..j])[q[i]] + multiset(q[j..])[q[i]] <= 1;
    }
  }

  /** In every run, live or dead, a ticket is linked at most once to the message queue and to the
    * answer queue, and not while a thread is about to link it there or a flush has it in hand.
    */
  lemma LinkedOnce(s0: State, run: seq<Action>, s: State, j: Tid, t: Id)
    requires Init(s0) && Run(s0, run) == Some(s)
    ensures NoDup(s.m.ms) && NoDup(s.m.aw)
    ensures AtAw(s, j, t) ==> t !in s.m.aw
    ensures AtMs(s, j, t) ==> t !in s.m.ms
  {
    forall u: Id ensures multiset(s.m.ms)[u] <= 1 && multiset(s.m.aw)[u] <= 1 { RunIsOnce(s0, run, s, u); }
    OnceIsNoDup(s.m.ms);
    OnceIsNoDup(s.m.aw);
    RunIsOnce(s0, run, s, t);
    assert t in s.m.aw <==> t in multiset(s.m.aw);
    assert t in s.m.ms <==> t in multiset(s.m.ms);
  }
}
