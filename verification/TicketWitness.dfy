/** Runs from a fresh session to the states in which the promises about tickets end: a use that
  * two threads will release, a ticket queued twice, a free list shorter than its counter, a ticket
  * freed under an interrupted requester or on the answer queue, a thread asleep for ever.
  */
module TicketWitness {
  import opened Lists
  import opened TicketMemory
  import opened TicketProtocol
  import opened TicketFrame
  import opened TicketInvariant
  import opened TicketTheorems
  import opened TicketCounts
  import opened TicketReuse
  import opened TicketTwice
  import opened TicketInitWait
  import opened TicketScenes

  /** From every fresh session with two threads a run leads to a state from which the death of
    * the session lets a use be released twice.
    */
  lemma TwiceInSightIsReachable(s0: State, i: Tid, w: Tid)
    requires Init(s0) && i in s0.th && w in s0.th && i != w
    ensures exists run: seq<Action> {:trigger Run(s0, run)} ::
              Run(s0, run).Some? && !Run(s0, run).value.m.dead && Run(s0, run).value.At(w, Idle)
                && TwiceInSight(Run(s0, run).value, 0)
  {
    var run := Allocates(s0, i, w);
    run := IsSent(s0, run, i, w, false);
    run := IsRead(s0, run, i, w, false);
    assert Run(s0, run).value.At(i, Holding(0, WaitEnter));
  }

  // ---- The panic of fuse_insert_message ----------------------------------------------------------

  function RecyclingOnce(s0: State, i: Tid, w: Tid): State {
    Scene(s0, i, Holding(0, Recycling), w, Holding(0, Dropping), Mem(s0, Closed(false), [], [], true),
      R(Some(w), Replied, Off, 2, 1), {})
  }

  function RecyclingTwice(s0: State, i: Tid, w: Tid): State {
    Scene(s0, i, Holding(0, Recycling), w, Holding(0, Recycling), Mem(s0, Closed(false), [], [], true),
      R(Some(w), Replied, Off, 2, 1), {})
  }

  function FreeOnce(s0: State, i: Tid, w: Tid): State {
    Scene(s0, i, Idle, w, Holding(0, Recycling), FreeMem(s0, Again(1), false, 1), SECOND, {})
  }

  function FreeTwice(s0: State, i: Tid, w: Tid): State {
    Scene(s0, i, Idle, w, Idle, FreeMem(s0, Again(2), true, 2), Third(None, Free), {})
  }

  function FetchedOnce(s0: State, i: Tid, w: Tid): State {
    Scene(s0, i, Holding(0, Made), w, Idle, FreeMem(s0, Again(2), true, 1), Third(Some(i), InUse), {})
  }

  function FetchedTwice(s0: State, i: Tid, w: Tid): State {
    Scene(s0, i, Holding(0, Made), w, Holding(0, Made), FreeMem(s0, Again(2), true, 0), Third(Some(w), InUse), {})
  }

  function PostedOnce(s0: State, i: Tid, w: Tid): State {
    Scene(s0, i, Holding(0, Posted(Foreground)), w, Holding(0, Made), FreeMem(s0, Again(2), true, 0),
      Third(Some(w), InUse), {})
  }

  function MadeDirty(s0: State, i: Tid, w: Tid): State {
    Scene(s0, i, Holding(0, WaitEnter), w, Holding(0, Made), FreeMem(s0, Again(2).(dirty := true), true, 0),
      Third(Some(w), InUse), {})
  }

  function PostedTwice(s0: State, i: Tid, w: Tid): State {
    Scene(s0, i, Holding(0, WaitEnter), w, Holding(0, Posted(Foreground)),
      FreeMem(s0, Again(2).(dirty := true), true, 0), Third(Some(w), InUse), {})
  }

  /** The effect of a recycling. */
  lemma Recycles(s: State, i: Tid, t: Id, m: Memory, r: Track)
    requires s.At(i, Holding(t, Recycling)) && s.Knows(t) && m == RecycleTicket(s.m, t)
    requires r == s.tr[t].NextUse(s.tr[t].now).(owner := None, life := Free)
    ensures Step(s, Recycle(i)) == Some(s.(m := m).SetR(t, r).Go(i, Idle))
  {
    assert StepRecycle(s, i).Some?;
  }

  lemma FreeOnceMemory(s0: State)
    ensures RecycleTicket(Mem(s0, Closed(false), [], [], true), 0) == FreeMem(s0, Again(1), false, 1)
  {
    var m := Mem(s0, Closed(false), [], [], true);
    assert m.free + [0] == [0] && m.tk[0 := Again(1)] == map[0 := Again(1)];
  }

  lemma KeepsOnce(s0: State, run0: seq<Action>, i: Tid, w: Tid) returns (run: seq<Action>)
    requires Fresh(s0, i, w) && Run(s0, run0) == Some(DroppedTwice(s0, i, w, false)) && s0.m.maxFree > 0
    ensures Run(s0, run) == Some(RecyclingOnce(s0, i, w))
  {
    Becomes(s0, i, Holding(0, Dropping), Holding(0, Recycling), w, Holding(0, Dropping), Holding(0, Dropping),
      Closed(false), Closed(false), R(Some(w), Replied, Off, 2, 1), R(Some(w), Replied, Off, 2, 1));
    run := Then(s0, run0, DroppedTwice(s0, i, w, false), Decide(i), RecyclingOnce(s0, i, w));
  }

  lemma KeepsTwice(s0: State, run0: seq<Action>, i: Tid, w: Tid) returns (run: seq<Action>)
    requires Fresh(s0, i, w) && Run(s0, run0) == Some(RecyclingOnce(s0, i, w)) && s0.m.maxFree > 0
    ensures Run(s0, run) == Some(RecyclingTwice(s0, i, w))
  {
    Becomes(s0, i, Holding(0, Recycling), Holding(0, Recycling), w, Holding(0, Dropping), Holding(0, Recycling),
      Closed(false), Closed(false), R(Some(w), Replied, Off, 2, 1), R(Some(w), Replied, Off, 2, 1));
    run := Then(s0, run0, RecyclingOnce(s0, i, w), Decide(w), RecyclingTwice(s0, i, w));
  }

  lemma FreesOnce(s0: State, run0: seq<Action>, i: Tid, w: Tid) returns (run: seq<Action>)
    requires Fresh(s0, i, w) && Run(s0, run0) == Some(RecyclingTwice(s0, i, w))
    ensures Run(s0, run) == Some(FreeOnce(s0, i, w))
  {
    FreeOnceMemory(s0);
    var r := R(Some(w), Replied, Off, 2, 1);
    assert r.past + [r.now] == [TWICE];
    Recycles(RecyclingTwice(s0, i, w), i, 0, FreeMem(s0, Again(1), false, 1), SECOND);
    Becomes(s0, i, Holding(0, Recycling), Idle, w, Holding(0, Recycling), Holding(0, Recycling), Closed(false),
      Again(1), R(Some(w), Replied, Off, 2, 1), SECOND);
    run := Then(s0, run0, RecyclingTwice(s0, i, w), Recycle(i), FreeOnce(s0, i, w));
  }

  lemma FreesTwice(s0: State, run0: seq<Action>, i: Tid, w: Tid) returns (run: seq<Action>)
    requires Fresh(s0, i, w) && Run(s0, run0) == Some(FreeOnce(s0, i, w))
    ensures Run(s0, run) == Some(FreeTwice(s0, i, w))
  {
    assert [TWICE] + [NOTHING_YET] == [TWICE, NOTHING_YET];
    assert map[0 := Again(1)][0 := Again(2)] == map[0 := Again(2)];
    Recycles(FreeOnce(s0, i, w), w, 0, FreeMem(s0, Again(2), true, 2), Third(None, Free));
    Becomes(s0, i, Idle, Idle, w, Holding(0, Recycling), Idle, Again(1), Again(2), SECOND, Third(None, Free));
    run := Then(s0, run0, FreeOnce(s0, i, w), Recycle(w), FreeTwice(s0, i, w));
  }

  lemma FetchesOnce(s0: State, run0: seq<Action>, i: Tid, w: Tid) returns (run: seq<Action>)
    requires Fresh(s0, i, w) && Run(s0, run0) == Some(FreeTwice(s0, i, w))
    ensures Run(s0, run) == Some(FetchedOnce(s0, i, w))
  {
    Becomes(s0, i, Idle, Holding(0, Made), w, Idle, Idle, Again(2), Again(2), Third(None, Free),
      Third(Some(i), InUse));
    run := Then(s0, run0, FreeTwice(s0, i, w), Fetch(i), FetchedOnce(s0, i, w));
  }

  lemma FetchesTwice(s0: State, run0: seq<Action>, i: Tid, w: Tid) returns (run: seq<Action>)
    requires Fresh(s0, i, w) && Run(s0, run0) == Some(FetchedOnce(s0, i, w))
    ensures Run(s0, run) == Some(FetchedTwice(s0, i, w))
  {
    Becomes(s0, i, Holding(0, Made), Holding(0, Made), w, Idle, Holding(0, Made), Again(2), Again(2),
      Third(Some(i), InUse), Third(Some(w), InUse));
    run := Then(s0, run0, FetchedOnce(s0, i, w), Fetch(w), FetchedTwice(s0, i, w));
  }

  lemma PostsOnce(s0: State, run0: seq<Action>, i: Tid, w: Tid) returns (run: seq<Action>)
    requires Fresh(s0, i, w) && Run(s0, run0) == Some(FetchedTwice(s0, i, w))
    ensures Run(s0, run) == Some(PostedOnce(s0, i, w))
  {
    Becomes(s0, i, Holding(0, Made), Holding(0, Posted(Foreground)), w, Holding(0, Made), Holding(0, Made),
      Again(2), Again(2), Third(Some(w), InUse), Third(Some(w), InUse));
    run := Then(s0, run0, FetchedTwice(s0, i, w), Post(i, Foreground), PostedOnce(s0, i, w));
  }

  lemma MakesDirty(s0: State, run0: seq<Action>, i: Tid, w: Tid) returns (run: seq<Action>)
    requires Fresh(s0, i, w) && Run(s0, run0) == Some(PostedOnce(s0, i, w))
    ensures Run(s0, run) == Some(MadeDirty(s0, i, w))
  {
    Becomes(s0, i, Holding(0, Posted(Foreground)), Holding(0, WaitEnter), w, Holding(0, Made), Holding(0, Made),
      Again(2), Again(2).(dirty := true), Third(Some(w), InUse), Third(Some(w), InUse));
    run := Then(s0, run0, PostedOnce(s0, i, w), Message(i), MadeDirty(s0, i, w));
  }

  lemma PostsTwice(s0: State, run0: seq<Action>, i: Tid, w: Tid) returns (run: seq<Action>)
    requires Fresh(s0, i, w) && Run(s0, run0) == Some(MadeDirty(s0, i, w))
    ensures Run(s0, run) == Some(PostedTwice(s0, i, w))
  {
    Becomes(s0, i, Holding(0, WaitEnter), Holding(0, WaitEnter), w, Holding(0, Made),
      Holding(0, Posted(Foreground)), Again(2).(dirty := true), Again(2).(dirty := true), Third(Some(w), InUse),
      Third(Some(w), InUse));
    run := Then(s0, run0, MadeDirty(s0, i, w), Post(w, Foreground), PostedTwice(s0, i, w));
  }

  /** Both find room on the free list before either has put the ticket there, which then links to itself. */
  lemma IsFreeTwice(s0: State, run0: seq<Action>, i: Tid, w: Tid) returns (run: seq<Action>)
    requires Fresh(s0, i, w) && Run(s0, run0) == Some(DroppedTwice(s0, i, w, false)) && s0.m.maxFree > 0
    ensures Run(s0, run) == Some(FreeTwice(s0, i, w))
  {
    run := KeepsOnce(s0, run0, i, w);
    run := KeepsTwice(s0, run, i, w);
    run := FreesOnce(s0, run, i, w);
    run := FreesTwice(s0, run, i, w);
  }

  /** Two threads fetch it, and one queues its message. */
  lemma IsQueuedTwice(s0: State, run0: seq<Action>, i: Tid, w: Tid) returns (run: seq<Action>)
    requires Fresh(s0, i, w) && Run(s0, run0) == Some(FreeTwice(s0, i, w))
    ensures Run(s0, run) == Some(PostedTwice(s0, i, w))
  {
    run := FetchesOnce(s0, run0, i, w);
    run := FetchesTwice(s0, run, i, w);
    run := PostsOnce(s0, run, i, w);
    run := MakesDirty(s0, run, i, w);
    run := PostsTwice(s0, run, i, w);
  }

  /** A thread is about to queue a dirty ticket, where fuse_insert_message panics. */
  ghost predicate Panics(s: State) {
    exists j {:trigger s.Holds(j)} ::
      s.Holds(j) && s.th[j].stage.Posted? && s.Knows(s.th[j].t) && s.m.tk[s.th[j].t].dirty
  }

  /** Some interleaving leads from s0 to a panic. */
  ghost predicate CanPanic(s0: State) {
    exists run: seq<Action> {:trigger AnyRun(s0, run)} :: AnyRun(s0, run).Some? && Panics(AnyRun(s0, run).value)
  }

  lemma IsDroppedTwice(s0: State, i: Tid, w: Tid) returns (run: seq<Action>)
    requires Fresh(s0, i, w)
    ensures Run(s0, run) == Some(DroppedTwice(s0, i, w, false))
  {
    run := Allocates(s0, i, w);
    run := IsSent(s0, run, i, w, false);
    run := IsRead(s0, run, i, w, false);
    run := IsReleasedTwice(s0, run, i, w, false);
  }

  lemma PanicIsReachable(s0: State, i: Tid, w: Tid)
    requires Fresh(s0, i, w) && s0.m.maxFree > 0
    ensures CanPanic(s0)
  {
    var run := IsDroppedTwice(s0, i, w);
    run := IsFreeTwice(s0, run, i, w);
    run := IsQueuedTwice(s0, run, i, w);
    RunIsAnyRun(s0, run);
    assert PostedTwice(s0, i, w).Holds(w);
  }

  /** Exactly which sessions with at least two threads can get to the panic "ticket reused without
    * being refreshed": those that keep a free list.
    */
  lemma PanicExactly(s0: State, i: Tid, w: Tid)
    requires Init(s0) && i in s0.th && w in s0.th && i != w
    ensures CanPanic(s0) <==> s0.m.maxFree > 0
  {
    if s0.m.maxFree > 0 {
      PanicIsReachable(s0, i, w);
    } else {
      forall run: seq<Action> | AnyRun(s0, run).Some? ensures !Panics(AnyRun(s0, run).value) {
        var s := AnyRun(s0, run).value;
        forall j | s.Holds(j) && s.th[j].stage.Posted? ensures s.Knows(s.th[j].t) && !s.m.tk[s.th[j].t].dirty {
          NeverDirtyWithoutRecycling(s0, run, s, j);
        }
      }
    }
  }

  // ---- A second ticket ----------------------------------------------------------------------------

  /** Thread j has allocated ticket 1 in s. */
  function WithSecond(s: State, j: Tid): State {
    s.(m := AllocTicket(s.m), unlisted := s.unlisted + {1}).SetR(1, R(Some(j), NoMsg, Off, 0, 0))
      .Go(j, Holding(1, NewTicket))
  }

  lemma SecondIsAlive(s: State, j: Tid)
    requires AllAlive(s)
    ensures AllAlive(WithSecond(s, j))
  {
    forall u ensures !Freed(WithSecond(s, j), u) { assert !Freed(s, u); }
  }

  lemma AllocatesSecond(s0: State, run0: seq<Action>, s: State, j: Tid) returns (run: seq<Action>)
    requires Run(s0, run0) == Some(s) && s.At(j, Idle) && s.m.freeCount == 0 && s.m.ticketer == 1 && AllAlive(s)
    ensures Run(s0, run) == Some(WithSecond(s, j)) && AllAlive(WithSecond(s, j)) && run0 <= run
  {
    var s1 := s.Go(j, Alloc);
    run := Then(s0, run0, s, Fetch(j), s1);
    assert s1.Go(j, Holding(1, NewTicket)) == s.Go(j, Holding(1, NewTicket));
    forall u ensures !Freed(s1, u) { assert !Freed(s, u); }
    run := Then(s0, run, s1, Allocate(j), WithSecond(s, j));
    SecondIsAlive(s, j);
  }

  /** It is listed and, before the handshake is over, its thread goes to sleep, dead session or not. */
  function SecondAsleep(s: State, j: Tid): State {
    s.(m := ListTicket(s.m, 1), unlisted := s.unlisted - {1}).Go(j, Holding(1, InitSleep))
  }

  lemma ListsSecond(s0: State, run0: seq<Action>, s: State, j: Tid) returns (run: seq<Action>)
    requires Run(s0, run0) == Some(s) && s.At(j, Holding(1, NewTicket)) && AllAlive(s)
    requires s.m.ticketer == 2 && !s.m.inited
    ensures Run(s0, run) == Some(SecondAsleep(s, j)) && AllAlive(SecondAsleep(s, j)) && run0 <= run
  {
    run := Then(s0, run0, s, List(j), SecondAsleep(s, j));
    forall u ensures !Freed(SecondAsleep(s, j), u) { assert !Freed(s, u); }
  }

  // ---- The panic of fuse_pop_freeticks -----------------------------------------------------------

  ghost predicate FreshTrio(s0: State, i: Tid, w: Tid, j: Tid) {
    Fresh(s0, i, w) && j in s0.th && j != i && j != w
  }

  /** The memory of s0 after two allocations and the death of the session. */
  function TwoMem(s0: State, k: Ticket, n: Ticket, free: seq<Id>, freeCount: nat): Memory {
    Memory(map[0 := k, 1 := n], [], [], free, false, freeCount, [0, 1], 0, 2, true, false, s0.m.maxFree,
      s0.m.maxTickets)
  }

  /** Threads i and w are at p and q with ticket 0, whose record is r, and thread j at l with ticket 1. */
  function Trio(s0: State, i: Tid, p: Pc, w: Tid, q: Pc, j: Tid, l: Pc, m: Memory, r: Track, own: Track): State {
    State(m, s0.th[i := p][w := q][j := l], None, false, {}, map[0 := r, 1 := own], {}, false)
  }

  lemma TrioMoves(s0: State, i: Tid, p: Pc, p': Pc, w: Tid, q: Pc, q': Pc, j: Tid, l: Pc, l': Pc)
    requires i != w && w != j && j != i
    ensures s0.th[i := p][w := q][j := l][i := p'] == s0.th[i := p'][w := q][j := l]
    ensures s0.th[i := p][w := q][j := l][w := q'] == s0.th[i := p][w := q'][j := l]
    ensures s0.th[i := p][w := q][j := l][j := l'] == s0.th[i := p][w := q][j := l']
  {
  }

  lemma PairMoves<T>(k: T, k': T, n: T, n': T)
    ensures map[0 := k, 1 := n][0 := k'] == map[0 := k', 1 := n] && map[0 := k, 1 := n][1 := n'] == map[0 := k, 1 := n']
  {
  }

  const LATE := FRESH_TICKET.(dirty := true)
  const LATE_TOLD := LATE.(answered := true)
  const LATE_AGAIN := FRESH_TICKET.(age := 1)

  const LATE_FREE := Track(1, None, NoMsg, Off, Free, NOTHING_YET, [Tally(1, 0, 0, 0)])

  function LateDropped(j: Tid): Track { Track(0, Some(j), Lost, Off, InUse, Tally(1, 0, 0, 0), []) }

  function LateMade(s0: State, i: Tid, w: Tid, j: Tid): State {
    Trio(s0, i, Holding(0, Dropping), w, Holding(0, Dropping), j, Holding(1, Made),
      TwoMem(s0, Closed(false), New(false), [], 0), R(Some(w), Replied, Off, 2, 1), R(Some(j), NoMsg, Off, 0, 0))
  }

  function LatePosted(s0: State, i: Tid, w: Tid, j: Tid): State {
    Trio(s0, i, Holding(0, Dropping), w, Holding(0, Dropping), j, Holding(1, Posted(Foreground)),
      TwoMem(s0, Closed(false), New(false), [], 0), R(Some(w), Replied, Off, 2, 1), R(Some(j), NoMsg, Off, 0, 0))
  }

  function LateWaiting(s0: State, i: Tid, w: Tid, j: Tid): State {
    Trio(s0, i, Holding(0, Dropping), w, Holding(0, Dropping), j, Holding(1, WaitEnter),
      TwoMem(s0, Closed(false), LATE, [], 0), R(Some(w), Replied, Off, 2, 1), R(Some(j), NoMsg, Off, 0, 0))
  }

  function LateTold(s0: State, i: Tid, w: Tid, j: Tid): State {
    Trio(s0, i, Holding(0, Dropping), w, Holding(0, Dropping), j, Holding(1, Waited(ENOTCONN)),
      TwoMem(s0, Closed(false), LATE_TOLD, [], 0), R(Some(w), Replied, Off, 2, 1), R(Some(j), NoMsg, Off, 0, 0))
  }

  function AllDrop(s0: State, i: Tid, w: Tid, j: Tid): State {
    Trio(s0, i, Holding(0, Dropping), w, Holding(0, Dropping), j, Holding(1, Dropping),
      TwoMem(s0, Closed(false), LATE_TOLD, [], 0), R(Some(w), Replied, Off, 2, 1), LateDropped(j))
  }

  function OneKeeps(s0: State, i: Tid, w: Tid, j: Tid): State {
    Trio(s0, i, Holding(0, Recycling), w, Holding(0, Dropping), j, Holding(1, Dropping),
      TwoMem(s0, Closed(false), LATE_TOLD, [], 0), R(Some(w), Replied, Off, 2, 1), LateDropped(j))
  }

  function TwoKeep(s0: State, i: Tid, w: Tid, j: Tid): State {
    Trio(s0, i, Holding(0, Recycling), w, Holding(0, Dropping), j, Holding(1, Recycling),
      TwoMem(s0, Closed(false), LATE_TOLD, [], 0), R(Some(w), Replied, Off, 2, 1), LateDropped(j))
  }

  function AllKeep(s0: State, i: Tid, w: Tid, j: Tid): State {
    Trio(s0, i, Holding(0, Recycling), w, Holding(0, Recycling), j, Holding(1, Recycling),
      TwoMem(s0, Closed(false), LATE_TOLD, [], 0), R(Some(w), Replied, Off, 2, 1), LateDropped(j))
  }

  function OneIsFree(s0: State, i: Tid, w: Tid, j: Tid): State {
    Trio(s0, i, Idle, w, Holding(0, Recycling), j, Holding(1, Recycling), TwoMem(s0, Again(1), LATE_TOLD, [0], 1),
      SECOND, LateDropped(j))
  }

  function BothAreFree(s0: State, i: Tid, w: Tid, j: Tid): State {
    Trio(s0, i, Idle, w, Holding(0, Recycling), j, Idle, TwoMem(s0, Again(1), LATE_AGAIN, [0, 1], 2), SECOND,
      LATE_FREE)
  }

  function OneIsLost(s0: State, i: Tid, w: Tid, j: Tid): State {
    Trio(s0, i, Idle, w, Idle, j, Idle, TwoMem(s0, Again(2), LATE_AGAIN, [0], 3), Third(None, Free), LATE_FREE)
  }

  lemma LateIsWoken(s0: State, i: Tid, w: Tid, j: Tid)
    requires FreshTrio(s0, i, w, j)
    ensures Step(SecondAsleep(WithSecond(DroppedTwice(s0, i, w, false), j), j), WakeInitWaiters) ==
              Some(LateMade(s0, i, w, j))
  {
    var s := DroppedTwice(s0, i, w, false);
    var s1 := SecondAsleep(WithSecond(s, j), j);
    assert s1.m == TwoMem(s0, Closed(false), New(false), [], 0) by {
      assert s.m.tk[1 := New(false)] == map[0 := Closed(false), 1 := New(false)] && s.m.all + [1] == [0, 1];
    }
    assert s1.tr == map[0 := R(Some(w), Replied, Off, 2, 1), 1 := R(Some(j), NoMsg, Off, 0, 0)];
    assert s1.unlisted == {};
    assert WakeInit(s1.th) == LateMade(s0, i, w, j).th;
  }

  /** A third thread makes a request; the wake-up of fdata_set_dead lets it go on. */
  lemma ThirdStarts(s0: State, run0: seq<Action>, i: Tid, w: Tid, j: Tid) returns (run: seq<Action>)
    requires FreshTrio(s0, i, w, j) && Run(s0, run0) == Some(DroppedTwice(s0, i, w, false))
    ensures Run(s0, run) == Some(LateMade(s0, i, w, j))
  {
    var s := DroppedTwice(s0, i, w, false);
    run := AllocatesSecond(s0, run0, s, j);
    run := ListsSecond(s0, run, WithSecond(s, j), j);
    LateIsWoken(s0, i, w, j);
    run := Then(s0, run, SecondAsleep(WithSecond(s, j), j), WakeInitWaiters, LateMade(s0, i, w, j));
  }

  lemma LatePosts(s0: State, run0: seq<Action>, i: Tid, w: Tid, j: Tid) returns (run: seq<Action>)
    requires FreshTrio(s0, i, w, j) && Run(s0, run0) == Some(LateMade(s0, i, w, j))
    ensures Run(s0, run) == Some(LatePosted(s0, i, w, j))
  {
    TrioMoves(s0, i, Holding(0, Dropping), Holding(0, Dropping), w, Holding(0, Dropping), Holding(0, Dropping), j,
      Holding(1, Made), Holding(1, Posted(Foreground)));
    run := Then(s0, run0, LateMade(s0, i, w, j), Post(j, Foreground), LatePosted(s0, i, w, j));
  }

  lemma LateSends(s0: State, run0: seq<Action>, i: Tid, w: Tid, j: Tid) returns (run: seq<Action>)
    requires FreshTrio(s0, i, w, j) && Run(s0, run0) == Some(LatePosted(s0, i, w, j))
    ensures Run(s0, run) == Some(LateWaiting(s0, i, w, j))
  {
    TrioMoves(s0, i, Holding(0, Dropping), Holding(0, Dropping), w, Holding(0, Dropping), Holding(0, Dropping), j,
      Holding(1, Posted(Foreground)), Holding(1, WaitEnter));
    PairMoves(Closed(false), Closed(false), New(false), LATE);
    run := Then(s0, run0, LatePosted(s0, i, w, j), Message(j), LateWaiting(s0, i, w, j));
  }

  lemma LateIsTold(s0: State, run0: seq<Action>, i: Tid, w: Tid, j: Tid) returns (run: seq<Action>)
    requires FreshTrio(s0, i, w, j) && Run(s0, run0) == Some(LateWaiting(s0, i, w, j))
    ensures Run(s0, run) == Some(LateTold(s0, i, w, j))
  {
    TrioMoves(s0, i, Holding(0, Dropping), Holding(0, Dropping), w, Holding(0, Dropping), Holding(0, Dropping), j,
      Holding(1, WaitEnter), Holding(1, Waited(ENOTCONN)));
    PairMoves(Closed(false), Closed(false), LATE, LATE_TOLD);
    run := Then(s0, run0, LateWaiting(s0, i, w, j), Check(j), LateTold(s0, i, w, j));
  }

  /** A requester that has been told so drops its ticket. */
  lemma ToldDrops(s: State, j: Tid, t: Id)
    requires s.At(j, Holding(t, Waited(ENOTCONN))) && s.Knows(t) && s.m.tk[t].answered && s.AwMtxFree(t)
    ensures Step(s, React(j)) == Some(s.Release(j, t))
  {
    assert StepReact(s, j).Some?;
  }

  lemma LateRelease(s0: State, i: Tid, w: Tid, j: Tid)
    requires FreshTrio(s0, i, w, j)
    ensures LateTold(s0, i, w, j).Release(j, 1) == AllDrop(s0, i, w, j) && LateTold(s0, i, w, j).AwMtxFree(1)
  {
    TrioMoves(s0, i, Holding(0, Dropping), Holding(0, Dropping), w, Holding(0, Dropping), Holding(0, Dropping), j,
      Holding(1, Waited(ENOTCONN)), Holding(1, Dropping));
    var r := R(Some(w), Replied, Off, 2, 1);
    PairMoves(r, r, R(Some(j), NoMsg, Off, 0, 0), LateDropped(j));
  }

  lemma LateDrops(s0: State, run0: seq<Action>, i: Tid, w: Tid, j: Tid) returns (run: seq<Action>)
    requires FreshTrio(s0, i, w, j) && Run(s0, run0) == Some(LateTold(s0, i, w, j))
    ensures Run(s0, run) == Some(AllDrop(s0, i, w, j))
  {
    LateRelease(s0, i, w, j);
    ToldDrops(LateTold(s0, i, w, j), j, 1);
    run := Then(s0, run0, LateTold(s0, i, w, j), React(j), AllDrop(s0, i, w, j));
  }

  lemma FirstKeeps(s0: State, run0: seq<Action>, i: Tid, w: Tid, j: Tid) returns (run: seq<Action>)
    requires FreshTrio(s0, i, w, j) && Run(s0, run0) == Some(AllDrop(s0, i, w, j)) && s0.m.maxFree > 0
    ensures Run(s0, run) == Some(OneKeeps(s0, i, w, j))
  {
    TrioMoves(s0, i, Holding(0, Dropping), Holding(0, Recycling), w, Holding(0, Dropping), Holding(0, Dropping), j,
      Holding(1, Dropping), Holding(1, Dropping));
    run := Then(s0, run0, AllDrop(s0, i, w, j), Decide(i), OneKeeps(s0, i, w, j));
  }

  lemma SecondKeeps(s0: State, run0: seq<Action>, i: Tid, w: Tid, j: Tid) returns (run: seq<Action>)
    requires FreshTrio(s0, i, w, j) && Run(s0, run0) == Some(OneKeeps(s0, i, w, j)) && s0.m.maxFree > 0
    ensures Run(s0, run) == Some(TwoKeep(s0, i, w, j))
  {
    TrioMoves(s0, i, Holding(0, Recycling), Holding(0, Recycling), w, Holding(0, Dropping), Holding(0, Dropping), j,
      Holding(1, Dropping), Holding(1, Recycling));
    run := Then(s0, run0, OneKeeps(s0, i, w, j), Decide(j), TwoKeep(s0, i, w, j));
  }

  lemma ThirdKeeps(s0: State, run0: seq<Action>, i: Tid, w: Tid, j: Tid) returns (run: seq<Action>)
    requires FreshTrio(s0, i, w, j) && Run(s0, run0) == Some(TwoKeep(s0, i, w, j)) && s0.m.maxFree > 0
    ensures Run(s0, run) == Some(AllKeep(s0, i, w, j))
  {
    TrioMoves(s0, i, Holding(0, Recycling), Holding(0, Recycling), w, Holding(0, Dropping), Holding(0, Recycling),
      j, Holding(1, Recycling), Holding(1, Recycling));
    run := Then(s0, run0, TwoKeep(s0, i, w, j), Decide(w), AllKeep(s0, i, w, j));
  }

  lemma FirstFreeMemory(s0: State)
    ensures RecycleTicket(TwoMem(s0, Closed(false), LATE_TOLD, [], 0), 0) == TwoMem(s0, Again(1), LATE_TOLD, [0], 1)
  {
    var m := TwoMem(s0, Closed(false), LATE_TOLD, [], 0);
    PairMoves(Closed(false), Again(1), LATE_TOLD, LATE_TOLD);
    assert m.free + [0] == [0];
  }

  lemma FirstFrees(s0: State, run0: seq<Action>, i: Tid, w: Tid, j: Tid) returns (run: seq<Action>)
    requires FreshTrio(s0, i, w, j) && Run(s0, run0) == Some(AllKeep(s0, i, w, j))
    ensures Run(s0, run) == Some(OneIsFree(s0, i, w, j))
  {
    var r := R(Some(w), Replied, Off, 2, 1);
    assert r.past + [r.now] == [TWICE];
    FirstFreeMemory(s0);
    TrioMoves(s0, i, Holding(0, Recycling), Idle, w, Holding(0, Recycling), Holding(0, Recycling), j,
      Holding(1, Recycling), Holding(1, Recycling));
    PairMoves(Closed(false), Again(1), LATE_TOLD, LATE_TOLD);
    PairMoves(R(Some(w), Replied, Off, 2, 1), SECOND, LateDropped(j), LateDropped(j));
    Recycles(AllKeep(s0, i, w, j), i, 0, OneIsFree(s0, i, w, j).m, SECOND);
    run := Then(s0, run0, AllKeep(s0, i, w, j), Recycle(i), OneIsFree(s0, i, w, j));
  }

  lemma SecondFrees(s0: State, run0: seq<Action>, i: Tid, w: Tid, j: Tid) returns (run: seq<Action>)
    requires FreshTrio(s0, i, w, j) && Run(s0, run0) == Some(OneIsFree(s0, i, w, j))
    ensures Run(s0, run) == Some(BothAreFree(s0, i, w, j))
  {
    var r := LateDropped(j);
    assert r.past + [r.now] == LATE_FREE.past && [0] + [1] == [0, 1];
    TrioMoves(s0, i, Idle, Idle, w, Holding(0, Recycling), Holding(0, Recycling), j, Holding(1, Recycling), Idle);
    PairMoves(Again(1), Again(1), LATE_TOLD, LATE_AGAIN);
    PairMoves(SECOND, SECOND, LateDropped(j), LATE_FREE);
    Recycles(OneIsFree(s0, i, w, j), j, 1, BothAreFree(s0, i, w, j).m, LATE_FREE);
    run := Then(s0, run0, OneIsFree(s0, i, w, j), Recycle(j), BothAreFree(s0, i, w, j));
  }

  lemma ThirdFrees(s0: State, run0: seq<Action>, i: Tid, w: Tid, j: Tid) returns (run: seq<Action>)
    requires FreshTrio(s0, i, w, j) && Run(s0, run0) == Some(BothAreFree(s0, i, w, j))
    ensures Run(s0, run) == Some(OneIsLost(s0, i, w, j))
  {
    assert SECOND.past + [SECOND.now] == [TWICE, NOTHING_YET];
    assert UpTo([0, 1], 0) == [0] && !EndsIn([0, 1], 0);
    TrioMoves(s0, i, Idle, Idle, w, Holding(0, Recycling), Idle, j, Idle, Idle);
    PairMoves(Again(1), Again(2), LATE_AGAIN, LATE_AGAIN);
    PairMoves(SECOND, Third(None, Free), LATE_FREE, LATE_FREE);
    Recycles(BothAreFree(s0, i, w, j), w, 0, OneIsLost(s0, i, w, j).m, Third(None, Free));
    run := Then(s0, run0, BothAreFree(s0, i, w, j), Recycle(w), OneIsLost(s0, i, w, j));
  }

  /** It is told that the session is dead. */
  lemma AllAreDropped(s0: State, run0: seq<Action>, i: Tid, w: Tid, j: Tid) returns (run: seq<Action>)
    requires FreshTrio(s0, i, w, j) && Run(s0, run0) == Some(LateMade(s0, i, w, j))
    ensures Run(s0, run) == Some(AllDrop(s0, i, w, j))
  {
    run := LatePosts(s0, run0, i, w, j);
    run := LateSends(s0, run, i, w, j);
    run := LateIsTold(s0, run, i, w, j);
    run := LateDrops(s0, run, i, w, j);
  }

  /** All three find room on the free list before any has put its ticket there. */
  lemma AllAreKept(s0: State, run0: seq<Action>, i: Tid, w: Tid, j: Tid) returns (run: seq<Action>)
    requires FreshTrio(s0, i, w, j) && Run(s0, run0) == Some(AllDrop(s0, i, w, j)) && s0.m.maxFree > 0
    ensures Run(s0, run) == Some(AllKeep(s0, i, w, j))
  {
    run := FirstKeeps(s0, run0, i, w, j);
    run := SecondKeeps(s0, run, i, w, j);
    run := ThirdKeeps(s0, run, i, w, j);
  }

  /** The second push of ticket 0 cuts off ticket 1. */
  lemma AllAreFreed(s0: State, run0: seq<Action>, i: Tid, w: Tid, j: Tid) returns (run: seq<Action>)
    requires FreshTrio(s0, i, w, j) && Run(s0, run0) == Some(AllKeep(s0, i, w, j))
    ensures Run(s0, run) == Some(OneIsLost(s0, i, w, j))
  {
    run := FirstFrees(s0, run0, i, w, j);
    run := SecondFrees(s0, run, i, w, j);
    run := ThirdFrees(s0, run, i, w, j);
  }

  /** A thread is about to fetch a ticket, and fuse_pop_freeticks finds the list empty before its
    * counter is 0: "ticket count mismatch".
    */
  ghost predicate FindsMismatch(s: State, f: Tid) {
    s.At(f, Idle) && s.m.freeCount > 0 && s.m.free != [] && CountMismatch(s.m)
  }

  /** Some interleaving leads from s0 to this panic. */
  ghost predicate CanMismatch(s0: State) {
    exists run: seq<Action>, f: Tid {:trigger AnyRun(s0, run), s0.th[f]} ::
      AnyRun(s0, run).Some? && FindsMismatch(AnyRun(s0, run).value, f)
  }

  /** Exactly which sessions with at least three threads can get to it: those that keep a free list. */
  lemma MismatchExactly(s0: State, i: Tid, w: Tid, j: Tid)
    requires Init(s0) && i in s0.th && w in s0.th && j in s0.th && i != w && w != j && j != i
    ensures CanMismatch(s0) <==> s0.m.maxFree > 0
  {
    if s0.m.maxFree > 0 {
      var run := IsDroppedTwice(s0, i, w);
      run := ThirdStarts(s0, run, i, w, j);
      run := AllAreDropped(s0, run, i, w, j);
      run := AllAreKept(s0, run, i, w, j);
      run := AllAreFreed(s0, run, i, w, j);
      RunIsAnyRun(s0, run);
      assert FindsMismatch(OneIsLost(s0, i, w, j), i) && s0.th[i] == Idle;
    } else {
      forall run: seq<Action>, f: Tid | AnyRun(s0, run).Some? ensures !FindsMismatch(AnyRun(s0, run).value, f) {
        UsedByOne(s0, run, AnyRun(s0, run).value, 0);
      }
    }
  }

  // ---- A ticket freed under an interrupted requester ----------------------------------------------

  /** What fticket_destroy leaves of ticket 0, which thread i has dropped. */
  function Destroyed0(s: State, i: Tid): State
    requires 0 in s.tr
  {
    s.(m := DestroyTicket(s.m, 0)).SetR(0, s.tr[0].(life := Destroyed, owner := None)).Go(i, Idle)
  }

  lemma IsDestroyed(s0: State, run0: seq<Action>, s: State, i: Tid) returns (run: seq<Action>)
    requires Run(s0, run0) == Some(s) && s.At(i, Holding(0, Dropping)) && s.Knows(0) && s.m.tk[0].killl && AllAlive(s)
    ensures Run(s0, run) == Some(Destroyed0(s, i)) && Freed(Destroyed0(s, i), 0)
  {
    run := Then(s0, run0, s, Decide(i), Destroyed0(s, i));
  }

  lemma InterruptedDangles(s: State, i: Tid)
    requires s.At(i, Clearing(0, 0, 0)) && s.Knows(0) && s.awOwner == None && Freed(s, 0)
    ensures Dangles(s, Clear(i))
  {
    assert StepClear(s, i).Some?;
    assert 0 in Touched(s, Clear(i));
  }

  lemma InterruptedIsFreed(s0: State, i: Tid, w: Tid) returns (run: seq<Action>)
    requires Fresh(s0, i, w)
    ensures Run(s0, run) == Some(Destroyed0(ReplyDrops(s0, i, w), w))
  {
    run := Allocates(s0, i, w);
    run := IsMarked(s0, run, i, w);
    run := IsSent(s0, run, i, w, true);
    run := IsRead(s0, run, i, w, true);
    run := IsInterrupted(s0, run, i, w);
    run := IsHandled(s0, run, i, w);
    run := IsDestroyed(s0, run, ReplyDrops(s0, i, w), w);
  }

  /** From every fresh session with two threads a live run leads to a ticket that has been
    * destroyed while an interrupted requester has still to read its age, and goes on to do so.
    */
  lemma FreedUnderTheInterrupted(s0: State, i: Tid, w: Tid)
    requires Init(s0) && i in s0.th && w in s0.th && i != w
    ensures exists run: seq<Action> {:trigger Run(s0, run)} ::
              Run(s0, run).Some? && !Run(s0, run).value.m.dead && Dangles(Run(s0, run).value, Clear(i))
  {
    var run := InterruptedIsFreed(s0, i, w);
    InterruptedDangles(Run(s0, run).value, i);
  }

  // ---- A ticket freed in a dead session ------------------------------------------------------------

  lemma SecondDangles(s: State, w: Tid)
    requires s.At(w, Holding(0, Dropping)) && s.Knows(0) && Freed(s, 0)
    ensures Dangles(s, Decide(w))
  {
    assert StepDecide(s, w).Some?;
    assert 0 in Touched(s, Decide(w));
  }

  lemma SecondIsFreed(s0: State, i: Tid, w: Tid) returns (run: seq<Action>)
    requires Fresh(s0, i, w)
    ensures Run(s0, run) == Some(Destroyed0(DroppedTwice(s0, i, w, true), i))
  {
    run := Allocates(s0, i, w);
    run := IsMarked(s0, run, i, w);
    run := IsSent(s0, run, i, w, true);
    run := IsRead(s0, run, i, w, true);
    run := IsReleasedTwice(s0, run, i, w, true);
    run := IsDestroyed(s0, run, DroppedTwice(s0, i, w, true), i);
  }

  /** From every fresh session with two threads a run leads to two releases of one use, of which
    * the first frees the ticket that the second goes on to look at.
    */
  lemma FreedUnderTheSecond(s0: State, i: Tid, w: Tid)
    requires Init(s0) && i in s0.th && w in s0.th && i != w
    ensures exists run: seq<Action> {:trigger Run(s0, run)} ::
              Run(s0, run).Some? && Dangles(Run(s0, run).value, Decide(w))
  {
    var run := SecondIsFreed(s0, i, w);
    SecondDangles(Run(s0, run).value, w);
  }

  function DeadOnQueue(s0: State, i: Tid, w: Tid): State {
    Scene(s0, i, Holding(0, Posted(Foreground)), w, Idle, Mem(s0, Queued(true), [], [0], true),
      R(Some(i), NoMsg, OnAw, 0, 0), {})
  }

  function DeadWaiting(s0: State, i: Tid, w: Tid): State {
    Scene(s0, i, Holding(0, WaitEnter), w, Idle, Mem(s0, Sent(true), [], [0], true), R(Some(i), NoMsg, OnAw, 0, 0),
      {})
  }

  function DeadTold(s0: State, i: Tid, w: Tid): State {
    Scene(s0, i, Holding(0, Waited(ENOTCONN)), w, Idle, Mem(s0, Closed(true), [], [0], true),
      R(Some(i), NoMsg, OnAw, 0, 0), {})
  }

  function DeadDrops(s0: State, i: Tid, w: Tid): State {
    Scene(s0, i, Holding(0, Dropping), w, Idle, Mem(s0, Closed(true), [], [0], true), R(Some(i), Lost, Off, 1, 0),
      {})
  }

  lemma DiesOnQueue(s0: State, run0: seq<Action>, i: Tid, w: Tid) returns (run: seq<Action>)
    requires Fresh(s0, i, w) && Run(s0, run0) == Some(OnAnswerQueue(s0, i, w, true))
    ensures Run(s0, run) == Some(DeadOnQueue(s0, i, w))
  {
    Becomes(s0, i, Holding(0, Posted(Foreground)), Holding(0, Posted(Foreground)), w, Idle, Idle, Queued(true),
      Queued(true), R(Some(i), NoMsg, OnAw, 0, 0), R(Some(i), NoMsg, OnAw, 0, 0));
    run := Then(s0, run0, OnAnswerQueue(s0, i, w, true), SetSessionDead, DeadOnQueue(s0, i, w));
  }

  lemma GoesToWait(s0: State, run0: seq<Action>, i: Tid, w: Tid) returns (run: seq<Action>)
    requires Fresh(s0, i, w) && Run(s0, run0) == Some(DeadOnQueue(s0, i, w))
    ensures Run(s0, run) == Some(DeadWaiting(s0, i, w))
  {
    Becomes(s0, i, Holding(0, Posted(Foreground)), Holding(0, WaitEnter), w, Idle, Idle, Queued(true), Sent(true),
      R(Some(i), NoMsg, OnAw, 0, 0), R(Some(i), NoMsg, OnAw, 0, 0));
    run := Then(s0, run0, DeadOnQueue(s0, i, w), Message(i), DeadWaiting(s0, i, w));
  }

  lemma FindsDead(s0: State, run0: seq<Action>, i: Tid, w: Tid) returns (run: seq<Action>)
    requires Fresh(s0, i, w) && Run(s0, run0) == Some(DeadWaiting(s0, i, w))
    ensures Run(s0, run) == Some(DeadTold(s0, i, w))
  {
    FindsItDead(DeadWaiting(s0, i, w), i);
    Becomes(s0, i, Holding(0, WaitEnter), Holding(0, Waited(ENOTCONN)), w, Idle, Idle, Sent(true), Closed(true),
      R(Some(i), NoMsg, OnAw, 0, 0), R(Some(i), NoMsg, OnAw, 0, 0));
    run := Then(s0, run0, DeadWaiting(s0, i, w), Check(i), DeadTold(s0, i, w));
  }

  lemma OnQueueRelease(s0: State, i: Tid, w: Tid)
    requires Fresh(s0, i, w)
    ensures DeadTold(s0, i, w).Release(i, 0) == DeadDrops(s0, i, w) && DeadTold(s0, i, w).AwMtxFree(0)
  {
    Becomes(s0, i, Holding(0, Waited(ENOTCONN)), Holding(0, Dropping), w, Idle, Idle, Closed(true), Closed(true),
      R(Some(i), NoMsg, OnAw, 0, 0), R(Some(i), Lost, Off, 1, 0));
  }

  lemma DropsOnQueue(s0: State, run0: seq<Action>, i: Tid, w: Tid) returns (run: seq<Action>)
    requires Fresh(s0, i, w) && Run(s0, run0) == Some(DeadTold(s0, i, w))
    ensures Run(s0, run) == Some(DeadDrops(s0, i, w))
  {
    OnQueueRelease(s0, i, w);
    ToldDrops(DeadTold(s0, i, w), i, 0);
    run := Then(s0, run0, DeadTold(s0, i, w), React(i), DeadDrops(s0, i, w));
  }

  /** The session dies after the push on the answer queue; the requester drops the ticket and leaves it there. */
  lemma IsDroppedOnQueue(s0: State, run0: seq<Action>, i: Tid, w: Tid) returns (run: seq<Action>)
    requires Fresh(s0, i, w) && Run(s0, run0) == Some(OnAnswerQueue(s0, i, w, true))
    ensures Run(s0, run) == Some(DeadDrops(s0, i, w))
  {
    run := DiesOnQueue(s0, run0, i, w);
    run := GoesToWait(s0, run, i, w);
    run := FindsDead(s0, run, i, w);
    run := DropsOnQueue(s0, run, i, w);
  }

  lemma QueuedIsFreed(s0: State, i: Tid, w: Tid) returns (run: seq<Action>)
    requires Fresh(s0, i, w)
    ensures Run(s0, run) == Some(Destroyed0(DeadDrops(s0, i, w), i))
  {
    run := Allocates(s0, i, w);
    run := IsMarked(s0, run, i, w);
    run := Posts(s0, run, i, w, true);
    run := Queues(s0, run, i, w, true);
    run := IsDroppedOnQueue(s0, run, i, w);
    run := IsDestroyed(s0, run, DeadDrops(s0, i, w), i);
  }

  lemma FlushBegins(s: State, w: Tid) returns (s': State)
    requires s.At(w, Idle) && s.m.dead && s.awOwner == None
    ensures Run(s, [FlushBegin(w)]) == Some(s') && s'.At(w, Flushing) && s'.m == s.m && s'.tr == s.tr
  {
    s' := s.(awOwner := Some(w)).Go(w, Flushing);
    assert Touched(s, FlushBegin(w)) == [];
    OneStep(s, FlushBegin(w), s');
  }

  lemma FlushDangles(s: State, w: Tid)
    requires s.At(w, Flushing) && s.m.aw == [0] && s.Knows(0) && Freed(s, 0)
    ensures Dangles(s, FlushPop(w))
  {
    assert StepFlushPop(s, w).Some?;
    assert UpTo(s.m.aw, 0) == [0];
    assert 0 in Touched(s, FlushPop(w));
  }

  /** From every fresh session with two threads a run leads to a flush that is about to take a
    * freed ticket off the answer queue.
    */
  lemma FlushMeetsFreed(s0: State, i: Tid, w: Tid)
    requires Init(s0) && i in s0.th && w in s0.th && i != w
    ensures exists run: seq<Action> {:trigger Run(s0, run)} ::
              Run(s0, run).Some? && Dangles(Run(s0, run).value, FlushPop(w))
  {
    var run := QueuedIsFreed(s0, i, w);
    var s := Destroyed0(DeadDrops(s0, i, w), i);
    var s1 := FlushBegins(s, w);
    RunsJoin(s0, run, s, [FlushBegin(w)]);
    FlushDangles(s1, w);
    assert Run(s0, run + [FlushBegin(w)]) == Some(s1);
  }

  // ---- Threads that sleep for FUSE_INIT for ever --------------------------------------------------

  /** A reader whose buffer is too small kills the session without fdata_set_dead. */
  lemma BufferIsTooSmall(s0: State, run0: seq<Action>, s: State, w: Tid) returns (run: seq<Action>, s': State)
    requires Run(s0, run0) == Some(s) && AllAlive(s)
    requires s.At(w, Idle) && !s.m.dead && s.m.ms == [0] && s.Knows(0) && !s.m.tk[0].inval
    ensures Run(s0, run) == Some(s') && AllAlive(s') && run0 <= run
    ensures s'.At(w, Reading(0)) && OnlyMoves(s, s', w) && s'.m == PopMs(s.m) && s'.Knows(0)
      && s'.wakePending == s.wakePending
  {
    MessageIsPopped(s, w);
    s' := Step(s, ReadPop(w)).value;
    run := Then(s0, run0, s, ReadPop(w), s');
    forall u ensures !Freed(s', u) { assert !Freed(s, u); }
  }

  lemma SessionIsKilled(s: State, w: Tid)
    requires s.At(w, Reading(0)) && !s.m.dead && s.Knows(0) && !s.m.tk[0].inval
    ensures Step(s, ReadFinish(w, true, false)).Some?
    ensures var n := Step(s, ReadFinish(w, true, false)).value;
      n.m == SetDead(s.m) && OnlyMoves(s, n, w) && n.wakePending == s.wakePending
  {
  }

  /** First way: the thread is asleep in the live session, which then dies by the plain write
    * of FSESS_DEAD in fuse_device_read.
    */
  lemma StrandedByTheReader(s0: State, i: Tid, j: Tid, w: Tid)
    requires Init(s0) && i in s0.th && j in s0.th && w in s0.th && i != j && j != w && w != i
    ensures exists run: seq<Action>, more: seq<Action> {:trigger Run(s0, run), Run(s0, more)} ::
              Run(s0, run).Some? && !Run(s0, run).value.m.dead && InInitSleep(Run(s0, run).value, j)
              && run <= more && Run(s0, more).Some? && Stranded(Run(s0, more).value, j)
  {
    var run := Allocates(s0, i, w);
    run := IsSent(s0, run, i, w, false);
    run := AllocatesSecond(s0, run, OnBothQueues(s0, i, w, false), j);
    run := ListsSecond(s0, run, WithSecond(OnBothQueues(s0, i, w, false), j), j);
    var s := SecondAsleep(WithSecond(OnBothQueues(s0, i, w, false), j), j);
    var more, s1 := BufferIsTooSmall(s0, run, s, w);
    SessionIsKilled(s1, w);
    var s2 := Step(s1, ReadFinish(w, true, false)).value;
    more := Then(s0, more, s1, ReadFinish(w, true, false), s2);
    StaysAsleep(s2, j);
  }

  /** fdata_set_dead, and its one wake-up. */
  lemma DiesAndWakes(s0: State, run0: seq<Action>, s: State, j: Tid) returns (run: seq<Action>, s': State)
    requires Run(s0, run0) == Some(s) && AllAlive(s)
    requires s.At(j, Holding(1, NewTicket)) && s.m.ticketer == 2 && !s.m.inited && !s.m.dead
    ensures Run(s0, run) == Some(s') && AllAlive(s') && run0 <= run
    ensures s'.m == SetDead(s.m) && !s'.wakePending && s'.At(j, Holding(1, NewTicket))
  {
    var d := s.(m := SetDead(s.m), wakePending := true);
    run := Then(s0, run0, s, SetSessionDead, d);
    forall u ensures !Freed(d, u) { assert !Freed(s, u); }
    s' := d.(wakePending := false, th := WakeInit(d.th));
    run := Then(s0, run, d, WakeInitWaiters, s');
    forall u ensures !Freed(s', u) { assert !Freed(s, u); }
  }

  /** Second way: fdata_set_dead has been through its wake-up when the thread falls asleep. */
  lemma StrandedAfterTheWakeUp(s0: State, i: Tid, j: Tid, w: Tid)
    requires Init(s0) && i in s0.th && j in s0.th && w in s0.th && i != j && j != w && w != i
    ensures exists run: seq<Action>, more: seq<Action> {:trigger Run(s0, run), Run(s0, more)} ::
              Run(s0, run).Some? && Run(s0, run).value.m.dead && !InInitSleep(Run(s0, run).value, j)
              && run <= more && Run(s0, more).Some? && Stranded(Run(s0, more).value, j)
  {
    var run := Allocates(s0, i, w);
    run := AllocatesSecond(s0, run, Requesting(s0, i, w, false), j);
    var s1;
    run, s1 := DiesAndWakes(s0, run, WithSecond(Requesting(s0, i, w, false), j), j);
    var more := ListsSecond(s0, run, s1, j);
    StaysAsleep(SecondAsleep(s1, j), j);
  }
}
