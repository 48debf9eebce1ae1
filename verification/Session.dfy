/** struct fuse_ticket and struct fuse_data as objects: the critical sections of fuse_ipc.c
  * and fuse_device.c as methods, each proved to compute its function of TicketMemory.
  */
module Session {
  import opened Lists
  import opened TicketMemory

  class FuseTicket {
    const unique: Id
    var answered: bool
    var inval: bool
    var dirty: bool
    var killl: bool
    var age: nat
    var handler: Handler
    var errno: int
    var status: int
    /** tk_freetickets_link, the one link that the ticket has for the free list. */
    var freeNext: FuseTicket?
    /** tk_aw_mtx is not NULL: fticket_destroy frees it, and then the ticket. */
    var awMtx: bool

    constructor (u: Id)
      ensures unique == u && Value() == FRESH_TICKET && awMtx
    {
      unique := u;
      answered, inval, dirty, killl := false, false, false, false;
      age, handler, errno, status := 0, NoHandler, 0, 0;
      freeNext, awMtx := null, true;
    }

    function Value(): Ticket
      reads this
    {
      Ticket(answered, inval, dirty, killl, age, handler, errno, status)
    }

    /** Under tk_aw_mtx: FT_ANSW and the outcome. */
    method Settle(err: int)
      requires awMtx
      modifies this`answered, this`errno
      ensures Value() == old(Value()).Answer(err)
    {
      answered, errno := true, err;
    }

    /** fticket_refresh. */
    method Refresh()
      modifies this`answered, this`inval, this`dirty, this`killl, this`errno, this`status, this`age
      ensures Value() == old(Value()).Refresh()
    {
      answered, inval, dirty, killl := false, false, false, false;
      errno, status := 0, 0;
      age := (age + 1) % AGE_SPAN;
    }
  }

  function Ids(q: seq<FuseTicket>): (r: seq<Id>)
    ensures |r| == |q| && forall i :: 0 <= i < |q| ==> r[i] == q[i].unique
  {
    seq(|q|, i requires 0 <= i < |q| => q[i].unique)
  }

  lemma IdsAppend(q: seq<FuseTicket>, t: FuseTicket)
    ensures Ids(q + [t]) == Ids(q) + [t.unique]
  {
  }

  lemma HeadDropped(q: seq<FuseTicket>)
    requires q != []
    ensures Ids(q[1..]) == Ids(q)[1..] && forall t :: t in q[1..] ==> t in q
  {
  }

  lemma Unlinked(q: seq<FuseTicket>, i: nat)
    requires i < |q| && forall k :: 0 <= k < i ==> q[k].unique != q[i].unique
    ensures Ids(q[..i] + q[i + 1..]) == Without(Ids(q), q[i].unique)
    ensures forall t :: t in q[..i] + q[i + 1..] ==> t in q
  {
    WithoutAt(Ids(q), i);
    assert Ids(q[..i] + q[i + 1..]) == Ids(q)[..i] + Ids(q)[i + 1..];
  }

  /** None of these tickets has been destroyed. */
  ghost predicate Alive(q: seq<FuseTicket>)
    reads q
  {
    forall t :: t in q ==> t.awMtx
  }

  lemma {:induction false} UpToIds(q: seq<FuseTicket>, t: FuseTicket)
    requires forall x :: x in q && x.unique == t.unique ==> x == t
    ensures Ids(UpTo(q, t)) == UpTo(Ids(q), t.unique)
    ensures forall x :: x in UpTo(q, t) ==> x in q
  {
    if q != [] && q[0] != t {
      HeadDropped(q);
      UpToIds(q[1..], t);
      assert Ids([q[0]] + UpTo(q[1..], t)) == [q[0].unique] + Ids(UpTo(q[1..], t));
    }
  }

  lemma IdsOnce(q: seq<FuseTicket>, t: FuseTicket)
    requires forall x :: x in q && x.unique == t.unique ==> x == t
    ensures t.unique in Ids(q) <==> t in q
    ensures EndsIn(Ids(q), t.unique) <==> EndsIn(q, t)
  {
    if t in q {
      var i :| 0 <= i < |q| && q[i] == t;
      assert Ids(q)[i] == t.unique;
    }
    if t.unique in Ids(q) {
      var i :| 0 <= i < |q| && Ids(q)[i] == t.unique;
      assert q[i] in q;
    }
  }

  /** The walk along the links after t has been pushed. */
  function Pushed(q: seq<FuseTicket>, t: FuseTicket): seq<FuseTicket> {
    if t in q then UpTo(q, t) else q + [t]
  }

  lemma PushedWalk(q: seq<FuseTicket>, t: FuseTicket)
    requires forall i, j :: 0 <= i < j < |q| ==> q[i] != q[j]
    ensures var w := Pushed(q, t);
      && w != [] && w[|w| - 1] == t && (t in q ==> w <= q)
      && (forall i, j :: 0 <= i < j < |w| ==> w[i] != w[j])
  {
    UpToEnds(q, t);
    if t in q {
      var w := UpTo(q, t);
      forall i, j | 0 <= i < j < |w| ensures w[i] != w[j] { assert w[i] == q[i] && w[j] == q[j]; }
    }
  }

  /** freetickets_head, a STAILQ of the queue macros of the kernel, and freeticket_counter. */
  class FreeList {
    /** stqh_first. */
    var first: FuseTicket?
    /** The ticket whose link stqh_last points to; null if that is stqh_first. */
    var last: FuseTicket?
    var counter: nat
    /** What a walk along the links finds, and whether it goes on for ever at its last ticket. */
    ghost var walk: seq<FuseTicket>
    ghost var loops: bool

    ghost predicate Valid()
      reads this, walk`freeNext
    {
      && (forall i, j :: 0 <= i < j < |walk| ==> walk[i] != walk[j]) && (loops ==> walk != [])
      && (if walk == [] then first == null && last == null else first == walk[0] && last == walk[|walk| - 1])
      && (forall k {:trigger walk[k].freeNext} :: 0 <= k < |walk| - 1 ==> walk[k].freeNext == walk[k + 1])
      && (walk != [] ==> walk[|walk| - 1].freeNext == if loops then walk[|walk| - 1] else null)
    }

    constructor ()
      ensures Valid() && walk == [] && !loops && counter == 0
    {
      first, last, walk, loops, counter := null, null, [], false, 0;
    }

    ghost function End(): set<FuseTicket>
      reads this
    {
      if last == null then {} else {last}
    }

    /** fuse_pop_freeticks: STAILQ_REMOVE_HEAD and the counter. */
    method Pop() returns (t: FuseTicket)
      requires Valid() && first != null && counter > 0
      modifies this
      ensures Valid() && loops == old(loops) && counter == old(counter) - 1 && t == old(first)
      ensures walk == if loops && |old(walk)| == 1 then old(walk) else old(walk)[1..]
    {
      t := first;
      first := t.freeNext;
      if first == null { last := null; }
      counter := counter - 1;
      if !loops || |walk| > 1 { walk := walk[1..]; }
    }

    /** fuse_push_freeticks: STAILQ_INSERT_TAIL, also of a ticket that is on the list, and the counter. */
    method InsertTail(t: FuseTicket)
      requires Valid()
      modifies this`first, this`last, this`counter, this`walk, this`loops, t`freeNext, End()`freeNext
      ensures Valid() && counter == old(counter) + 1
      ensures walk == Pushed(old(walk), t) && loops == EndsIn(old(walk), t)
    {
      t.freeNext := null;
      if last == null { first := t; } else { last.freeNext := t; }
      last := t;
      counter := counter + 1;
      PushedWalk(walk, t);
      walk, loops := Pushed(walk, t), EndsIn(walk, t);
    }

    /** The same, in the numbers of the tickets. */
    method Push(t: FuseTicket)
      requires Valid() && forall x :: x in walk && x.unique == t.unique ==> x == t
      modifies this`first, this`last, this`counter, this`walk, this`loops, t`freeNext, End()`freeNext
      ensures Valid() && counter == old(counter) + 1 && (forall x :: x in walk ==> x in old(walk) || x == t)
      ensures var q := old(Ids(walk)); Ids(walk) == if t.unique in q then UpTo(q, t.unique) else q + [t.unique]
      ensures loops == EndsIn(old(Ids(walk)), t.unique)
    {
      UpToIds(walk, t);
      IdsOnce(walk, t);
      IdsAppend(walk, t);
      InsertTail(t);
    }
  }

  class FuseData {
    var msHead: seq<FuseTicket>
    var awHead: seq<FuseTicket>
    const freeTickets: FreeList
    var allTickets: seq<FuseTicket>
    var deadTicketCounter: nat
    var ticketer: nat
    var dead: bool
    var inited: bool
    const maxFreeTickets: nat
    const maxTickets: nat
    /** Every ticket ever allocated, by number. */
    ghost var known: seq<FuseTicket>

    ghost predicate Knows(t: FuseTicket)
      reads this`known
    {
      t.unique < |known| && known[t.unique] == t
    }

    ghost predicate KnowsAll(q: seq<FuseTicket>)
      reads this`known
    {
      forall t :: t in q ==> Knows(t)
    }

    /** All tickets on the queues and lists are known. That the links of the free list are in order
      * is freeTickets.Valid(), which the methods that do not use that list cannot disturb.
      */
    ghost predicate Valid()
      reads this, freeTickets
    {
      && |known| == ticketer && (forall u :: 0 <= u < |known| ==> known[u].unique == u)
      && KnowsAll(msHead) && KnowsAll(awHead) && KnowsAll(freeTickets.walk) && KnowsAll(allTickets)
    }

    ghost function Tickets(): map<Id, Ticket>
      reads this`known, known
    {
      map u | 0 <= u < |known| :: known[u].Value()
    }

    ghost function View(): Memory
      reads this, known, freeTickets
    {
      Memory(Tickets(), Ids(msHead), Ids(awHead),
             Ids(freeTickets.walk), freeTickets.loops, freeTickets.counter, Ids(allTickets), deadTicketCounter,
             ticketer, dead, inited, maxFreeTickets, maxTickets)
    }

    /** fdata_alloc. */
    constructor (maxFree: nat, maxAll: nat)
      ensures Valid() && freeTickets.Valid()
      ensures View() == Memory(map[], [], [], [], false, 0, [], 0, 0, false, false, maxFree, maxAll)
    {
      msHead, awHead, allTickets, known := [], [], [], [];
      freeTickets := new FreeList();
      deadTicketCounter, ticketer := 0, 0;
      dead, inited := false, false;
      maxFreeTickets, maxTickets := maxFree, maxAll;
    }

    lemma InIds(q: seq<FuseTicket>, t: FuseTicket)
      requires Valid() && Knows(t) && forall x :: x in q ==> Knows(x)
      ensures t.unique in Ids(q) <==> t in q
    {
      if t in q {
        var i :| 0 <= i < |q| && q[i] == t;
        assert Ids(q)[i] == t.unique;
      }
      if t.unique in Ids(q) {
        var i :| 0 <= i < |q| && Ids(q)[i] == t.unique;
        assert q[i] in q;
      }
    }

    /** fuse_pop_freeticks; its panic "ticket count mismatch" is excluded by the precondition. */
    method PopFreeTicks() returns (t: FuseTicket)
      requires Valid() && freeTickets.Valid() && freeTickets.first != null && freeTickets.counter > 0
      requires !CountMismatch(View())
      modifies freeTickets
      ensures Valid() && freeTickets.Valid() && Knows(t) && t == old(freeTickets.first)
      ensures View() == PopFree(old(View()))
    {
      HeadDropped(freeTickets.walk);
      assert freeTickets.walk[0] in freeTickets.walk;
      t := freeTickets.Pop();
    }

    method LinkFree(t: FuseTicket)
      requires Valid() && freeTickets.Valid() && Knows(t)
      modifies freeTickets`first, freeTickets`last, freeTickets`counter, freeTickets`walk, freeTickets`loops
      modifies t`freeNext, freeTickets.End()`freeNext
      ensures Valid() && freeTickets.Valid() && freeTickets.counter == old(freeTickets.counter) + 1
      ensures var q := old(Ids(freeTickets.walk));
        Ids(freeTickets.walk) == if t.unique in q then UpTo(q, t.unique) else q + [t.unique]
      ensures freeTickets.loops == EndsIn(old(Ids(freeTickets.walk)), t.unique)
      ensures Tickets() == old(Tickets())
    {
      freeTickets.Push(t);
      forall u | 0 <= u < |known| ensures known[u].Value() == old(known[u].Value()) { }
    }

    /** fuse_push_freeticks. */
    method PushFreeTicks(t: FuseTicket)
      requires Valid() && freeTickets.Valid() && Knows(t)
      modifies freeTickets`first, freeTickets`last, freeTickets`counter, freeTickets`walk, freeTickets`loops
      modifies t`freeNext, freeTickets.End()`freeNext
      ensures Valid() && freeTickets.Valid() && View() == PushFree(old(View()), t.unique)
    {
      LinkFree(t);
    }

    /** fticket_alloc. */
    method NewTicket() returns (t: FuseTicket)
      requires Valid()
      modifies this`ticketer, this`known
      ensures Valid() && Knows(t) && fresh(t) && t.unique == old(ticketer) && known == old(known) + [t]
      ensures View() == AllocTicket(old(View()))
    {
      t := new FuseTicket(ticketer);
      ticketer, known := ticketer + 1, known + [t];
      assert View().tk == AllocTicket(old(View())).tk;
    }

    /** fuse_push_allticks. */
    method PushAllTicks(t: FuseTicket)
      requires Valid() && Knows(t)
      modifies this`allTickets
      ensures Valid() && View() == ListTicket(old(View()), t.unique)
    {
      IdsAppend(allTickets, t);
      allTickets := allTickets + [t];
    }

    /** fuse_ticket_fetch up to the point where it waits for FUSE_INIT or returns; its two panics
      * are excluded by the precondition.
      */
    method TicketFetch() returns (t: FuseTicket, wait: bool, err: bool)
      requires Valid() && freeTickets.Valid()
      requires freeTickets.counter > 0 ==> freeTickets.first != null && !CountMismatch(View())
      modifies freeTickets, this`ticketer, this`known, this`allTickets
      ensures Valid() && freeTickets.Valid() && Knows(t)
      ensures var m := old(View());
        if m.freeCount == 0
        then fresh(t) && t.unique == m.ticketer && View() == ListTicket(AllocTicket(m), m.ticketer)
        else t.unique == m.free[0] && View() == PopFree(m)
      ensures wait == MustWaitForInit(View()) && err == (!wait && TooManyTickets(View()))
    {
      if freeTickets.counter == 0 {
        t := NewTicket();
        PushAllTicks(t);
      } else {
        t := PopFreeTicks();
      }
      wait := !inited && ticketer > 1;
      err := !wait && maxTickets != 0 && ticketer - deadTicketCounter > maxTickets;
    }

    lemma OneTicketChanged(was: Memory, t: FuseTicket)
      requires Valid() && Knows(t) && was.tk.Keys == View().tk.Keys
      requires forall u :: 0 <= u < |known| && u != t.unique ==> was.tk[u] == known[u].Value()
      ensures View().tk == was.tk[t.unique := t.Value()]
    {
    }

    /** TAILQ_FOREACH: the position of the first ticket numbered u. */
    method Find(q: seq<FuseTicket>, u: Id) returns (i: nat)
      ensures i <= |q| && (forall k :: 0 <= k < i ==> q[k].unique != u)
      ensures i < |q| <==> u in Ids(q)
      ensures i < |q| ==> q[i].unique == u
    {
      i := 0;
      while i < |q| && q[i].unique != u
        invariant i <= |q| && forall k :: 0 <= k < i ==> q[k].unique != u
      {
        i := i + 1;
      }
      if i < |q| { assert Ids(q)[i] == u; }
    }

    method Remove(q: seq<FuseTicket>, t: FuseTicket) returns (rest: seq<FuseTicket>)
      ensures Ids(rest) == Without(Ids(q), t.unique) && forall x :: x in rest ==> x in q
    {
      var i := Find(q, t.unique);
      if i < |q| {
        Unlinked(q, i);
        rest := q[..i] + q[i + 1..];
      } else {
        WithoutAbsent(Ids(q), t.unique);
        rest := q;
      }
    }

    /** fuse_remove_allticks. */
    method RemoveAllTicks(t: FuseTicket)
      requires Valid() && Knows(t)
      modifies this`allTickets, this`deadTicketCounter
      ensures Valid() && View() == DestroyTicket(old(View()), t.unique)
      ensures forall x :: x in allTickets ==> x in old(allTickets)
    {
      deadTicketCounter := deadTicketCounter + 1;
      allTickets := Remove(allTickets, t);
    }

    /** fuse_remove_allticks and fticket_destroy. */
    method DestroyOne(t: FuseTicket)
      requires Valid() && Knows(t) && t.awMtx
      modifies this`allTickets, this`deadTicketCounter, t`awMtx
      ensures Valid() && View() == DestroyTicket(old(View()), t.unique) && !t.awMtx
    {
      RemoveAllTicks(t);
      t.awMtx := false;
      OneTicketChanged(old(View()), t);
    }

    /** fticket_refresh and fuse_push_freeticks. */
    method Recycle(t: FuseTicket)
      requires Valid() && freeTickets.Valid() && Knows(t)
      modifies freeTickets, t`answered, t`inval, t`dirty, t`killl, t`errno, t`status, t`age
      modifies t`freeNext, freeTickets.End()`freeNext
      ensures Valid() && freeTickets.Valid() && View() == RecycleTicket(old(View()), t.unique)
    {
      t.Refresh();
      OneTicketChanged(old(View()), t);
      PushFreeTicks(t);
    }

    /** fuse_ticket_drop. */
    method TicketDrop(t: FuseTicket)
      requires Valid() && freeTickets.Valid() && Knows(t) && t.awMtx
      modifies this`allTickets, this`deadTicketCounter, freeTickets, t, freeTickets.End()`freeNext
      ensures Valid() && freeTickets.Valid() && View() == DropTicket(old(View()), t.unique)
      ensures t.awMtx == !MustDie(old(View()), t.unique)
    {
      if maxFreeTickets <= freeTickets.counter || t.killl {
        DestroyOne(t);
      } else {
        Recycle(t);
      }
    }

    /** fuse_insert_callback. */
    method InsertCallback(t: FuseTicket, h: Handler)
      requires Valid() && Knows(t)
      modifies this`awHead, t`handler
      ensures Valid()
      ensures var m := old(View());
        View() == if m.dead then m else PushAw(SetTicket(m, t.unique, m.tk[t.unique].(handler := h)), t.unique)
    {
      if !dead {
        t.handler := h;
        IdsAppend(awHead, t);
        awHead := awHead + [t];
      }
      OneTicketChanged(old(View()), t);
    }

    /** fuse_insert_message; its panic on a dirty ticket is the precondition. */
    method InsertMessage(t: FuseTicket)
      requires Valid() && Knows(t) && !t.dirty
      modifies this`msHead, t`dirty
      ensures Valid()
      ensures var m := SetTicket(old(View()), t.unique, old(t.Value()).(dirty := true));
        View() == if m.dead then m else PushMs(m, t.unique)
    {
      t.dirty := true;
      if !dead {
        IdsAppend(msHead, t);
        msHead := msHead + [t];
      }
      OneTicketChanged(old(View()), t);
    }

    /** The checks of fticket_wait_answer under tk_aw_mtx. */
    method WaitAnswer(t: FuseTicket) returns (r: WaitCheck)
      requires Valid() && Knows(t) && t.awMtx
      modifies t`answered
      ensures Valid() && r == CheckWait(old(View()), t.unique)
      ensures var m := old(View());
        View() == if r == SessionDead then SetTicket(m, t.unique, m.tk[t.unique].(answered := true)) else m
    {
      if t.answered {
        r := AlreadyAnswered;
      } else if dead {
        t.answered := true;
        r := SessionDead;
      } else {
        r := MustSleep;
      }
      OneTicketChanged(old(View()), t);
    }

    /** The search of fdisp_wait_answ for its own ticket after an interrupted wait. */
    method ForgetHandler(t: FuseTicket, age: nat)
      requires Valid() && Knows(t) && t.awMtx && Alive(awHead)
      modifies t`handler
      ensures Valid() && View() == ClearHandler(old(View()), t.unique, age)
    {
      var i := Find(awHead, t.unique);
      if i < |awHead| && t.age == age {
        t.handler := NoHandler;
      }
      OneTicketChanged(old(View()), t);
    }

    /** An interrupted requester whose ticket is not answered marks it so, and clears its handler if its
      * use of the ticket is still on the answer queue.
      */
    method GiveUp(t: FuseTicket)
      requires Valid() && Knows(t) && t.awMtx && Alive(awHead)
      modifies t`answered, t`handler
      ensures Valid()
      ensures var k := old(t.Value()).(answered := true);
        View() == ClearHandler(SetTicket(old(View()), t.unique, k), t.unique, t.age)
    {
      var age := t.age;
      t.answered := true;
      OneTicketChanged(old(View()), t);
      ForgetHandler(t, age);
    }

    /** The end of fdisp_wait_answ, after a wait that ended with waited: the ticket is kept with an
      * answer, left to the writer of the reply, or dropped.
      */
    method ConcludeWait(t: FuseTicket, waited: int) returns (err: int)
      requires Valid() && freeTickets.Valid() && Knows(t) && t.awMtx && Alive(awHead)
      modifies this`allTickets, this`deadTicketCounter, freeTickets, t, freeTickets.End()`freeNext
      ensures Valid() && freeTickets.Valid()
      ensures err == if waited != 0 then waited else if old(t.errno) != 0 then EIO else old(t.status)
      ensures var m, k := old(View()), old(t.Value());
        View() == if err == 0 then m
                  else if waited != 0 && !k.answered
                  then ClearHandler(SetTicket(m, t.unique, k.(answered := true)), t.unique, k.age)
                  else DropTicket(m, t.unique)
    {
      err := waited;
      if waited != 0 && !t.answered {
        GiveUp(t);
        return;
      }
      if waited == 0 {
        if t.errno != 0 { err := EIO; } else { err := t.status; }
      }
      if err != 0 { TicketDrop(t); }
    }

    /** fuse_device_read takes the next message; slept: it has been in msleep, and takes the message
      * without another look at FSESS_DEAD.
      */
    method PopMessage(slept: bool) returns (t: FuseTicket?)
      requires Valid()
      modifies this`msHead
      ensures Valid()
      ensures t == null <==> (old(View()).dead && !slept) || old(View()).ms == []
      ensures View() == if t == null then old(View()) else PopMs(old(View()))
      ensures t != null ==> Knows(t) && t.unique == old(View()).ms[0]
    {
      t := null;
      if (slept || !dead) && msHead != [] {
        HeadDropped(msHead);
        var head := msHead[0];
        assert head in msHead;
        t, msHead := head, msHead[1..];
      }
    }

    /** The search of fuse_device_write for the ticket of a reply. */
    method TakeFromAnswerQueue(u: Id) returns (t: FuseTicket?)
      requires Valid()
      modifies this`awHead
      ensures Valid()
      ensures t == null <==> u !in old(View()).aw
      ensures View() == if t == null then old(View()) else RemoveAw(old(View()), u)
      ensures t != null ==> Knows(t) && t.unique == u && t in old(awHead)
    {
      var i := Find(awHead, u);
      t := null;
      if i < |awHead| {
        Unlinked(awHead, i);
        var found := awHead[i];
        assert found in awHead;
        t, awHead := found, awHead[..i] + awHead[i + 1..];
        assert forall x :: x in awHead ==> x in old(awHead);
      }
    }

    /** fuse_standard_handler after fticket_pull; wake tells whether the requester is woken. */
    method StandardHandle(t: FuseTicket, err: int) returns (wake: bool)
      requires Valid() && freeTickets.Valid() && Knows(t) && t.awMtx
      modifies this`allTickets, this`deadTicketCounter, freeTickets, t, freeTickets.End()`freeNext
      ensures Valid() && freeTickets.Valid() && wake == !old(t.answered)
      ensures View() == if wake then SetTicket(old(View()), t.unique, old(t.Value()).Answer(err))
                        else DropTicket(old(View()), t.unique)
    {
      wake := !t.answered;
      if wake {
        t.Settle(err);
        OneTicketChanged(old(View()), t);
      } else {
        TicketDrop(t);
      }
    }

    /** The reply's header is copied into the ticket; fticket_pull may ask for its end. */
    method Record(t: FuseTicket, status: int, kill: bool)
      requires Valid() && Knows(t)
      modifies t`status, t`killl
      ensures Valid()
      ensures t.Value() == old(t.Value()).(status := status, killl := old(t.killl) || kill)
      ensures View() == SetTicket(old(View()), t.unique, t.Value())
    {
      t.status, t.killl := status, t.killl || kill;
      OneTicketChanged(old(View()), t);
    }

    /** Recording the header and then the outcome, or dropping the ticket, is handling the reply. */
    lemma RecordAndSettle(m: Memory, u: Id, status: int, err: int, kill: bool, m1: Memory, m2: Memory)
      requires u in m.tk && m.tk[u].handler != NoHandler
      requires var k := m.tk[u].(status := status, killl := m.tk[u].killl || kill);
        m1 == SetTicket(m, u, k) && m2 == if k.answered then DropTicket(m1, u)
                                          else SetTicket(m1, u, k.Answer(if status != 0 then 0 else err))
      ensures m2 == Handled(m, u, status, err, kill)
    {
    }

    method CallHandler(t: FuseTicket, status: int, err: int, kill: bool)
      requires Valid() && freeTickets.Valid() && Knows(t) && t.awMtx && t.handler != NoHandler
      modifies this`allTickets, this`deadTicketCounter, freeTickets, t, freeTickets.End()`freeNext
      ensures Valid() && freeTickets.Valid()
      ensures View() == Handled(old(View()), t.unique, status, err, kill)
    {
      ghost var m := View();
      assert m.tk[t.unique] == t.Value();
      Record(t, status, kill);
      ghost var m1 := View();
      var wake := StandardHandle(t, if status != 0 then 0 else err);
      RecordAndSettle(m, t.unique, status, err, kill, m1, View());
    }

    /** fuse_device_write once it has the ticket; status, err and kill stand for what the
      * reply's header and fticket_pull yield.
      */
    method Handle(t: FuseTicket, status: int, err: int, kill: bool)
      requires Valid() && freeTickets.Valid() && Knows(t) && t.awMtx
      modifies this`allTickets, this`deadTicketCounter, freeTickets, t, freeTickets.End()`freeNext
      ensures Valid() && freeTickets.Valid() && View() == Handled(old(View()), t.unique, status, err, kill)
    {
      if t.handler == NoHandler {
        TicketDrop(t);
      } else {
        CallHandler(t, status, err, kill);
      }
    }

    /** fuse_device_write from the search to the end. */
    method DeviceWrite(u: Id, status: int, err: int, kill: bool) returns (found: bool)
      requires Valid() && freeTickets.Valid() && Alive(awHead)
      modifies this`awHead, this`allTickets, this`deadTicketCounter, freeTickets, awHead
      modifies freeTickets.End()`freeNext
      ensures Valid() && freeTickets.Valid() && found == (u in old(View()).aw)
      ensures u in old(View()).aw ==> u in old(View()).tk
      ensures View() == if found then Reply(old(View()), u, status, err, kill) else old(View())
    {
      var t := TakeFromAnswerQueue(u);
      found := t != null;
      if t != null { Handle(t, status, err, kill); }
    }

    /** fuse_aw_pop. */
    method PopAnswerQueue() returns (t: FuseTicket)
      requires Valid() && awHead != []
      modifies this`awHead
      ensures Valid() && t == old(awHead)[0] && awHead == old(awHead)[1..] && View() == PopAw(old(View()))
    {
      HeadDropped(awHead);
      t, awHead := awHead[0], awHead[1..];
    }

    /** The flush of fuse_device_close and fuse_device_kill: every ticket of the answer queue
      * is answered with ENOTCONN and the queue is empty.
      */
    method FlushAnswerQueue()
      requires Valid() && Alive(awHead)
      modifies this`awHead, awHead`answered, awHead`errno
      ensures Valid() && View().aw == []
      ensures View().(aw := old(View()).aw, tk := old(View()).tk) == old(View())
      ensures forall u :: 0 <= u < |known| ==>
        View().tk[u] == if u in old(View()).aw then old(View()).tk[u].Answer(ENOTCONN) else old(View()).tk[u]
    {
      ghost var queue := awHead;
      var n := 0;
      while awHead != []
        invariant Valid() && n <= |queue| && awHead == queue[n..]
        invariant forall t :: t in queue[..n] ==> t.Value() == old(t.Value()).Answer(ENOTCONN)
        invariant forall t :: t in queue[n..] && t !in queue[..n] ==> t.Value() == old(t.Value())
        decreases |awHead|
      {
        assert queue[n..] == [queue[n]] + queue[n + 1..] && queue[..n + 1] == queue[..n] + [queue[n]];
        assert queue[n] in queue;
        assert queue[n].awMtx;
        var t := PopAnswerQueue();
        t.Settle(ENOTCONN);
        n := n + 1;
      }
      assert queue[..n] == queue;
      forall u | 0 <= u < |known|
        ensures known[u].Value() ==
                  if u in Ids(queue) then old(known[u].Value()).Answer(ENOTCONN) else old(known[u].Value())
      {
        InIds(queue, known[u]);
      }
    }

    /** fdata_destroy: the loop over fuse_pop_allticks ends, and has destroyed each listed
      * ticket once, in the order of the list.
      */
    method Destroy() returns (destroyed: seq<FuseTicket>)
      requires Valid()
      modifies this`allTickets, this`deadTicketCounter
      ensures Valid() && destroyed == old(allTickets)
      ensures View() == old(View()).(all := [], deadCount := old(View()).deadCount + |old(View()).all|)
    {
      destroyed := [];
      while allTickets != []
        invariant Valid() && destroyed + allTickets == old(allTickets)
        invariant deadTicketCounter == old(deadTicketCounter) + |destroyed|
        decreases |allTickets|
      {
        HeadDropped(allTickets);
        var t := allTickets[0];
        deadTicketCounter := deadTicketCounter + 1;
        allTickets := allTickets[1..];
        destroyed := destroyed + [t];
      }
    }
  }
}
