/** Ticket numbers, ticket lists and their counters, over every run of a session, live or dead. */
module TicketCounts {
  import opened Lists
  import opened TicketMemory
  import opened TicketProtocol
  import opened TicketFrame

  // ---- Numbers -------------------------------------------------------------------

  ghost predicate Unused(s: State, t: Id) {
    && t !in s.m.tk && t !in s.tr && t !in s.unlisted
    && multiset(s.m.aw)[t] == 0 && multiset(s.m.ms)[t] == 0
    && t !in s.m.free && multiset(s.m.all)[t] == 0
    && (forall u: Use {:trigger u in s.daemon} :: u in s.daemon ==> u.id != t)
    && (forall j {:trigger s.th[j]} :: j in s.th ==> !Mentions(s.th[j], t))
  }

  ghost predicate NumberOk(s: State, t: Id) {
    if t < s.m.ticketer then s.Knows(t) else Unused(s, t)
  }

  /** Tickets are numbered 0, 1, ... as they are allocated, and no other number occurs. */
  ghost predicate Numbered(s: State) {
    forall t {:trigger NumberOk(s, t)} :: NumberOk(s, t)
  }

  /** Nothing is said about a number that has not been handed out. */
  lemma Named(s: State)
    requires Numbered(s)
    ensures forall t {:trigger t in s.m.free} :: t in s.m.free ==> s.Knows(t) && t < s.m.ticketer
    ensures forall t {:trigger t in s.m.aw} :: t in s.m.aw ==> s.Knows(t) && t < s.m.ticketer
    ensures forall t {:trigger t in s.m.ms} :: t in s.m.ms ==> s.Knows(t) && t < s.m.ticketer
    ensures forall j {:trigger s.th[j]} :: j in s.th && !Nowhere(s.th[j]) ==>
              s.Knows(s.th[j].t) && s.th[j].t < s.m.ticketer
    ensures forall u: Use {:trigger u in s.daemon} :: u in s.daemon ==> s.Knows(u.id) && u.id < s.m.ticketer
  {
    forall t | t in s.m.free ensures s.Knows(t) && t < s.m.ticketer { assert NumberOk(s, t); }
    forall t | t in s.m.aw ensures s.Knows(t) && t < s.m.ticketer { assert NumberOk(s, t) && t in multiset(s.m.aw); }
    forall t | t in s.m.ms ensures s.Knows(t) && t < s.m.ticketer { assert NumberOk(s, t) && t in multiset(s.m.ms); }
    forall j | j in s.th && !Nowhere(s.th[j]) ensures s.Knows(s.th[j].t) && s.th[j].t < s.m.ticketer {
      assert NumberOk(s, s.th[j].t);
    }
    forall u: Use | u in s.daemon ensures s.Knows(u.id) && u.id < s.m.ticketer { assert NumberOk(s, u.id); }
  }

  /** The ticket that a step works on has been handed out, unless the step hands it out. */
  lemma SubjectIsKnown(s: State, a: Action, t: Id)
    requires Numbered(s) && Subject(s, a) == Some(t) && (a.TakeReply? ==> a.use in s.daemon)
    ensures if a.Allocate? then t == s.m.ticketer && Unused(s, t) else t < s.m.ticketer && s.Knows(t)
  {
    Named(s);
    assert NumberOk(s, t);
  }

  lemma StepNumbers(s: State, a: Action, s': State)
    requires Numbered(s) && Step(s, a) == Some(s')
    ensures Numbered(s')
  {
    StepGrows(s, a, s');
    forall t: Id ensures NumberOk(s', t) {
      assert NumberOk(s, t);
      if Subject(s, a) == Some(t) {
        SubjectIsKnown(s, a, t);
        assert a.Allocate? ==> StepAllocate(s, a.i) == Some(s');
      } else {
        StepAway(s, a, s', t);
      }
    }
  }

  // ---- Tickets that are being allocated -------------------------------------------------

  /** A ticket not yet on alltickets is with the one thread that is allocating it, and nowhere else. */
  ghost predicate PrivateOk(s: State, t: Id) {
    && (t in s.unlisted ==>
          && t < s.m.ticketer && multiset(s.m.aw)[t] == 0 && multiset(s.m.ms)[t] == 0
          && t !in s.m.free && multiset(s.m.all)[t] == 0
          && (forall u: Use {:trigger u in s.daemon} :: u in s.daemon ==> u.id != t)
          && (forall j, k {:trigger s.th[j], s.th[k]} ::
                j in s.th && k in s.th && Mentions(s.th[j], t) && Mentions(s.th[k], t) ==> j == k)
          && exists j :: s.At(j, Holding(t, NewTicket)))
    && forall j {:trigger s.th[j]} :: j in s.th && s.th[j] == Holding(t, NewTicket) ==> t in s.unlisted
  }

  lemma AwayKeepsPrivate(s: State, s': State, t: Id)
    requires PrivateOk(s, t) && Away(s, s', t)
    ensures PrivateOk(s', t)
  {
    if t in s.unlisted {
      var j :| s.At(j, Holding(t, NewTicket));
      assert s'.At(j, Holding(t, NewTicket));
    }
  }

  lemma AllocateKeepsPrivate(s: State, i: Tid, s': State)
    requires Unused(s, s.m.ticketer) && StepAllocate(s, i) == Some(s')
    ensures PrivateOk(s', s.m.ticketer)
  {
    assert s'.At(i, Holding(s.m.ticketer, NewTicket));
  }

  lemma ListKeepsPrivate(s: State, i: Tid, s': State, t: Id)
    requires PrivateOk(s, t) && StepList(s, i) == Some(s') && Mentions(s.th[i], t)
    ensures PrivateOk(s', t)
  {
  }

  lemma NotQueued(s: State, t: Id)
    requires multiset(s.m.aw)[t] == 0 && multiset(s.m.ms)[t] == 0
    ensures t !in s.m.aw && t !in s.m.ms
  {
    assert t !in multiset(s.m.aw) && t !in multiset(s.m.ms);
  }

  /** Only a thread at an unlisted ticket works on it. */
  lemma ActsAt(s: State, a: Action, t: Id)
    requires PrivateOk(s, t) && t in s.unlisted && Subject(s, a) == Some(t) && !a.Allocate?
    requires a.TakeReply? ==> a.use in s.daemon
    ensures Actor(a).Some? && s.At(a.i, Holding(t, NewTicket))
  {
    NotQueued(s, t);
    var j :| s.At(j, Holding(t, NewTicket));
    assert Actor(a).Some? && a.i in s.th && Mentions(s.th[a.i], t);
    assert j == a.i;
  }

  lemma NobodyGoesBack(s: State, a: Action, s': State, t: Id)
    requires Moves(s, a, s') && PrivateOk(s, t) && t !in s.unlisted && !a.Allocate? && !a.List?
    ensures PrivateOk(s', t)
  {
  }

  lemma SubjectKeepsPrivate(s: State, a: Action, s': State, t: Id)
    requires Numbered(s) && PrivateOk(s, t) && Step(s, a) == Some(s') && Subject(s, a) == Some(t)
    ensures PrivateOk(s', t)
  {
    StepMoves(s, a, s');
    if a.Allocate? { SubjectIsKnown(s, a, t); AllocateKeepsPrivate(s, a.i, s'); }
    else if a.List? { ListKeepsPrivate(s, a.i, s', t); }
    else if t in s.unlisted { SubjectIsKnown(s, a, t); ActsAt(s, a, t); }
    else { NobodyGoesBack(s, a, s', t); }
  }

  lemma StepKeepsPrivate(s: State, a: Action, s': State, t: Id)
    requires Numbered(s) && PrivateOk(s, t) && Step(s, a) == Some(s')
    ensures PrivateOk(s', t)
  {
    if Subject(s, a) == Some(t) {
      SubjectKeepsPrivate(s, a, s', t);
    } else {
      StepAway(s, a, s', t);
      AwayKeepsPrivate(s, s', t);
    }
  }

  // ---- Destruction and the counters ----------------------------------------------------------

  /** Step a is the part of fuse_ticket_drop that destroys t. */
  predicate Destroys(s: State, a: Action, t: Id) {
    a.Decide? && s.At(a.i, Holding(t, Dropping)) && s.Knows(t) && MustDie(s.m, t)
  }

  /** alltickets loses a ticket exactly when it is destroyed, and gains it exactly when it is listed. */
  function AllAfter(s: State, a: Action): seq<Id> {
    if a.List? && s.Holds(a.i) then s.m.all + [s.th[a.i].t]
    else if a.Decide? && s.Holds(a.i) && Destroys(s, a, s.th[a.i].t) then Without(s.m.all, s.th[a.i].t)
    else s.m.all
  }

  ghost predicate SameFree(m: Memory, m': Memory) {
    m'.free == m.free && m'.loop == m.loop && m'.freeCount == m.freeCount
  }

  /** What one step does to the free list and its counter. */
  ghost predicate FreeMove(s: State, a: Action, s': State) {
    if a.Recycle? then s.Holds(a.i) && s.th[a.i].stage.Recycling? && SameFree(PushFree(s.m, s.th[a.i].t), s'.m)
    else if a.Fetch? && s.m.freeCount > 0 then
      s.m.free != [] && !CountMismatch(s.m) && SameFree(PopFree(s.m), s'.m)
    else SameFree(s.m, s'.m)
  }

  /** What one step does to alltickets and to the counters. */
  ghost predicate CountersMove(s: State, a: Action, s': State) {
    && s'.m.all == AllAfter(s, a) && FreeMove(s, a, s')
    && Listed(s') - Listed(s) ==
         One(Subject(s, a).Some? && Destroys(s, a, Subject(s, a).value) && Subject(s, a).value !in s.m.all)
  }

  /** By how much the tickets destroyed, listed, or being allocated exceed those handed out. */
  function Listed(s: State): int {
    s.m.deadCount + |s.m.all| + |s.unlisted| - s.m.ticketer
  }

  lemma AllocateCounts(s: State, i: Tid, s': State)
    requires StepAllocate(s, i) == Some(s') && s.m.ticketer !in s.unlisted
    ensures CountersMove(s, Allocate(i), s')
  {
  }

  lemma ListCounts(s: State, i: Tid, s': State)
    requires StepList(s, i) == Some(s') && s.th[i].t in s.unlisted
    ensures CountersMove(s, List(i), s')
  {
  }

  lemma FetchingCounts(s: State, a: Action, s': State)
    requires Numbered(s) && IsFetching(a) && StepFetching(s, a) == Some(s')
    requires Subject(s, a).Some? ==> PrivateOk(s, Subject(s, a).value)
    ensures CountersMove(s, a, s')
  {
    match a
    case Allocate(i) =>
      assert NumberOk(s, s.m.ticketer);
      AllocateCounts(s, i, s');
    case List(i) => ListCounts(s, i, s');
    case _ =>
  }

  ghost predicate SameCounters(m: Memory, m': Memory) {
    SameFree(m, m') && m'.all == m.all && m'.deadCount == m.deadCount
    && m'.ticketer == m.ticketer
  }

  lemma PostingCounts(s: State, a: Action, s': State)
    requires IsPosting(a) && StepSending(s, a) == Some(s')
    ensures SameCounters(s.m, s'.m)
  {
  }

  lemma SendingCounts(s: State, a: Action, s': State)
    requires IsSending(a) && StepSending(s, a) == Some(s')
    ensures SameCounters(s.m, s'.m)
  {
    if IsPosting(a) { PostingCounts(s, a, s'); }
  }

  lemma DecideCounts(s: State, i: Tid, s': State)
    requires StepDecide(s, i) == Some(s')
    ensures CountersMove(s, Decide(i), s')
  {
    WithoutCounts(s.m.all, s.th[i].t);
  }

  lemma RecycleCounts(s: State, i: Tid, s': State)
    requires StepRecycle(s, i) == Some(s')
    ensures CountersMove(s, Recycle(i), s')
  {
  }

  lemma ReactCounts(s: State, i: Tid, s': State)
    requires StepReact(s, i) == Some(s')
    ensures SameCounters(s.m, s'.m) && s'.unlisted == s.unlisted
  {
  }

  lemma WaitedCounts(s: State, a: Action, s': State)
    requires IsSettling(a) && StepSettling(s, a) == Some(s') && !a.Decide? && !a.Recycle?
    ensures SameCounters(s.m, s'.m) && s'.unlisted == s.unlisted
  {
    if a.React? { ReactCounts(s, a.i, s'); }
  }

  lemma SettlingCounts(s: State, a: Action, s': State)
    requires IsSettling(a) && StepSettling(s, a) == Some(s')
    ensures CountersMove(s, a, s')
  {
    match a
    case Decide(i) => DecideCounts(s, i, s');
    case Recycle(i) => RecycleCounts(s, i, s');
    case _ => WaitedCounts(s, a, s');
  }

  lemma ReadFinishCounts(s: State, i: Tid, tooSmall: bool, delivered: bool, s': State)
    requires StepReadFinish(s, i, tooSmall, delivered) == Some(s')
    ensures SameCounters(s.m, s'.m)
  {
  }

  lemma ServingCounts(s: State, a: Action, s': State)
    requires IsServing(a) && StepServing(s, a) == Some(s')
    ensures SameCounters(s.m, s'.m)
  {
    if a.ReadFinish? { ReadFinishCounts(s, a.i, a.tooSmall, a.delivered, s'); }
  }

  lemma FlushingCounts(s: State, a: Action, s': State)
    requires IsFlushing(a) && StepFlushing(s, a) == Some(s')
    ensures SameCounters(s.m, s'.m)
  {
  }

  lemma OtherStepsCount(s: State, a: Action, s': State)
    requires !a.Fetch? && !a.List? && !a.Decide? && !a.Recycle? && SameCounters(s.m, s'.m) && s'.unlisted == s.unlisted
    ensures CountersMove(s, a, s')
  {
  }

  lemma StepCounts(s: State, a: Action, s': State)
    requires Numbered(s) && Step(s, a) == Some(s')
    requires Subject(s, a).Some? ==> PrivateOk(s, Subject(s, a).value)
    ensures CountersMove(s, a, s')
  {
    if IsFetching(a) { FetchingCounts(s, a, s'); }
    else if IsSettling(a) { SettlingCounts(s, a, s'); }
    else {
      if IsSending(a) { SendingCounts(s, a, s'); }
      else if IsServing(a) { ServingCounts(s, a, s'); }
      else { FlushingCounts(s, a, s'); }
      StepMoves(s, a, s');
      OtherStepsCount(s, a, s');
    }
  }

  // ---- Destroyed tickets ------------------------------------------------------------------------

  /** Nobody but fticket_destroy ends the life of a ticket, and only a step that takes it from
    * the free list or puts it there could give it another.
    */
  ghost predicate LifeMoves(s: State, a: Action, s': State, t: Id) {
    Freed(s', t) <==> Destroys(s, a, t) || (Freed(s, t) && !a.Fetch? && !a.Recycle?)
  }

  lemma FetchingLife(s: State, a: Action, s': State, t: Id)
    requires IsFetching(a) && StepFetching(s, a) == Some(s') && Subject(s, a) == Some(t) && s.Knows(t) && !a.Allocate?
    ensures LifeMoves(s, a, s', t)
  {
  }

  lemma SendingLife(s: State, a: Action, s': State, t: Id)
    requires IsSending(a) && StepSending(s, a) == Some(s') && Subject(s, a) == Some(t) && s.Knows(t)
    ensures LifeMoves(s, a, s', t)
  {
  }

  lemma SettlingLife(s: State, a: Action, s': State, t: Id)
    requires IsSettling(a) && StepSettling(s, a) == Some(s') && Subject(s, a) == Some(t) && s.Knows(t)
    ensures LifeMoves(s, a, s', t)
  {
  }

  lemma ReadFinishLife(s: State, i: Tid, tooSmall: bool, delivered: bool, s': State, t: Id)
    requires StepReadFinish(s, i, tooSmall, delivered) == Some(s') && s.th[i].t == t
    ensures LifeMoves(s, ReadFinish(i, tooSmall, delivered), s', t)
  {
  }

  lemma ServingLife(s: State, a: Action, s': State, t: Id)
    requires IsServing(a) && StepServing(s, a) == Some(s') && Subject(s, a) == Some(t) && s.Knows(t)
    ensures LifeMoves(s, a, s', t)
  {
    if a.ReadFinish? { ReadFinishLife(s, a.i, a.tooSmall, a.delivered, s', t); }
  }

  lemma FlushingLife(s: State, a: Action, s': State, t: Id)
    requires IsFlushing(a) && StepFlushing(s, a) == Some(s') && Subject(s, a) == Some(t) && s.Knows(t)
    ensures LifeMoves(s, a, s', t)
  {
  }

  lemma SubjectLife(s: State, a: Action, s': State, t: Id)
    requires Step(s, a) == Some(s') && Subject(s, a) == Some(t) && s.Knows(t) && !a.Allocate?
    ensures LifeMoves(s, a, s', t)
  {
    if IsFetching(a) { FetchingLife(s, a, s', t); }
    else if IsSending(a) { SendingLife(s, a, s', t); }
    else if IsSettling(a) { SettlingLife(s, a, s', t); }
    else if IsServing(a) { ServingLife(s, a, s', t); }
    else if IsFlushing(a) { FlushingLife(s, a, s', t); }
  }

  /** A step uses the memory of the ticket that it works on; but a reply to a ticket that is not
    * queued does not even find it.
    */
  lemma SubjectIsTouched(s: State, a: Action, t: Id)
    requires Subject(s, a) == Some(t) && !a.Allocate? && !a.TakeReply?
    ensures Freed(s, t) ==> UsesFreed(s, a)
  {
    assert t in Touched(s, a);
  }

  // ---- Whole runs ------------------------------------------------------------------------------

  /** How often run has destroyed ticket t. */
  function Destructions(s0: State, run: seq<Action>, t: Id): nat
    requires AnyRun(s0, run).Some?
  {
    if run == [] then 0
    else
      var last := |run| - 1;
      Destructions(s0, run[..last], t) + One(Destroys(AnyRun(s0, run[..last]).value, run[last], t))
  }

  /** The lists agree with d, the number of times that ticket t has been destroyed. */
  ghost predicate HistoryOk(s: State, t: Id, d: nat) {
    && PrivateOk(s, t) && d == One(Freed(s, t))
    && (t in s.unlisted ==> d == 0)
    && multiset(s.m.all)[t] == One(t < s.m.ticketer && t !in s.unlisted && d == 0)
  }

  /** The ticket that a step destroys, or takes off the list of those being allocated. */
  lemma DestroysListed(s: State, a: Action, s': State, t: Id)
    requires Numbered(s) && PrivateOk(s, t) && Moves(s, a, s') && Subject(s, a) == Some(t) && !a.Allocate?
    requires a.TakeReply? ==> a.use in s.daemon
    ensures t < s.m.ticketer && s.Knows(t)
    ensures a.List? || (s'.unlisted == s.unlisted && t !in s.unlisted)
  {
    SubjectIsKnown(s, a, t);
    if t in s.unlisted { ActsAt(s, a, t); }
  }

  lemma AllocateKeepsHistory(s: State, a: Action, s': State, d: nat)
    requires HistoryOk(s, s.m.ticketer, d) && CountersMove(s, a, s') && Unused(s, s.m.ticketer)
    requires a.Allocate? && StepAllocate(s, a.i) == Some(s') && PrivateOk(s', s.m.ticketer)
    ensures HistoryOk(s', s.m.ticketer, d)
  {
  }

  lemma ListedKeepsHistory(s: State, a: Action, s': State, t: Id, d: nat)
    requires HistoryOk(s, t, d) && CountersMove(s, a, s') && Moves(s, a, s') && PrivateOk(s', t)
    requires LifeMoves(s, a, s', t)
    requires t < s.m.ticketer <= s'.m.ticketer && Actor(a).Some? && a.i in s.th && Subject(s, a) == Some(t)
    requires !a.Allocate? && (Freed(s, t) ==> a.TakeReply?)
    requires if a.List? then s.At(a.i, Holding(t, NewTicket)) && t !in s'.unlisted
             else s'.unlisted == s.unlisted && t !in s.unlisted
    ensures HistoryOk(s', t, d + One(Destroys(s, a, t)))
  {
    WithoutCounts(s.m.all, t);
  }

  lemma UsedKeepsHistory(s: State, a: Action, s': State, t: Id, d: nat)
    requires Numbered(s) && HistoryOk(s, t, d) && Step(s, a) == Some(s') && !UsesFreed(s, a) && CountersMove(s, a, s')
    requires Moves(s, a, s') && Subject(s, a) == Some(t) && PrivateOk(s', t) && !a.Allocate? && s.m.ticketer <= s'.m.ticketer
    ensures HistoryOk(s', t, d + One(Destroys(s, a, t)))
  {
    DestroysListed(s, a, s', t);
    StepFits(s, a);
    SubjectLife(s, a, s', t);
    if !a.TakeReply? { SubjectIsTouched(s, a, t); }
    ListedKeepsHistory(s, a, s', t, d);
  }

  lemma SubjectKeepsHistory(s: State, a: Action, s': State, t: Id, d: nat)
    requires Numbered(s) && HistoryOk(s, t, d) && Next(s, a) == Some(s') && CountersMove(s, a, s')
    requires Subject(s, a) == Some(t) && PrivateOk(s', t)
    ensures HistoryOk(s', t, d + One(Destroys(s, a, t)))
  {
    StepMoves(s, a, s');
    StepGrows(s, a, s');
    if a.Allocate? {
      SubjectIsKnown(s, a, t);
      AllocateKeepsHistory(s, a, s', d);
    } else {
      UsedKeepsHistory(s, a, s', t, d);
    }
  }

  lemma StepKeepsHistory(s: State, a: Action, s': State, t: Id, d: nat)
    requires Numbered(s) && HistoryOk(s, t, d) && Next(s, a) == Some(s') && CountersMove(s, a, s')
    ensures HistoryOk(s', t, d + One(Destroys(s, a, t)))
  {
    StepKeepsPrivate(s, a, s', t);
    if Subject(s, a) == Some(t) { SubjectKeepsHistory(s, a, s', t, d); } else { StepAway(s, a, s', t); }
  }

  /** What every interleaving keeps, while the session lives and after it has died. */
  ghost predicate Accounted(s0: State, run: seq<Action>)
    requires AnyRun(s0, run).Some?
  {
    var s := AnyRun(s0, run).value;
    && Numbered(s) && Listed(s) == 0
    && (forall t: Id {:trigger HistoryOk(s, t, Destructions(s0, run, t))} :: HistoryOk(s, t, Destructions(s0, run, t)))
  }

  lemma InitIsAccounted(s0: State)
    requires Init(s0)
    ensures Accounted(s0, [])
  {
    forall t: Id ensures HistoryOk(s0, t, Destructions(s0, [], t)) { }
    forall t: Id ensures NumberOk(s0, t) { }
  }

  /** A ticket that a step destroys is on alltickets. */
  lemma DestroyedOnce(s: State, a: Action, s': State, t: Id, d: nat)
    requires Numbered(s) && HistoryOk(s, t, d) && Next(s, a) == Some(s') && Destroys(s, a, t)
    ensures t in s.m.all && Subject(s, a) == Some(t)
  {
    SubjectIsKnown(s, a, t);
    SubjectIsTouched(s, a, t);
    if t in s.unlisted { ActsAt(s, a, t); }
    assert t in s.m.all <==> t in multiset(s.m.all);
  }

  lemma {:induction false} RunIsAccounted(s0: State, run: seq<Action>)
    requires Init(s0) && AnyRun(s0, run).Some?
    ensures Accounted(s0, run)
  {
    if run == [] {
      InitIsAccounted(s0);
    } else {
      var before, a := run[..|run| - 1], run[|run| - 1];
      RunIsAccounted(s0, before);
      var mid, s := AnyRun(s0, before).value, AnyRun(s0, run).value;
      StepNumbers(mid, a, s);
      if t :| Subject(mid, a) == Some(t) {
        assert HistoryOk(mid, t, Destructions(s0, before, t));
        if Destroys(mid, a, t) { DestroyedOnce(mid, a, s, t, Destructions(s0, before, t)); }
      }
      StepCounts(mid, a, s);
      forall t: Id ensures HistoryOk(s, t, Destructions(s0, run, t)) {
        StepKeepsHistory(mid, a, s, t, Destructions(s0, before, t));
      }
    }
  }

  // ---- The counters in every run -----------------------------------------------------------------

  /** Over every interleaving, in the life of the session and after it: no ticket is destroyed
    * twice; a ticket is on alltickets once, if it has been listed and not been destroyed, and
    * else not at all; and the numbers handed out are the tickets destroyed, listed or being
    * allocated.
    */
  lemma TicketsAreCounted(s0: State, run: seq<Action>, s: State, t: Id)
    requires Init(s0) && AnyRun(s0, run) == Some(s)
    ensures Destructions(s0, run, t) == One(Freed(s, t))
    ensures multiset(s.m.all)[t] == One(t < s.m.ticketer && t !in s.unlisted && Destructions(s0, run, t) == 0)
    ensures s.m.ticketer == s.m.deadCount + |s.m.all| + |s.unlisted|
  {
    RunIsAccounted(s0, run);
    assert HistoryOk(s, t, Destructions(s0, run, t));
  }

  /** A ticket is unlisted exactly while one thread is between fticket_alloc and fuse_push_allticks with it. */
  lemma UnlistedIsBeingAllocated(s0: State, run: seq<Action>, s: State, t: Id)
    requires Init(s0) && AnyRun(s0, run) == Some(s)
    ensures t in s.unlisted <==> exists i :: s.At(i, Holding(t, NewTicket))
    ensures forall i, j :: s.At(i, Holding(t, NewTicket)) && s.At(j, Holding(t, NewTicket)) ==> i == j
  {
    RunIsAccounted(s0, run);
    assert HistoryOk(s, t, Destructions(s0, run, t));
  }

  // ---- The free list ---------------------------------------------------------------------------------

  /** Step a puts t on the free list, where it is already. */
  predicate PushedAgain(s: State, a: Action, t: Id) {
    a.Recycle? && s.At(a.i, Holding(t, Recycling)) && t in s.m.free
  }

  /** No ticket is found twice in a walk, unless the last one loops; and while the counter is
    * positive there is a ticket.
    */
  ghost predicate FreeOk(m: Memory) {
    NoDup(m.free) && (m.freeCount > 0 ==> m.free != []) && (m.loop ==> m.free != [])
  }

  lemma {:induction false} UpToNoDup(q: seq<Id>, t: Id)
    requires NoDup(q)
    ensures NoDup(UpTo(q, t))
  {
    var r := UpTo(q, t);
    forall i, j | 0 <= i < j < |r| ensures r[i] != r[j] { assert q[i] == r[i] && q[j] == r[j]; }
  }

  lemma FetchingFree(s: State, a: Action, s': State)
    requires IsFetching(a) && StepFetching(s, a) == Some(s')
    ensures FreeMove(s, a, s')
  {
  }

  lemma SettlingFree(s: State, a: Action, s': State)
    requires IsSettling(a) && StepSettling(s, a) == Some(s')
    ensures FreeMove(s, a, s')
  {
    match a
    case Decide(i) => DecideCounts(s, i, s');
    case Recycle(i) => RecycleCounts(s, i, s');
    case _ => WaitedCounts(s, a, s');
  }

  lemma StepFrees(s: State, a: Action, s': State)
    requires Step(s, a) == Some(s')
    ensures FreeMove(s, a, s')
  {
    if IsFetching(a) { FetchingFree(s, a, s'); }
    else if IsSending(a) { SendingCounts(s, a, s'); }
    else if IsSettling(a) { SettlingFree(s, a, s'); }
    else if IsServing(a) { ServingCounts(s, a, s'); }
    else { FlushingCounts(s, a, s'); }
  }

  lemma StepKeepsFree(s: State, a: Action, s': State)
    requires FreeOk(s.m) && FreeMove(s, a, s')
    ensures FreeOk(s'.m)
    ensures !s.m.loop && s.m.freeCount == |s.m.free|
            && (forall t {:trigger PushedAgain(s, a, t)} :: !PushedAgain(s, a, t)) ==>
              !s'.m.loop && s'.m.freeCount == |s'.m.free|
  {
    if a.Recycle? {
      var t := s.th[a.i].t;
      UpToNoDup(s.m.free, t);
      UpToEnds(s.m.free, t);
      assert PushedAgain(s, a, t) <==> t in s.m.free;
    }
  }

  ghost predicate PushesAgainAt(s0: State, run: seq<Action>, n: nat, t: Id)
    requires n < |run|
  {
    AnyRun(s0, run[..n]).Some? && PushedAgain(AnyRun(s0, run[..n]).value, run[n], t)
  }

  /** Some step of the run put a ticket on the free list that was there already. */
  ghost predicate HadPushedAgain(s0: State, run: seq<Action>) {
    exists n: nat, t {:trigger PushesAgainAt(s0, run, n, t)} :: n < |run| && PushesAgainAt(s0, run, n, t)
  }

  lemma PushedAgainBefore(s0: State, run: seq<Action>)
    requires run != [] && HadPushedAgain(s0, run[..|run| - 1])
    ensures HadPushedAgain(s0, run)
  {
    var before := run[..|run| - 1];
    var n: nat, t :| n < |before| && PushesAgainAt(s0, before, n, t);
    assert before[..n] == run[..n];
    assert PushesAgainAt(s0, run, n, t);
  }

  lemma {:induction false} RunKeepsFree(s0: State, run: seq<Action>, s: State)
    requires Init(s0) && AnyRun(s0, run) == Some(s)
    ensures FreeOk(s.m) && (!HadPushedAgain(s0, run) ==> !s.m.loop && s.m.freeCount == |s.m.free|)
  {
    if run != [] {
      var before, a := run[..|run| - 1], run[|run| - 1];
      var mid := AnyRun(s0, before).value;
      RunKeepsFree(s0, before, mid);
      StepFrees(mid, a, s);
      StepKeepsFree(mid, a, s);
      if HadPushedAgain(s0, before) { PushedAgainBefore(s0, run); }
      if t :| PushedAgain(mid, a, t) { assert PushesAgainAt(s0, run, |before|, t); }
    }
  }

  /** In every run in which no ticket is put on the free list while it is there, the counter is
    * the length of the list; the list is empty exactly when the counter is zero, before and
    * after a pop; and an idle thread can fetch a ticket without a panic.
    */
  lemma FreeListMatchesItsCounter(s0: State, run: seq<Action>, s: State, i: Tid)
    requires Init(s0) && AnyRun(s0, run) == Some(s) && s.At(i, Idle) && !HadPushedAgain(s0, run)
    ensures s.m.freeCount == |s.m.free| && !s.m.loop
    ensures s.m.freeCount > 0 ==> s.m.free != [] && (PopFree(s.m).free == [] <==> PopFree(s.m).freeCount == 0)
    ensures Step(s, Fetch(i)).Some?
  {
    RunKeepsFree(s0, run, s);
    RunIsAccounted(s0, run);
    Named(s);
    assert s.m.free != [] ==> s.m.free[0] in s.m.free;
    assert StepFetch(s, i).Some?;
  }

  /** "no free ticket despite the counter's value" is out of reach in every run: the pop that
    * takes the last ticket from under the counter has panicked already.
    */
  lemma CounterPromisesATicket(s0: State, run: seq<Action>, s: State)
    requires Init(s0) && AnyRun(s0, run) == Some(s)
    ensures s.m.freeCount > 0 ==> s.m.free != []
    ensures NoDup(s.m.free)
  {
    RunKeepsFree(s0, run, s);
  }
}
