/** When the panic "ticket reused without being refreshed" can be reached: only after a ticket
  * has been released by a thread that was not alone with it, in the life of the session or
  * after it.
  */
module TicketReuse {
  import opened Lists
  import opened TicketMemory
  import opened TicketProtocol
  import opened TicketFrame
  import opened TicketCounts

  predicate HoldsTicket(s: State, j: Tid, t: Id) {
    s.Holds(j) && s.th[j].t == t
  }

  /** ... and is not yet inside fuse_ticket_drop. */
  predicate UsesTicket(s: State, j: Tid, t: Id) {
    HoldsTicket(s, j, t) && !s.th[j].stage.Dropping? && !s.th[j].stage.Recycling?
  }

  /** Step a calls fuse_ticket_drop for t. */
  ghost predicate Releases(s: State, a: Action, t: Id) {
    Actor(a).Some? && !HoldsAtDrop(s, a.i, t) && Step(s, a).Some? && HoldsAtDrop(Step(s, a).value, a.i, t)
  }

  predicate HoldsAtDrop(s: State, j: Tid, t: Id) {
    s.At(j, Holding(t, Dropping))
  }

  /** ... although t is not in use, or while another thread holds it. */
  ghost predicate SurplusRelease(s: State, a: Action, t: Id) {
    Releases(s, a, t) && t in s.tr
    && (s.tr[t].life != InUse || exists j {:trigger HoldsTicket(s, j, t)} :: j != a.i && HoldsTicket(s, j, t))
  }

  /** Not yet past fuse_insert_message. */
  predicate Early(g: Stage) {
    g.NewTicket? || g.InitSleep? || g.Failing? || g.Made? || g.PushingAw? || g.Posted?
  }

  /** Only free tickets are on the free list, once and without a loop, and nobody holds them; a
    * ticket in use has at most one holder, and FT_DIRTY is clear until it has queued its message.
    */
  ghost predicate Sole(s: State, t: Id) {
    s.Knows(t) ==>
      && (t in s.m.free ==> s.tr[t].life == Free) && !LoopsAt(s.m, t)
      && (s.tr[t].life == Free ==> !s.m.tk[t].dirty)
      && (forall j {:trigger HoldsTicket(s, j, t)} :: HoldsTicket(s, j, t) ==>
            s.tr[t].life == InUse && (Early(s.th[j].stage) ==> !s.m.tk[t].dirty))
      && (forall j, l {:trigger HoldsTicket(s, j, t), HoldsTicket(s, l, t)} ::
            HoldsTicket(s, j, t) && HoldsTicket(s, l, t) ==> j == l)
  }

  lemma AwayKeepsSole(s: State, s': State, t: Id)
    requires Sole(s, t) && Away(s, s', t)
    ensures Sole(s', t)
  {
    if s'.Knows(t) {
      forall j | HoldsTicket(s', j, t) ensures HoldsTicket(s, j, t) && (Early(s'.th[j].stage) ==>
        Early(s.th[j].stage)) { }
    }
  }

  /** What a step other than fetching, allocating, destroying or recycling does to its ticket:
    * its thread becomes a holder only by calling fuse_ticket_drop, and only a holder sets FT_DIRTY.
    */
  ghost predicate KeepsHold(s: State, i: Tid, s': State, t: Id) {
    && s.Knows(t) && s'.Knows(t) && s'.tr[t].life == s.tr[t].life && SameFree(s.m, s'.m)
    && (s'.m.tk[t].dirty && !s.m.tk[t].dirty ==> UsesTicket(s, i, t))
    && (UsesTicket(s', i, t) ==> UsesTicket(s, i, t))
    && (HoldsTicket(s', i, t) && !HoldsAtDrop(s', i, t) ==>
          && HoldsTicket(s, i, t)
          && (Early(s'.th[i].stage) ==> !s'.m.tk[t].dirty || (Early(s.th[i].stage) && s.m.tk[t].dirty)))
  }

  lemma FetchingKeepsHold(s: State, a: Action, s': State, t: Id)
    requires IsFetching(a) && StepFetching(s, a) == Some(s') && !a.Fetch? && !a.Allocate?
    requires s.Knows(t) && Subject(s, a) == Some(t)
    ensures KeepsHold(s, a.i, s', t)
  {
  }

  lemma PostKeepsHold(s: State, i: Tid, mode: Mode, s': State, t: Id)
    requires StepPost(s, i, mode) == Some(s') && s.th[i].t == t
    ensures KeepsHold(s, i, s', t)
  {
  }

  lemma PostingKeepsHold(s: State, a: Action, s': State, t: Id)
    requires IsPosting(a)
    requires StepSending(s, a) == Some(s') && s.Knows(t) && Subject(s, a) == Some(t)
    ensures KeepsHold(s, a.i, s', t)
  {
    if a.Post? { PostKeepsHold(s, a.i, a.mode, s', t); }
  }

  lemma CheckKeepsHold(s: State, i: Tid, s': State, t: Id)
    requires StepCheck(s, i) == Some(s') && s.th[i].t == t
    ensures KeepsHold(s, i, s', t)
  {
  }

  lemma WaitingKeepsHold(s: State, a: Action, s': State, t: Id)
    requires a.Check? || a.Sleep? || a.Signal? || a.Resume?
    requires StepSending(s, a) == Some(s') && s.Knows(t) && Subject(s, a) == Some(t)
    ensures KeepsHold(s, a.i, s', t)
  {
    if a.Check? { CheckKeepsHold(s, a.i, s', t); }
  }

  lemma ReactKeepsHold(s: State, i: Tid, s': State, t: Id)
    requires StepReact(s, i) == Some(s') && s.th[i].t == t
    ensures KeepsHold(s, i, s', t)
  {
  }

  lemma CallerReuseKeepsHold(s: State, i: Tid, s': State, t: Id)
    requires StepCallerReuse(s, i) == Some(s') && s.th[i].t == t
    ensures KeepsHold(s, i, s', t)
  {
  }

  lemma SettlingKeepsHold(s: State, a: Action, s': State, t: Id)
    requires IsSettling(a) && StepSettling(s, a) == Some(s') && !a.Recycle? && Subject(s, a) == Some(t)
    requires a.Decide? ==> !MustDie(s.m, t)
    ensures KeepsHold(s, a.i, s', t)
  {
    match a
    case React(i) => ReactKeepsHold(s, i, s', t);
    case CallerReuse(i) => CallerReuseKeepsHold(s, i, s', t);
    case _ =>
  }

  lemma ReadFinishKeepsHold(s: State, i: Tid, tooSmall: bool, delivered: bool, s': State, t: Id)
    requires StepReadFinish(s, i, tooSmall, delivered) == Some(s') && Mentions(s.th[i], t)
    ensures KeepsHold(s, i, s', t)
  {
  }

  lemma AnswerKeepsHold(s: State, i: Tid, s': State, t: Id)
    requires StepAnswer(s, i) == Some(s') && Mentions(s.th[i], t)
    ensures KeepsHold(s, i, s', t)
  {
  }

  lemma DispatchKeepsHold(s: State, i: Tid, status: int, err: int, kill: bool, s': State, t: Id)
    requires StepDispatch(s, i, status, err, kill) == Some(s') && Mentions(s.th[i], t)
    ensures KeepsHold(s, i, s', t)
  {
  }

  lemma TakeReplyKeepsHold(s: State, i: Tid, use: Use, s': State, t: Id)
    requires StepTakeReply(s, i, use) == Some(s') && use.id == t
    ensures KeepsHold(s, i, s', t)
  {
  }

  lemma ServingKeepsHold(s: State, a: Action, s': State, t: Id)
    requires IsServing(a) && StepServing(s, a) == Some(s') && Subject(s, a) == Some(t)
    ensures KeepsHold(s, a.i, s', t)
  {
    match a
    case ReadPop(_) =>
    case ReadFinish(i, tooSmall, delivered) => ReadFinishKeepsHold(s, i, tooSmall, delivered, s', t);
    case TakeReply(i, use) => TakeReplyKeepsHold(s, i, use, s', t);
    case Dispatch(i, status, err, kill) => DispatchKeepsHold(s, i, status, err, kill, s', t);
    case Answer(i) => AnswerKeepsHold(s, i, s', t);
  }

  lemma FlushingKeepsHold(s: State, a: Action, s': State, t: Id)
    requires IsFlushing(a) && StepFlushing(s, a) == Some(s') && Subject(s, a) == Some(t)
    ensures KeepsHold(s, a.i, s', t)
  {
  }

  /** A release that is not surplus is one by the only holder, or of a ticket in use that nobody holds. */
  lemma SoleReleaser(s: State, a: Action, s': State, t: Id)
    requires Step(s, a) == Some(s') && Actor(a).Some? && !SurplusRelease(s, a, t) && t in s.tr
    requires HoldsAtDrop(s', a.i, t) && !HoldsAtDrop(s, a.i, t)
    ensures s.tr[t].life == InUse && forall j {:trigger HoldsTicket(s, j, t)} :: HoldsTicket(s, j, t) ==> j == a.i
  {
    assert Releases(s, a, t);
  }

  lemma HoldKeepsSole(s: State, a: Action, s': State, t: Id)
    requires Moves(s, a, s') && Actor(a).Some? && Sole(s, t) && KeepsHold(s, a.i, s', t)
    requires HoldsAtDrop(s', a.i, t) && !HoldsAtDrop(s, a.i, t) ==>
               s.tr[t].life == InUse && forall j {:trigger HoldsTicket(s, j, t)} :: HoldsTicket(s, j, t) ==> j == a.i
    ensures Sole(s', t)
  {
    var i := a.i;
    forall j | HoldsTicket(s', j, t)
      ensures HoldsTicket(s, j, t) || (j == i && HoldsAtDrop(s', j, t) && !HoldsAtDrop(s, j, t))
      ensures s'.tr[t].life == InUse && (Early(s'.th[j].stage) ==> !s'.m.tk[t].dirty)
    {
      if j != i {
        assert HoldsTicket(s, j, t) && !HoldsTicket(s, i, t);
      } else if !HoldsAtDrop(s', j, t) || HoldsAtDrop(s, j, t) {
        assert HoldsTicket(s, j, t);
      }
    }
  }

  lemma FetchKeepsSole(s: State, i: Tid, s': State, t: Id)
    requires StepFetch(s, i) == Some(s') && Subject(s, Fetch(i)) == Some(t) && Sole(s, t) && NoDup(s.m.free)
    ensures Sole(s', t)
  {
    assert t in s.m.free;
    assert t !in s'.m.free;
    forall j | HoldsTicket(s', j, t) ensures j == i { assert j != i ==> HoldsTicket(s, j, t); }
  }

  lemma AllocateKeepsSole(s: State, i: Tid, s': State)
    requires StepAllocate(s, i) == Some(s') && Unused(s, s.m.ticketer)
    ensures Sole(s', s.m.ticketer)
  {
    forall j | HoldsTicket(s', j, s.m.ticketer) ensures j == i { }
  }

  lemma DestroyKeepsSole(s: State, i: Tid, s': State, t: Id)
    requires StepDecide(s, i) == Some(s') && Subject(s, Decide(i)) == Some(t) && MustDie(s.m, t) && Sole(s, t)
    ensures Sole(s', t)
  {
    assert HoldsTicket(s, i, t);
    forall j | HoldsTicket(s', j, t) ensures HoldsTicket(s, j, t) { }
  }

  lemma RecycleKeepsSole(s: State, i: Tid, s': State, t: Id)
    requires StepRecycle(s, i) == Some(s') && Subject(s, Recycle(i)) == Some(t) && Sole(s, t)
    ensures Sole(s', t)
  {
    assert HoldsTicket(s, i, t);
    forall j | HoldsTicket(s', j, t) ensures HoldsTicket(s, j, t) { }
    assert t !in s.m.free;
  }

  lemma SubjectKeepsHold(s: State, a: Action, s': State, t: Id)
    requires Step(s, a) == Some(s') && Subject(s, a) == Some(t) && s.Knows(t)
    requires !a.Fetch? && !a.Allocate? && !a.Recycle? && (a.Decide? ==> !MustDie(s.m, t))
    ensures KeepsHold(s, a.i, s', t)
  {
    if IsFetching(a) { FetchingKeepsHold(s, a, s', t); }
    else if IsPosting(a) { PostingKeepsHold(s, a, s', t); }
    else if IsSending(a) { WaitingKeepsHold(s, a, s', t); }
    else if IsSettling(a) { SettlingKeepsHold(s, a, s', t); }
    else if IsServing(a) { ServingKeepsHold(s, a, s', t); }
    else { FlushingKeepsHold(s, a, s', t); }
  }

  lemma ListsKeepSole(s: State, a: Action, s': State, t: Id)
    requires Step(s, a) == Some(s') && Subject(s, a) == Some(t) && Sole(s, t) && NoDup(s.m.free)
    requires a.Fetch? || (a.Allocate? && t == s.m.ticketer && Unused(s, t)) || a.Recycle?
      || (a.Decide? && s.Knows(t) && MustDie(s.m, t))
    ensures Sole(s', t)
  {
    match a
    case Fetch(i) => FetchKeepsSole(s, i, s', t);
    case Allocate(i) => AllocateKeepsSole(s, i, s');
    case Recycle(i) => RecycleKeepsSole(s, i, s', t);
    case Decide(i) => DestroyKeepsSole(s, i, s', t);
  }

  lemma SubjectKeepsSole(s: State, a: Action, s': State, t: Id)
    requires Step(s, a) == Some(s') && Subject(s, a) == Some(t) && Sole(s, t) && !SurplusRelease(s, a, t)
    requires NoDup(s.m.free)
    requires if a.Allocate? then t == s.m.ticketer && Unused(s, t) else s.Knows(t)
    ensures Sole(s', t)
  {
    if a.Fetch? || a.Allocate? || a.Recycle? || (a.Decide? && MustDie(s.m, t)) {
      ListsKeepSole(s, a, s', t);
    } else {
      SubjectKeepsHold(s, a, s', t);
      StepMoves(s, a, s');
      if HoldsAtDrop(s', a.i, t) && !HoldsAtDrop(s, a.i, t) { SoleReleaser(s, a, s', t); }
      HoldKeepsSole(s, a, s', t);
    }
  }

  lemma StepKeepsSole(s: State, a: Action, s': State, t: Id)
    requires Numbered(s) && NoDup(s.m.free) && Sole(s, t) && Step(s, a) == Some(s') && !SurplusRelease(s, a, t)
    ensures Sole(s', t)
  {
    if Subject(s, a) == Some(t) {
      SubjectIsKnown(s, a, t);
      SubjectKeepsSole(s, a, s', t);
    } else {
      StepAway(s, a, s', t);
      AwayKeepsSole(s, s', t);
    }
  }

  // ---- Whole runs ---------------------------------------------------------------------

  /** Some step of the run released t although it was not in use, or while another thread held it. */
  ghost predicate HadSurplusRelease(s0: State, run: seq<Action>, t: Id) {
    exists n: nat {:trigger run[..n]} ::
      n < |run| && AnyRun(s0, run[..n]).Some? && SurplusRelease(AnyRun(s0, run[..n]).value, run[n], t)
  }

  lemma EarlierSurplus(s0: State, run: seq<Action>, t: Id)
    requires run != [] && HadSurplusRelease(s0, run[..|run| - 1], t)
    ensures HadSurplusRelease(s0, run, t)
  {
    var before := run[..|run| - 1];
    var n: nat :| n < |before| && AnyRun(s0, before[..n]).Some?
      && SurplusRelease(AnyRun(s0, before[..n]).value, before[n], t);
    assert before[..n] == run[..n];
  }

  lemma {:induction false} SoleUnlessSurplus(s0: State, run: seq<Action>, s: State, t: Id)
    requires Init(s0) && AnyRun(s0, run) == Some(s) && !HadSurplusRelease(s0, run, t)
    ensures Sole(s, t)
  {
    if run != [] {
      var before, a := run[..|run| - 1], run[|run| - 1];
      if HadSurplusRelease(s0, before, t) { EarlierSurplus(s0, run, t); }
      var mid := AnyRun(s0, before).value;
      SoleUnlessSurplus(s0, before, mid, t);
      RunIsAccounted(s0, before);
      RunKeepsFree(s0, before, mid);
      assert !SurplusRelease(mid, a, t);
      StepKeepsSole(mid, a, s, t);
    }
  }

  /** Over every interleaving, live or dead: fuse_insert_message finds a dirty ticket, and
    * panics, only if that ticket has been released by a thread that was not alone with it.
    */
  lemma DirtyOnlyAfterSurplusRelease(s0: State, run: seq<Action>, s: State, i: Tid)
    requires Init(s0) && AnyRun(s0, run) == Some(s) && s.Holds(i) && s.th[i].stage.Posted?
    ensures s.Knows(s.th[i].t)
    ensures s.m.tk[s.th[i].t].dirty ==> HadSurplusRelease(s0, run, s.th[i].t)
  {
    var t := s.th[i].t;
    RunIsAccounted(s0, run);
    Named(s);
    if !HadSurplusRelease(s0, run, t) {
      SoleUnlessSurplus(s0, run, s, t);
      assert HoldsTicket(s, i, t);
    }
  }

  lemma SurplusBefore(s0: State, run: seq<Action>, n: nat, t: Id)
    requires n <= |run| && HadSurplusRelease(s0, run[..n], t)
    ensures HadSurplusRelease(s0, run, t)
  {
    var before := run[..n];
    var k: nat :| k < |before| && AnyRun(s0, before[..k]).Some?
      && SurplusRelease(AnyRun(s0, before[..k]).value, before[k], t);
    assert before[..k] == run[..k];
  }

  /** Only such a release can put a ticket on the free list while it is there. */
  lemma PushedAgainOnlyAfterSurplusRelease(s0: State, run: seq<Action>, n: nat, t: Id)
    requires Init(s0) && n < |run| && PushesAgainAt(s0, run, n, t)
    ensures HadSurplusRelease(s0, run, t)
  {
    var s := AnyRun(s0, run[..n]).value;
    RunIsAccounted(s0, run[..n]);
    assert HoldsTicket(s, run[n].i, t);
    if HadSurplusRelease(s0, run[..n], t) {
      SurplusBefore(s0, run, n, t);
    } else {
      SoleUnlessSurplus(s0, run[..n], s, t);
      Named(s);
    }
  }

  // ---- Without a free list --------------------------------------------------------------------

  /** fuse_max_freetickets is 0: no ticket is ever recycled. */
  ghost predicate NeverFree(s: State) {
    s.m.maxFree == 0 && s.m.freeCount == 0 && s.m.free == []
    && forall j {:trigger s.th[j]} :: j in s.th && s.th[j].Holding? ==> !s.th[j].stage.Recycling?
  }

  lemma FetchingNeverFrees(s: State, a: Action, s': State)
    requires NeverFree(s) && IsFetching(a) && StepFetching(s, a) == Some(s')
    ensures NeverFree(s')
  {
  }

  lemma SendingNeverFrees(s: State, a: Action, s': State)
    requires NeverFree(s) && IsSending(a) && StepSending(s, a) == Some(s')
    ensures NeverFree(s')
  {
  }

  lemma SettlingNeverFrees(s: State, a: Action, s': State)
    requires NeverFree(s) && IsSettling(a) && StepSettling(s, a) == Some(s')
    ensures NeverFree(s')
  {
  }

  lemma ReadFinishNeverFrees(s: State, i: Tid, tooSmall: bool, delivered: bool, s': State)
    requires NeverFree(s) && StepReadFinish(s, i, tooSmall, delivered) == Some(s')
    ensures NeverFree(s')
  {
  }

  lemma AnswerNeverFrees(s: State, i: Tid, s': State)
    requires NeverFree(s) && StepAnswer(s, i) == Some(s')
    ensures NeverFree(s')
  {
  }

  lemma ServingNeverFrees(s: State, a: Action, s': State)
    requires NeverFree(s) && IsServing(a) && StepServing(s, a) == Some(s')
    ensures NeverFree(s')
  {
    match a
    case ReadFinish(i, tooSmall, delivered) => ReadFinishNeverFrees(s, i, tooSmall, delivered, s');
    case Answer(i) => AnswerNeverFrees(s, i, s');
    case _ =>
  }

  lemma FlushingNeverFrees(s: State, a: Action, s': State)
    requires NeverFree(s) && IsFlushing(a) && StepFlushing(s, a) == Some(s')
    ensures NeverFree(s')
  {
  }

  lemma StepNeverFrees(s: State, a: Action, s': State)
    requires NeverFree(s) && Step(s, a) == Some(s')
    ensures NeverFree(s')
  {
    if IsFetching(a) { FetchingNeverFrees(s, a, s'); }
    else if IsSending(a) { SendingNeverFrees(s, a, s'); }
    else if IsSettling(a) { SettlingNeverFrees(s, a, s'); }
    else if IsServing(a) { ServingNeverFrees(s, a, s'); }
    else { FlushingNeverFrees(s, a, s'); }
  }

  /** At most one thread uses the ticket, and FT_DIRTY is clear until it has queued its message. */
  ghost predicate OneUser(s: State, t: Id) {
    s.Knows(t) ==>
      && (forall j {:trigger UsesTicket(s, j, t)} :: UsesTicket(s, j, t) && Early(s.th[j].stage) ==> !s.m.tk[t].dirty)
      && (forall j, l {:trigger UsesTicket(s, j, t), UsesTicket(s, l, t)} ::
            UsesTicket(s, j, t) && UsesTicket(s, l, t) ==> j == l)
  }

  lemma AwayKeepsUser(s: State, s': State, t: Id)
    requires OneUser(s, t) && Away(s, s', t)
    ensures OneUser(s', t)
  {
    if s'.Knows(t) {
      forall j | UsesTicket(s', j, t) ensures UsesTicket(s, j, t) && (Early(s'.th[j].stage) ==>
        Early(s.th[j].stage)) { }
    }
  }

  lemma HoldKeepsUser(s: State, a: Action, s': State, t: Id)
    requires Moves(s, a, s') && Actor(a).Some? && OneUser(s, t) && KeepsHold(s, a.i, s', t)
    ensures OneUser(s', t)
  {
    forall j | UsesTicket(s', j, t) ensures UsesTicket(s, j, t) { }
  }

  lemma AllocateKeepsUser(s: State, i: Tid, s': State)
    requires StepAllocate(s, i) == Some(s') && Unused(s, s.m.ticketer)
    ensures OneUser(s', s.m.ticketer)
  {
    forall j | UsesTicket(s', j, s.m.ticketer) ensures j == i { }
  }

  lemma DestroyKeepsUser(s: State, i: Tid, s': State, t: Id)
    requires StepDecide(s, i) == Some(s') && Subject(s, Decide(i)) == Some(t) && MustDie(s.m, t) && OneUser(s, t)
    ensures OneUser(s', t)
  {
    forall j | UsesTicket(s', j, t) ensures UsesTicket(s, j, t) { }
  }

  lemma NothingIsRecycled(s: State, a: Action, t: Id)
    requires NeverFree(s) && Subject(s, a) == Some(t) && Actor(a).Some? && a.i in s.th && Fits(s.th[a.i], a)
    ensures !a.Fetch? && !a.Recycle? && (a.Decide? && s.Knows(t) ==> MustDie(s.m, t))
  {
  }

  lemma SubjectKeepsUser(s: State, a: Action, s': State, t: Id)
    requires NeverFree(s) && OneUser(s, t) && Step(s, a) == Some(s') && Subject(s, a) == Some(t)
    requires if a.Allocate? then t == s.m.ticketer && Unused(s, t) else s.Knows(t)
    ensures OneUser(s', t)
  {
    StepFits(s, a);
    NothingIsRecycled(s, a, t);
    if a.Allocate? {
      AllocateKeepsUser(s, a.i, s');
    } else if a.Decide? {
      DestroyKeepsUser(s, a.i, s', t);
    } else {
      SubjectKeepsHold(s, a, s', t);
      StepMoves(s, a, s');
      HoldKeepsUser(s, a, s', t);
    }
  }

  lemma StepKeepsUser(s: State, a: Action, s': State, t: Id)
    requires NeverFree(s) && Numbered(s) && OneUser(s, t) && Step(s, a) == Some(s')
    ensures OneUser(s', t)
  {
    if Subject(s, a) == Some(t) {
      SubjectIsKnown(s, a, t);
      SubjectKeepsUser(s, a, s', t);
    } else {
      StepAway(s, a, s', t);
      AwayKeepsUser(s, s', t);
    }
  }

  lemma {:induction false} UsedByOne(s0: State, run: seq<Action>, s: State, t: Id)
    requires Init(s0) && s0.m.maxFree == 0 && AnyRun(s0, run) == Some(s)
    ensures NeverFree(s) && OneUser(s, t)
  {
    if run != [] {
      var before, a := run[..|run| - 1], run[|run| - 1];
      var mid := AnyRun(s0, before).value;
      UsedByOne(s0, before, mid, t);
      RunIsAccounted(s0, before);
      StepNeverFrees(mid, a, s);
      StepKeepsUser(mid, a, s, t);
    }
  }

  /** If no ticket is ever recycled then the panic is out of reach, whoever releases what. */
  lemma NeverDirtyWithoutRecycling(s0: State, run: seq<Action>, s: State, i: Tid)
    requires Init(s0) && s0.m.maxFree == 0 && AnyRun(s0, run) == Some(s) && s.Holds(i) && s.th[i].stage.Posted?
    ensures s.Knows(s.th[i].t) && !s.m.tk[s.th[i].t].dirty
  {
    var t := s.th[i].t;
    RunIsAccounted(s0, run);
    Named(s);
    UsedByOne(s0, run, s, t);
    assert UsesTicket(s, i, t);
  }
}
