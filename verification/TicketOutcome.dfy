/** What a requester gets: the outcome that the reply of its request carries. */
module TicketOutcome {
  import opened Lists
  import opened TicketMemory
  import opened TicketProtocol
  import opened TicketFrame
  import opened TicketInvariant
  import opened TicketTheorems
  import opened TicketCounts
  import opened TicketTwice

  // ---- The reply of the current use, from the run alone -------------------------------------------

  /** The error in the reply's header, and what taking in the reply's body yields. */
  datatype Outcome = Outcome(status: int, err: int)

  /** The current use of ticket t has heard the reply that a writer brings with step a. */
  function Heard(s: State, a: Action, s': State, t: Id, before: Option<Outcome>): Option<Outcome> {
    if a.Dispatch? && s.At(a.i, Writing(t)) then Some(Outcome(a.status, a.err))
    else if t in s.tr && t in s'.tr && s'.tr[t].gen == s.tr[t].gen then before
    else None
  }

  /** The outcome that the last reply for the current use of t carried. */
  ghost function Said(s0: State, run: seq<Action>, t: Id): Option<Outcome>
    requires Run(s0, run).Some?
  {
    if run == [] then None
    else
      var before := run[..|run| - 1];
      Heard(Run(s0, before).value, run[|run| - 1], Run(s0, run).value, t, Said(s0, before, t))
  }

  /** The reply is no error of the daemon, and its body has been taken in. */
  predicate IsSuccess(o: Outcome) { o.status == 0 && o.err == 0 }

  /** The body of an error reply is not looked at. */
  predicate Records(k: Ticket, o: Outcome) {
    k.status == o.status && (if o.status != 0 then k.errno == 0 else k.errno == o.err)
  }

  predicate Waiting(g: Stage) { g.WaitEnter? || g.WaitLocked? || g.Asleep? || g.Woken? || g.Waited? }

  /** Everybody at t knows what the reply said. */
  predicate Knowing(pc: Pc, k: Ticket, t: Id, o: Option<Outcome>) {
    && (pc.Pulled? && pc.t == t ==>
          o.Some? && k.status == o.value.status && pc.err == if o.value.status != 0 then 0 else o.value.err)
    && (pc.Holding? && pc.t == t && Waiting(pc.stage) && k.answered ==> o.Some? && Records(k, o.value))
    && (pc == Holding(t, HaveAnswer) ==> o.Some? && IsSuccess(o.value))
  }

  ghost predicate Told(s: State, t: Id, o: Option<Outcome>) {
    s.Knows(t) ==> forall j {:trigger s.th[j]} :: j in s.th ==> Knowing(s.th[j], s.m.tk[t], t, o)
  }

  lemma AwayTells(s: State, a: Action, s': State, t: Id, o: Option<Outcome>)
    requires Told(s, t, o) && Away(s, s', t) && Subject(s, a) != Some(t)
    ensures Told(s', t, Heard(s, a, s', t, o))
  {
  }

  /** While a writer has t, nobody else there has heard anything. */
  lemma WriterAlone(s: State, i: Tid, t: Id)
    requires Good(s) && i in s.th && (s.th[i].Writing? || s.th[i].Pulled?) && s.th[i].t == t
    ensures s.Knows(t)
    ensures forall j {:trigger s.th[j]} :: j in s.th && j != i && Mentions(s.th[j], t) ==>
              && !s.th[j].Pulled? && s.th[j] != Holding(t, HaveAnswer)
              && (s.th[j].Holding? && Waiting(s.th[j].stage) ==> !s.m.tk[t].answered)
  {
    assert ThreadOk(s, i);
    forall j | j in s.th ensures ThreadOk(s, j) { }
  }

  lemma DispatchTells(s: State, i: Tid, status: int, err: int, kill: bool, s': State, t: Id, o: Option<Outcome>)
    requires Good(s) && Told(s, t, o) && StepDispatch(s, i, status, err, kill) == Some(s') && s.th[i].t == t
    ensures Told(s', t, Some(Outcome(status, err)))
  {
    WriterAlone(s, i, t);
  }

  lemma AnswerTells(s: State, i: Tid, s': State, t: Id, o: Option<Outcome>)
    requires Good(s) && Told(s, t, o) && StepAnswer(s, i) == Some(s') && s.th[i].t == t
    ensures Told(s', t, o)
  {
    WriterAlone(s, i, t);
  }

  /** A requester that is past its wait is alone with its ticket, but for writers and the interrupted. */
  lemma HolderAlone(s: State, i: Tid, t: Id)
    requires Good(s) && s.Holds(i) && s.th[i].t == t
    ensures s.Knows(t)
    ensures forall j {:trigger s.th[j]} :: j in s.th && j != i && s.Holds(j) ==> s.th[j].t != t
    ensures s.m.tk[t].answered && Waiting(s.th[i].stage) ==>
              forall j {:trigger s.th[j]} :: j in s.th && s.th[j].Pulled? ==> s.th[j].t != t
    ensures s.th[i].stage.HaveAnswer? ==>
              forall j {:trigger s.th[j]} :: j in s.th && s.th[j].Pulled? ==> s.th[j].t != t
  {
    assert ThreadOk(s, i);
    forall j | j in s.th ensures ThreadOk(s, j) { }
  }

  lemma ReactTells(s: State, i: Tid, s': State, t: Id, o: Option<Outcome>)
    requires Good(s) && Told(s, t, o) && StepReact(s, i) == Some(s') && s.th[i].t == t
    ensures Told(s', t, o)
  {
    HolderAlone(s, i, t);
    assert ThreadOk(s, i);
  }

  lemma NextUseTells(s: State, i: Tid, s': State, t: Id, o: Option<Outcome>)
    requires Good(s) && Told(s, t, o) && s.Holds(i) && s.th[i].t == t
    requires StepCallerReuse(s, i) == Some(s') || StepRecycle(s, i) == Some(s')
    ensures Told(s', t, None)
  {
    HolderAlone(s, i, t);
    assert ThreadOk(s, i);
    forall j | j in s.th && j != i && s.th[j].Pulled? ensures s.th[j].t != t { assert ThreadOk(s, j); }
  }

  lemma FetchTells(s: State, i: Tid, s': State, t: Id, o: Option<Outcome>)
    requires Told(s, t, o) && s.Knows(t) && StepFetch(s, i) == Some(s')
    ensures Told(s', t, o) && t in s'.tr && s'.tr[t].gen == s.tr[t].gen
  {
  }

  lemma FetchingTells(s: State, a: Action, s': State, t: Id, o: Option<Outcome>)
    requires Good(s) && Told(s, t, o) && s.Knows(t) && IsFetching(a) && StepFetching(s, a) == Some(s')
    ensures Told(s', t, o) && t in s'.tr && s'.tr[t].gen == s.tr[t].gen
  {
    match a
    case Fetch(i) => FetchTells(s, i, s', t, o);
    case Allocate(i) => assert TicketOk(s, t) && t != s.m.ticketer;
    case _ =>
  }

  lemma SendingTells(s: State, a: Action, s': State, t: Id, o: Option<Outcome>)
    requires Good(s) && Told(s, t, o) && s.Knows(t) && IsSending(a) && StepSending(s, a) == Some(s')
    ensures Told(s', t, o) && t in s'.tr && s'.tr[t].gen == s.tr[t].gen
  {
    assert ThreadOk(s, a.i);
  }

  lemma DroppingTells(s: State, a: Action, s': State, t: Id, o: Option<Outcome>)
    requires Good(s) && Told(s, t, o) && s.Knows(t) && IsSettling(a) && StepSettling(s, a) == Some(s')
    requires a.Clear? || a.CallerDrop? || a.CallerAbandon? || a.Decide?
    ensures Told(s', t, o) && t in s'.tr && s'.tr[t].gen == s.tr[t].gen
  {
  }

  lemma SettlingTells(s: State, a: Action, s': State, t: Id, o: Option<Outcome>)
    requires Good(s) && Told(s, t, o) && s.Knows(t) && IsSettling(a) && StepSettling(s, a) == Some(s')
    requires Subject(s, a) == Some(t)
    ensures Told(s', t, Heard(s, a, s', t, o))
  {
    match a
    case React(i) => ReactTells(s, i, s', t, o);
    case CallerReuse(i) => NextUseTells(s, i, s', t, o);
    case Recycle(i) => NextUseTells(s, i, s', t, o);
    case _ => DroppingTells(s, a, s', t, o);
  }

  lemma TakeReplyTells(s: State, i: Tid, use: Use, s': State, t: Id, o: Option<Outcome>)
    requires Told(s, t, o) && s.Knows(t) && StepTakeReply(s, i, use) == Some(s')
    ensures Told(s', t, o) && t in s'.tr && s'.tr[t].gen == s.tr[t].gen
  {
  }

  lemma ReadFinishTells(s: State, i: Tid, tooSmall: bool, delivered: bool, s': State, t: Id, o: Option<Outcome>)
    requires Told(s, t, o) && s.Knows(t) && StepReadFinish(s, i, tooSmall, delivered) == Some(s')
    ensures Told(s', t, o) && t in s'.tr && s'.tr[t].gen == s.tr[t].gen
  {
  }

  lemma ReadingTells(s: State, a: Action, s': State, t: Id, o: Option<Outcome>)
    requires Good(s) && Told(s, t, o) && s.Knows(t) && IsServing(a) && StepServing(s, a) == Some(s')
    requires !a.Dispatch? && !a.Answer?
    ensures Told(s', t, o) && t in s'.tr && s'.tr[t].gen == s.tr[t].gen
  {
    match a
    case TakeReply(i, use) => TakeReplyTells(s, i, use, s', t, o);
    case ReadFinish(i, tooSmall, delivered) => ReadFinishTells(s, i, tooSmall, delivered, s', t, o);
    case _ =>
  }

  lemma ServingTells(s: State, a: Action, s': State, t: Id, o: Option<Outcome>)
    requires Good(s) && Told(s, t, o) && s.Knows(t) && IsServing(a) && StepServing(s, a) == Some(s')
    requires Subject(s, a) == Some(t)
    ensures Told(s', t, Heard(s, a, s', t, o))
  {
    match a
    case Dispatch(i, status, err, kill) => DispatchTells(s, i, status, err, kill, s', t, o);
    case Answer(i) => AnswerTells(s, i, s', t, o);
    case _ => ReadingTells(s, a, s', t, o);
  }

  /** The step works on t. */
  lemma SubjectTells(s: State, a: Action, s': State, t: Id, o: Option<Outcome>)
    requires Good(s) && Told(s, t, o) && s.Knows(t) && Step(s, a) == Some(s') && Subject(s, a) == Some(t)
    ensures Told(s', t, Heard(s, a, s', t, o))
  {
    NobodyFlushes(s);
    if IsFetching(a) { FetchingTells(s, a, s', t, o); }
    else if IsSending(a) { SendingTells(s, a, s', t, o); }
    else if IsSettling(a) { SettlingTells(s, a, s', t, o); }
    else if IsServing(a) { ServingTells(s, a, s', t, o); }
  }

  /** Nobody has heard anything at a ticket that has just been numbered. */
  lemma NewTells(s: State, i: Tid, s': State, t: Id, o: Option<Outcome>)
    requires Unused(s, t) && StepAllocate(s, i) == Some(s') && t == s.m.ticketer
    ensures Told(s', t, o)
  {
  }

  lemma StepTells(s: State, a: Action, s': State, t: Id, o: Option<Outcome>)
    requires Good(s) && Numbered(s) && Told(s, t, o) && Step(s, a) == Some(s')
    ensures Told(s', t, Heard(s, a, s', t, o))
  {
    if Subject(s, a) != Some(t) {
      StepAway(s, a, s', t);
      AwayTells(s, a, s', t, o);
    } else {
      SubjectIsKnown(s, a, t);
      if a.Allocate? { NewTells(s, a.i, s', t, Heard(s, a, s', t, o)); } else { SubjectTells(s, a, s', t, o); }
    }
  }

  lemma {:induction false} LiveRunTells(s0: State, run: seq<Action>, s: State, t: Id)
    requires Init(s0) && Run(s0, run) == Some(s) && !s.m.dead
    ensures Good(s) && Told(s, t, Said(s0, run, t))
  {
    LiveRunIsGood(s0, run, s);
    if run != [] {
      var before, a := run[..|run| - 1], run[|run| - 1];
      var mid := Run(s0, before).value;
      StepIsSteady(mid, a, s, t);
      LiveRunTells(s0, before, mid, t);
      RunIsAnyRun(s0, before);
      RunIsAccounted(s0, before);
      StepTells(mid, a, s, t, Said(s0, before, t));
    }
  }

  /** In every run of a live session: who has the answer of a request has had a reply to this very use
    * of the ticket, and that was a success.
    */
  lemma AnswerIsASuccess(s0: State, run: seq<Action>, s: State, i: Tid, t: Id)
    requires Init(s0) && Run(s0, run) == Some(s) && !s.m.dead && s.At(i, Holding(t, HaveAnswer))
    ensures Said(s0, run, t).Some? && IsSuccess(Said(s0, run, t).value)
  {
    LiveRunTells(s0, run, s, t);
    assert ThreadOk(s, i);
  }

  // ---- What the requester does with it ----------------------------------------------------------

  /** In a live session every step but the search of an interrupted requester goes through. */
  lemma GoesOn(s0: State, run: seq<Action>, s: State, a: Action, s': State)
    requires Init(s0) && Run(s0, run) == Some(s) && !s.m.dead && !a.Clear? && Step(s, a) == Some(s')
    ensures Run(s0, run + [a]) == Some(s')
  {
    LiveStepDanglesExactly(s0, run, s, a);
    OneStep(s, a, s');
    RunsJoin(s0, run, s, [a]);
  }

  /** The requester that comes out of its wait without an error has had a reply. It gets the answer
    * exactly if that was a success. Otherwise it releases the ticket, and returns the error in the
    * reply's header, or EIO if there is none there.
    */
  lemma ReactExactly(s0: State, run: seq<Action>, s: State, i: Tid, t: Id)
    requires Init(s0) && Run(s0, run) == Some(s) && !s.m.dead && s.At(i, Holding(t, Waited(0)))
    ensures s.Knows(t) && Said(s0, run, t).Some? && Run(s0, run + [React(i)]).Some?
    ensures var o, s' := Said(s0, run, t).value, Run(s0, run + [React(i)]).value;
      && s'.At(i, Holding(t, if IsSuccess(o) then HaveAnswer else Dropping)) && OnlyMoves(s, s', i)
      && s'.m == s.m && t in s'.tr && s'.tr[t].now.drops == (if IsSuccess(o) then 0 else 1)
      && Returned(s.m.tk[t], 0) == (if o.status != 0 then o.status else if o.err != 0 then EIO else 0)
  {
    LiveRunTells(s0, run, s, t);
    assert ThreadOk(s, i);
    var s' := StepReact(s, i).value;
    GoesOn(s0, run, s, React(i), s');
  }

  /** An interrupted requester returns the error of its wait. If the ticket has been answered meanwhile
    * it releases it; else it marks it answered, leaves it to the writer of the reply, and goes to look
    * for it on the answer queue.
    */
  lemma ReactInterrupted(s0: State, run: seq<Action>, s: State, i: Tid, t: Id, err: int)
    requires Init(s0) && Run(s0, run) == Some(s) && !s.m.dead && err != 0 && s.At(i, Holding(t, Waited(err)))
    ensures s.Knows(t) && Returned(s.m.tk[t], err) == err && Run(s0, run + [React(i)]).Some?
    ensures var s', k := Run(s0, run + [React(i)]).value, s.m.tk[t];
      && OnlyMoves(s, s', i) && s'.m == s.m.(tk := s.m.tk[t := k.(answered := true)])
      && s'.At(i, if k.answered then Holding(t, Dropping) else Clearing(t, k.age, s.tr[t].gen))
      && t in s'.tr && s'.tr[t].now.drops == One(k.answered) && (s'.tr[t].owner == None <==> !k.answered)
  {
    LiveRunIsGood(s0, run, s);
    HolderAlone(s, i, t);
    assert ThreadOk(s, i);
    var s' := StepReact(s, i).value;
    assert s.m.tk[t := s.m.tk[t]] == s.m.tk;
    GoesOn(s0, run, s, React(i), s');
  }
}
