/**
 The loop of a turn, seen from the steering messages: where they are polled, where they wait, and where they are
 injected. What the model, the hooks, the tools and other users of the queue do is data of the run.
 */
module TurnLoop {
  import opened Messages
  import opened Steering
  import opened Wrappers

  datatype Config = Config(key: string, skipInitialPoll: bool, maxIterations: int, initial: seq<Msg>)

  // How the tool phase ends if no poll finds steering.
  datatype ToolEnd = AllHandled | NotHandled | Tripped | Suspended | ToolHookAbort | ToolHardAbort

  // `polls[k]` is what others do to the queue before the k-th poll, `late` before the one behind the loop.
  datatype ToolPhase = ToolPhase(polls: seq<seq<Op>>, late: seq<Op>, end: ToolEnd)

  // A hard abort that cuts short the wait between two calls ends the turn like an answer.
  datatype Outcome = Error | HookAbort | HardAbort | BackoffAbort | Answer | Escalate | Tools(phase: ToolPhase)

  // What is decided outside the loop during one round.
  datatype Round = Round(
    interrupt: bool,        // a graceful interrupt has been requested when the guard is evaluated
    hardAbort: bool,
    before: seq<Op>,        // what others do to the queue before the initial poll
    parentGone: bool,       // the parent turn has ended and this one is not critical
    result: Option<Msg>,    // the sub-turn result polled
    interruptLate: bool,    // a graceful interrupt has been requested when the model is called
    outcome: Outcome)

  datatype Status = Running | Completed | Aborted | Failed | Left

  datatype Polled = FromQueue(scope: string, m: Msg) | FromSubTurn(m: Msg)

  // `pending` is the loop's own list, `execPending` the one it shares with the phases. `injected` is what it stored
  // and showed to the model, `polled` everything it took from the queue or from a sub-turn.
  datatype Turn = Turn(
    iteration: nat,
    pending: seq<Msg>,
    execPending: seq<Msg>,
    injected: seq<Msg>,
    polled: seq<Polled>,
    queue: Queue,
    interrupted: bool,
    terminalUsed: bool,
    status: Status)

  function Start(cfg: Config, queue: Queue): Turn {
    Turn(0, cfg.initial, cfg.initial, [], [], queue, false, false, Running)
  }

  function Interrupt(t: Turn, now: bool): Turn {
    t.(interrupted := t.interrupted || now)
  }

  predicate GracefulPending(t: Turn) {
    t.interrupted && !t.terminalUsed
  }

  predicate Guard(cfg: Config, t: Turn) {
    t.iteration < cfg.maxIterations || t.execPending != [] || GracefulPending(t)
  }

  function Tag(scope: string, msgs: seq<Msg>): seq<Polled> {
    seq(|msgs|, k requires 0 <= k < |msgs| => FromQueue(scope, msgs[k]))
  }

  // The top of a round: the pending list is filled.
  function Gather(cfg: Config, t: Turn, before: seq<Op>): Turn {
    var t1 := t.(iteration := t.iteration + 1);
    if t1.iteration > 1 then t1.(pending := t.pending + t.execPending, execPending := [])
    else if cfg.skipInitialPoll then t1
    else
      var q := ApplyAll(t.queue, before);
      var (q', msgs) := DequeueWithFallback(q, cfg.key);
      t1.(queue := q', pending := t.pending + msgs, polled := t.polled + Tag(FallbackScope(q, cfg.key), msgs))
  }

  function AddResult(t: Turn, result: Option<Msg>): Turn {
    if result.Some? then t.(pending := t.pending + [result.value], polled := t.polled + [FromSubTurn(result.value)])
    else t
  }

  function Inject(t: Turn): Turn {
    if t.pending != [] then t.(injected := t.injected + t.pending, execPending := []) else t
  }

  // Poll after each result, until steering turns up.
  function Polls(key: string, q: Queue, polls: seq<seq<Op>>): (Queue, seq<Msg>)
    decreases |polls|
  {
    if polls == [] then (q, [])
    else
      var (q1, msgs) := DequeueScope(ApplyAll(q, polls[0]), key);
      if msgs != [] then (q1, msgs) else Polls(key, q1, polls[1..])
  }

  function Take(cfg: Config, t: Turn, q: Queue, msgs: seq<Msg>): Turn {
    t.(queue := q, execPending := t.execPending + msgs, polled := t.polled + Tag(Normalize(cfg.key), msgs))
  }

  // The loop over the calls is through without steering; the last poll comes behind it.
  function EndTools(cfg: Config, t: Turn, phase: ToolPhase): Turn {
    match phase.end
    case Tripped => t.(status := Completed)
    case ToolHookAbort => t.(status := Failed)
    case ToolHardAbort => t.(status := Aborted)
    case _ => LatePoll(cfg, t, phase.late, phase.end.AllHandled?)
  }

  function LatePoll(cfg: Config, t: Turn, before: seq<Op>, allHandled: bool): Turn {
    var (q, late) := DequeueScope(ApplyAll(t.queue, before), cfg.key);
    var t1 := Take(cfg, t, q, late);
    if late == [] && allHandled then t1.(status := Completed) else t1
  }

  function RunTools(cfg: Config, t: Turn, phase: ToolPhase): Turn {
    if phase.end.Suspended? then t
    else
      var (q, msgs) := Polls(cfg.key, t.queue, phase.polls);
      var t1 := Take(cfg, t, q, msgs);
      if msgs != [] then t1 else EndTools(cfg, t1, phase)
  }

  // Call the model, and the tools it asks for. A call made under a graceful interrupt is the last one.
  function Call(cfg: Config, t: Turn, outcome: Outcome): Turn {
    var graceful := GracefulPending(t);
    var t1 := t.(terminalUsed := t.terminalUsed || graceful);
    match outcome
    case Error => t1.(status := Failed)
    case HookAbort => t1.(status := Failed)
    case HardAbort => t1.(status := Aborted)
    case BackoffAbort => t1.(status := Completed, pending := t1.execPending)
    case Answer => t1.(status := Completed, pending := t1.execPending)
    case Escalate => t1.(status := if graceful then Completed else Running, pending := t1.execPending)
    case Tools(phase) =>
      if graceful then t1.(status := Completed, pending := t1.execPending)
      else RunTools(cfg, t1.(pending := t1.execPending), phase)
  }

  function Iterate(cfg: Config, t: Turn, r: Round): Turn {
    var t0 := Interrupt(t, r.interrupt);
    if r.hardAbort then t0.(status := Aborted)
    else if !Guard(cfg, t0) then t0.(status := Completed)
    else
      var t1 := Gather(cfg, t0, r.before);
      if r.parentGone then t1.(status := Left)
      else Call(cfg, Interrupt(Inject(AddResult(t1, r.result)), r.interruptLate), r.outcome)
  }

  // How a round begins: a hard abort comes before anything else; without an iteration left, a message waiting or an
  // interrupt to answer the turn is over; a turn whose parent is gone leaves without a call.
  lemma HowARoundBegins(cfg: Config, t: Turn, r: Round)
    requires t.status.Running?
    ensures var t' := Iterate(cfg, t, r);
            var interrupted := (t.interrupted || r.interrupt) && !t.terminalUsed;
            var goesOn := t.iteration < cfg.maxIterations || t.execPending != [] || interrupted;
            && (r.hardAbort ==> t'.status.Aborted?)
            && (!r.hardAbort && !goesOn ==> t'.status.Completed?)
            && (r.hardAbort || !goesOn ==> t'.iteration == t.iteration && t'.polled == t.polled)
            && (!r.hardAbort && goesOn ==>
                  t'.iteration == t.iteration + 1 && (r.parentGone <==> t'.status.Left?))
  {
    hide Gather, Inject, AddResult, Call;
    var t0 := Interrupt(t, r.interrupt);
    GatherCounts(cfg, t0, r.before);
    var t1 := Gather(cfg, t0, r.before);
    InjectCounts(t1, r.result);
    CallStays(cfg, Interrupt(Inject(AddResult(t1, r.result)), r.interruptLate), r.outcome);
  }

  lemma GatherCounts(cfg: Config, t: Turn, before: seq<Op>)
    ensures Gather(cfg, t, before).iteration == t.iteration + 1 && Gather(cfg, t, before).status == t.status
  {
    hide ApplyAll, DequeueWithFallback;
  }

  lemma InjectCounts(t: Turn, result: Option<Msg>)
    ensures var t' := Inject(AddResult(t, result)); t'.iteration == t.iteration && t'.status == t.status
  {
  }

  lemma CallStays(cfg: Config, t: Turn, outcome: Outcome)
    requires t.status.Running?
    ensures Call(cfg, t, outcome).iteration == t.iteration && !Call(cfg, t, outcome).status.Left?
  {
    hide ApplyAll, DequeueScope, Polls;
  }

  // What a round that reaches the model injects: what was pending, in the first round what a poll finds, later what the
  // phases left in the shared list, and at last the result of a sub-turn.
  lemma WhatARoundInjects(cfg: Config, t: Turn, r: Round)
    requires t.status.Running? && !Iterate(cfg, t, r).status.Left? && Iterate(cfg, t, r).iteration == t.iteration + 1
    ensures var q := ApplyAll(t.queue, r.before);
            Iterate(cfg, t, r).injected ==
              t.injected + (t.pending
                            + (if t.iteration > 0 then t.execPending
                               else if cfg.skipInitialPoll then []
                               else DequeueWithFallback(q, cfg.key).1)
                            + (if r.result.Some? then [r.result.value] else []))
  {
    hide ApplyAll, DequeueWithFallback, Call;
    var t0 := Interrupt(t, r.interrupt);
    var t1 := Gather(cfg, t0, r.before);
    var t2 := Interrupt(Inject(AddResult(t1, r.result)), r.interruptLate);
    CallInjectsNothing(cfg, t2, r.outcome);
    assert t1.pending + [] == t1.pending && t.pending + [] == t.pending && t.injected + [] == t.injected;
  }

  lemma CallInjectsNothing(cfg: Config, t: Turn, outcome: Outcome)
    ensures Call(cfg, t, outcome).injected == t.injected
  {
    hide ApplyAll, DequeueScope, Polls;
  }

  // How a call ends the turn: an answer and an abort between two calls complete it, errors and hooks fail it, a hard
  // abort aborts it; and behind a graceful interrupt it never goes on.
  lemma HowACallEnds(cfg: Config, t: Turn, outcome: Outcome)
    requires t.status.Running?
    ensures var t' := Call(cfg, t, outcome);
            && (outcome.Error? || outcome.HookAbort? ==> t'.status.Failed?)
            && (outcome.HardAbort? ==> t'.status.Aborted?)
            && (outcome.Answer? || outcome.BackoffAbort? ==> t'.status.Completed?)
            && (t.interrupted && !t.terminalUsed ==> !t'.status.Running? && t'.terminalUsed)
            && (outcome.Escalate? && !(t.interrupted && !t.terminalUsed) ==> t'.status.Running?)
  {
    hide RunTools;
  }

  function RunRounds(cfg: Config, t: Turn, rounds: seq<Round>): Turn
    decreases |rounds|
  {
    if rounds == [] || !t.status.Running? then t else RunRounds(cfg, Iterate(cfg, t, rounds[0]), rounds[1..])
  }

  // ----- nothing polled is lost, doubled or reordered

  function MessagesOf(polled: seq<Polled>): seq<Msg> {
    seq(|polled|, k requires 0 <= k < |polled| => polled[k].m)
  }

  function TakenFrom(polled: seq<Polled>, s: string): seq<Msg> {
    if polled == [] then []
    else if polled[0].FromQueue? && polled[0].scope == s then [polled[0].m] + TakenFrom(polled[1..], s)
    else TakenFrom(polled[1..], s)
  }

  predicate Injected(cfg: Config, t: Turn, waiting: seq<Msg>) {
    t.injected + waiting == cfg.initial + MessagesOf(t.polled)
  }

  function Limit(cfg: Config): nat {
    if cfg.maxIterations > 0 then cfg.maxIterations else 0
  }

  // Between two rounds everything polled is either injected or waits in the list shared with the phases.
  predicate AtTop(cfg: Config, t: Turn) {
    && t.status.Running?
    && (if t.iteration == 0 then t.pending == t.execPending else t.pending == [])
    && Injected(cfg, t, t.execPending)
    && !t.terminalUsed
    && t.iteration <= Limit(cfg) + |t.injected|
  }

  predicate AtEnd(cfg: Config, t: Turn) {
    && (t.status.Completed? || t.status.Failed? ==> Injected(cfg, t, []))
    && t.iteration <= Limit(cfg) + |t.injected| + 1
  }

  predicate Fine(cfg: Config, t: Turn) {
    if t.status.Running? then AtTop(cfg, t) else AtEnd(cfg, t)
  }

  lemma MessagesOfAppend(a: seq<Polled>, b: seq<Polled>)
    ensures MessagesOf(a + b) == MessagesOf(a) + MessagesOf(b)
  {
  }

  lemma PolledMore(cfg: Config, injected: seq<Msg>, waiting: seq<Msg>, polled: seq<Polled>, more: seq<Polled>)
    requires injected + waiting == cfg.initial + MessagesOf(polled)
    ensures injected + (waiting + MessagesOf(more)) == cfg.initial + MessagesOf(polled + more)
  {
    MessagesOfAppend(polled, more);
    Assoc(injected, waiting, MessagesOf(more));
    Assoc(cfg.initial, MessagesOf(polled), MessagesOf(more));
  }

  // The pending list takes over what waited, and what is polled goes behind it.
  lemma GatherFine(cfg: Config, t: Turn, before: seq<Op>)
    requires AtTop(cfg, t)
    ensures var t1 := Gather(cfg, t, before);
            && Injected(cfg, t1, t1.pending)
            && (t1.iteration > 1 ==> t1.execPending == [])
            && (t1.pending == [] ==> t1.execPending == [])
            && (t.execPending != [] ==> t1.pending != [])
            && t1.iteration == t.iteration + 1
            && t1 == t.(iteration := t1.iteration, pending := t1.pending, execPending := t1.execPending,
                        queue := t1.queue, polled := t1.polled)
  {
    if t.iteration > 0 {
      assert [] + t.execPending == t.execPending;
    } else if !cfg.skipInitialPoll {
      var q := ApplyAll(t.queue, before);
      var msgs := DequeueWithFallback(q, cfg.key).1;
      var more := Tag(FallbackScope(q, cfg.key), msgs);
      assert MessagesOf(more) == msgs;
      PolledMore(cfg, t.injected, t.pending, t.polled, more);
    }
  }

  lemma InjectFine(cfg: Config, t: Turn, result: Option<Msg>)
    requires Injected(cfg, t, t.pending)
    requires t.pending == [] ==> t.execPending == []
    ensures var t1 := Inject(AddResult(t, result));
            && Injected(cfg, t1, [])
            && t1.execPending == []
            && |t1.injected| >= |t.injected| + |t.pending|
            && t1 == t.(injected := t1.injected, pending := t1.pending, execPending := [], polled := t1.polled)
  {
    var t1 := AddResult(t, result);
    if result.Some? {
      var more := [FromSubTurn(result.value)];
      assert MessagesOf(more) == [result.value];
      PolledMore(cfg, t.injected, t.pending, t.polled, more);
    }
    assert Inject(t1).injected == t1.injected + t1.pending;
    assert Inject(t1).injected + [] == Inject(t1).injected;
  }

  lemma TakeFine(cfg: Config, t: Turn, q: Queue, msgs: seq<Msg>)
    requires Injected(cfg, t, t.execPending)
    ensures Injected(cfg, Take(cfg, t, q, msgs), Take(cfg, t, q, msgs).execPending)
  {
    var more := Tag(Normalize(cfg.key), msgs);
    assert MessagesOf(more) == msgs;
    PolledMore(cfg, t.injected, t.execPending, t.polled, more);
  }

  lemma LatePollFine(cfg: Config, t: Turn, before: seq<Op>, allHandled: bool)
    requires AtTop(cfg, t) && t.iteration > 0 && t.execPending == []
    ensures Fine(cfg, LatePoll(cfg, t, before, allHandled))
  {
    hide DequeueScope, ApplyAll, Injected;
    var (q, late) := DequeueScope(ApplyAll(t.queue, before), cfg.key);
    var t1 := Take(cfg, t, q, late);
    TakeFine(cfg, t, q, late);
    assert t1.execPending == late && t1.iteration == t.iteration && t1.injected == t.injected;
    assert t1.pending == [] && t1.status.Running? && !t1.terminalUsed;
    hide Take;
    SameInjected(cfg, t1, LatePoll(cfg, t, before, allHandled));
  }

  lemma EndToolsFine(cfg: Config, t: Turn, phase: ToolPhase)
    requires AtTop(cfg, t) && t.iteration > 0 && t.execPending == []
    ensures Fine(cfg, EndTools(cfg, t, phase))
  {
    hide LatePoll, Injected;
    if phase.end.Tripped? || phase.end.ToolHookAbort? || phase.end.ToolHardAbort? {
      SameInjected(cfg, t, EndTools(cfg, t, phase));
    } else {
      LatePollFine(cfg, t, phase.late, phase.end.AllHandled?);
    }
  }

  lemma ToolsFine(cfg: Config, t: Turn, phase: ToolPhase)
    requires AtTop(cfg, t) && t.iteration > 0 && t.execPending == []
    ensures Fine(cfg, RunTools(cfg, t, phase))
  {
    hide Injected, Polls, EndTools;
    if !phase.end.Suspended? {
      var (q, msgs) := Polls(cfg.key, t.queue, phase.polls);
      TakeFine(cfg, t, q, msgs);
      assert Take(cfg, t, q, msgs).execPending == msgs;
      if msgs == [] {
        EndToolsFine(cfg, Take(cfg, t, q, msgs), phase);
      }
    }
  }

  lemma CallFine(cfg: Config, t: Turn, outcome: Outcome)
    requires t.status.Running? && t.iteration > 0 && t.execPending == [] && !t.terminalUsed
    requires Injected(cfg, t, [])
    requires t.iteration <= Limit(cfg) + |t.injected| + (if GracefulPending(t) then 1 else 0)
    ensures Fine(cfg, Call(cfg, t, outcome))
  {
    if outcome.Tools? && !GracefulPending(t) {
      ToolsFine(cfg, t.(pending := []), outcome.phase);
    }
  }

  lemma IterateFine(cfg: Config, t: Turn, r: Round)
    requires AtTop(cfg, t)
    ensures Fine(cfg, Iterate(cfg, t, r))
  {
    hide Injected, Gather, Inject, AddResult, Call;
    var t0 := Interrupt(t, r.interrupt);
    assert AtTop(cfg, t0) by { SameInjected(cfg, t, t0); }
    if !r.hardAbort && Guard(cfg, t0) {
      var t1 := Gather(cfg, t0, r.before);
      GatherFine(cfg, t0, r.before);
      if !r.parentGone {
        var t2 := Inject(AddResult(t1, r.result));
        InjectFine(cfg, t1, r.result);
        var t3 := Interrupt(t2, r.interruptLate);
        SameInjected(cfg, t2, t3);
        CallFine(cfg, t3, r.outcome);
      }
    } else if !r.hardAbort {
      SameInjected(cfg, t0, t0.(status := Completed));
    }
  }

  lemma SameInjected(cfg: Config, t: Turn, t': Turn)
    requires t'.injected == t.injected && t'.polled == t.polled
    ensures forall waiting :: Injected(cfg, t, waiting) <==> Injected(cfg, t', waiting)
  {
  }

  // ----- in the order the queue accepted them

  // The queue is in order, and what left scope s since the turn began is what the turn took from it.
  ghost predicate OwnTaker(t: Turn, s: string, start: Queue) {
    && FifoAt(t.queue, s)
    && Of(t.queue.removed, s) == Of(start.removed, s) + TakenFrom(t.polled, s)
  }

  predicate AllForeign(ops: seq<Op>, s: string) {
    forall k | 0 <= k < |ops| :: Foreign(ops[k], s)
  }

  predicate ForeignPhase(p: ToolPhase, s: string) {
    AllForeign(p.late, s) && forall k | 0 <= k < |p.polls| :: AllForeign(p.polls[k], s)
  }

  // Nobody else takes messages from scope s during the round.
  predicate ForeignRound(r: Round, s: string) {
    AllForeign(r.before, s) && (r.outcome.Tools? ==> ForeignPhase(r.outcome.phase, s))
  }

  lemma {:induction false} TakenAppend(a: seq<Polled>, b: seq<Polled>, s: string)
    ensures TakenFrom(a + b, s) == TakenFrom(a, s) + TakenFrom(b, s)
  {
    if a == [] {
      assert a + b == b;
    } else {
      assert (a + b)[1..] == a[1..] + b;
      TakenAppend(a[1..], b, s);
      Assoc([a[0].m], TakenFrom(a[1..], s), TakenFrom(b, s));
    }
  }

  lemma {:induction false} TakenTag(x: string, msgs: seq<Msg>, s: string)
    ensures TakenFrom(Tag(x, msgs), s) == if x == s then msgs else []
  {
    if msgs != [] {
      TakenTag(x, msgs[1..], s);
      assert Tag(x, msgs)[1..] == Tag(x, msgs[1..]);
    }
  }

  // A poll of the turn, after others used the queue.
  lemma PollOwns(q: Queue, ops: seq<Op>, x: string, s: string)
    requires FifoAt(q, s) && AllForeign(ops, s)
    ensures var (q', msgs) := Dequeue(ApplyAll(q, ops), x);
            && FifoAt(q', s)
            && Of(q'.removed, s) == Of(q.removed, s) + TakenFrom(Tag(x, msgs), s)
  {
    hide FifoAt, Dequeue, ApplyAll;
    ForeignRun(q, ops, s);
    DequeueKeepsFifo(ApplyAll(q, ops), x, s);
    TakenTag(x, Dequeue(ApplyAll(q, ops), x).1, s);
  }

  lemma {:induction false} PollsOwn(key: string, q: Queue, polls: seq<seq<Op>>, s: string)
    requires FifoAt(q, s) && forall k | 0 <= k < |polls| :: AllForeign(polls[k], s)
    ensures var (q', msgs) := Polls(key, q, polls);
            && FifoAt(q', s)
            && Of(q'.removed, s) == Of(q.removed, s) + TakenFrom(Tag(Normalize(key), msgs), s)
    decreases |polls|
  {
    hide FifoAt, Dequeue, ApplyAll, AllForeign;
    if polls == [] {
      TakenTag(Normalize(key), [], s);
    } else {
      PollOwns(q, polls[0], Normalize(key), s);
      var (q1, msgs) := DequeueScope(ApplyAll(q, polls[0]), key);
      if msgs == [] {
        TakenTag(Normalize(key), [], s);
        forall k | 0 <= k < |polls[1..]|
          ensures AllForeign(polls[1..][k], s)
        {
          assert polls[1..][k] == polls[k + 1];
        }
        PollsOwn(key, q1, polls[1..], s);
      }
    }
  }

  // Polled messages go into both logs.
  lemma TakeOwns(t: Turn, q: Queue, x: string, msgs: seq<Msg>, s: string, start: Queue)
    requires OwnTaker(t, s, start) && FifoAt(q, s)
    requires Of(q.removed, s) == Of(t.queue.removed, s) + TakenFrom(Tag(x, msgs), s)
    ensures Of(q.removed, s) == Of(start.removed, s) + TakenFrom(t.polled + Tag(x, msgs), s)
  {
    TakenAppend(t.polled, Tag(x, msgs), s);
    Assoc(Of(start.removed, s), TakenFrom(t.polled, s), TakenFrom(Tag(x, msgs), s));
  }

  lemma GatherOwns(cfg: Config, t: Turn, before: seq<Op>, s: string, start: Queue)
    requires OwnTaker(t, s, start) && AllForeign(before, s)
    ensures OwnTaker(Gather(cfg, t, before), s, start)
  {
    hide FifoAt, Dequeue, ApplyAll, Tag, Of;
    if t.iteration == 0 && !cfg.skipInitialPoll {
      var q := ApplyAll(t.queue, before);
      var x := FallbackScope(q, cfg.key);
      PollOwns(t.queue, before, x, s);
      var (q', msgs) := Dequeue(q, x);
      TakeOwns(t, q', x, msgs, s, start);
    }
  }

  lemma InjectOwns(t: Turn, result: Option<Msg>, s: string, start: Queue)
    requires OwnTaker(t, s, start)
    ensures OwnTaker(Inject(AddResult(t, result)), s, start)
  {
    hide FifoAt, Of;
    if result.Some? {
      var more := [FromSubTurn(result.value)];
      assert TakenFrom(more, s) == [];
      TakenAppend(t.polled, more, s);
      assert TakenFrom(t.polled, s) + [] == TakenFrom(t.polled, s);
    }
  }

  lemma EndToolsOwn(cfg: Config, t: Turn, phase: ToolPhase, s: string, start: Queue)
    requires OwnTaker(t, s, start) && AllForeign(phase.late, s)
    ensures OwnTaker(EndTools(cfg, t, phase), s, start)
  {
    hide FifoAt, Dequeue, ApplyAll, Tag, Of, TakenFrom, AllForeign, Normalize;
    if !phase.end.Tripped? && !phase.end.ToolHookAbort? && !phase.end.ToolHardAbort? {
      PollOwns(t.queue, phase.late, Normalize(cfg.key), s);
      var (q, late) := DequeueScope(ApplyAll(t.queue, phase.late), cfg.key);
      TakeOwns(t, q, Normalize(cfg.key), late, s, start);
    }
  }

  lemma ToolsOwn(cfg: Config, t: Turn, phase: ToolPhase, s: string, start: Queue)
    requires OwnTaker(t, s, start) && ForeignPhase(phase, s)
    ensures OwnTaker(RunTools(cfg, t, phase), s, start)
  {
    hide FifoAt, Tag, Of, Polls, TakenFrom, AllForeign, Normalize, EndTools;
    if !phase.end.Suspended? {
      var (q, msgs) := Polls(cfg.key, t.queue, phase.polls);
      PollsOwn(cfg.key, t.queue, phase.polls, s);
      TakeOwns(t, q, Normalize(cfg.key), msgs, s, start);
      if msgs == [] {
        EndToolsOwn(cfg, Take(cfg, t, q, msgs), phase, s, start);
      }
    }
  }

  lemma IterateOwns(cfg: Config, t: Turn, r: Round, s: string, start: Queue)
    requires OwnTaker(t, s, start) && ForeignRound(r, s)
    ensures OwnTaker(Iterate(cfg, t, r), s, start)
  {
    hide FifoAt, Of, TakenFrom, Gather, Inject, AddResult, RunTools, ForeignPhase, AllForeign;
    var t0 := Interrupt(t, r.interrupt);
    if !r.hardAbort && Guard(cfg, t0) {
      var t1 := Gather(cfg, t0, r.before);
      GatherOwns(cfg, t0, r.before, s, start);
      if !r.parentGone {
        var t2 := Interrupt(Inject(AddResult(t1, r.result)), r.interruptLate);
        InjectOwns(t1, r.result, s, start);
        if r.outcome.Tools? {
          var graceful := GracefulPending(t2);
          ToolsOwn(cfg, t2.(terminalUsed := t2.terminalUsed || graceful, pending := t2.execPending),
                   r.outcome.phase, s, start);
        }
      }
    }
  }

  lemma {:induction false} RoundsFine(cfg: Config, t: Turn, rounds: seq<Round>)
    requires Fine(cfg, t)
    ensures Fine(cfg, RunRounds(cfg, t, rounds))
    decreases |rounds|
  {
    hide Iterate, AtTop, AtEnd;
    if rounds != [] && t.status.Running? {
      IterateFine(cfg, t, rounds[0]);
      RoundsFine(cfg, Iterate(cfg, t, rounds[0]), rounds[1..]);
    }
  }

  lemma {:induction false} RoundsOwn(cfg: Config, t: Turn, rounds: seq<Round>, s: string, start: Queue)
    requires OwnTaker(t, s, start) && forall k | 0 <= k < |rounds| :: ForeignRound(rounds[k], s)
    ensures OwnTaker(RunRounds(cfg, t, rounds), s, start)
    decreases |rounds|
  {
    hide Iterate, OwnTaker, ForeignRound;
    if rounds != [] && t.status.Running? {
      IterateOwns(cfg, t, rounds[0], s, start);
      forall k | 0 <= k < |rounds[1..]|
        ensures ForeignRound(rounds[1..][k], s)
      {
        assert rounds[1..][k] == rounds[k + 1];
      }
      RoundsOwn(cfg, Iterate(cfg, t, rounds[0]), rounds[1..], s, start);
    }
  }

  lemma StartFine(cfg: Config, queue: Queue)
    ensures AtTop(cfg, Start(cfg, queue))
  {
    assert [] + cfg.initial == cfg.initial == cfg.initial + [];
  }

  // In every run of a turn that completes or fails, whatever the turn started with or polled is injected exactly
  // once and in the order of polling, for both queue modes and any mode changes. While it runs, what is not yet
  // injected waits for the next round; only an abort, or leaving because the parent is gone, drops it.
  lemma PolledIsInjectedOnce(cfg: Config, queue: Queue, rounds: seq<Round>)
    ensures var t := RunRounds(cfg, Start(cfg, queue), rounds);
            && (t.status.Completed? || t.status.Failed? ==> t.injected == cfg.initial + MessagesOf(t.polled))
            && (t.status.Running? ==> t.injected + t.execPending == cfg.initial + MessagesOf(t.polled))
  {
    StartFine(cfg, queue);
    RoundsFine(cfg, Start(cfg, queue), rounds);
    var t := RunRounds(cfg, Start(cfg, queue), rounds);
    assert t.injected + [] == t.injected;
  }

  // The messages the turn polled from a scope nobody else takes from are the oldest ones the queue accepted for it
  // since, in that order, and everything behind them still waits in the queue.
  lemma PolledInAcceptanceOrder(cfg: Config, queue: Queue, rounds: seq<Round>, s: string)
    requires FifoAt(queue, s) && forall k | 0 <= k < |rounds| :: ForeignRound(rounds[k], s)
    ensures var t := RunRounds(cfg, Start(cfg, queue), rounds);
            Of(t.queue.accepted, s) == Of(queue.removed, s) + TakenFrom(t.polled, s) + Queued(t.queue, s)
  {
    assert Of(queue.removed, s) + [] == Of(queue.removed, s);
    RoundsOwn(cfg, Start(cfg, queue), rounds, s, queue);
  }

  // A turn runs at most MaxIterations rounds, one more for every message injected, and one for a graceful end.
  lemma RoundsAreBounded(cfg: Config, queue: Queue, rounds: seq<Round>)
    ensures var t := RunRounds(cfg, Start(cfg, queue), rounds);
            t.iteration <= Limit(cfg) + |t.injected| + 1
  {
    StartFine(cfg, queue);
    RoundsFine(cfg, Start(cfg, queue), rounds);
  }

  // A round that calls tools and finds no steering anywhere.
  function IdleRound(): Round {
    Round(false, false, [], false, None, false, Tools(ToolPhase([], [], NotHandled)))
  }

  function IdleRounds(n: nat): seq<Round> {
    if n == 0 then [Round(true, false, [], false, None, false, Answer)] else [IdleRound()] + IdleRounds(n - 1)
  }

  lemma IdleRoundCounts(cfg: Config, t: Turn)
    requires cfg.skipInitialPoll && t.status.Running? && t.pending == t.execPending == [] && !t.interrupted
    requires t.iteration < cfg.maxIterations && Queued(t.queue, Normalize(cfg.key)) == []
    ensures Iterate(cfg, t, IdleRound()) == t.(iteration := t.iteration + 1)
  {
    hide Normalize;
    assert t.polled + Tag(Normalize(cfg.key), []) == t.polled;
    assert Tag(Normalize(cfg.key), []) == [];
  }

  lemma {:induction false} IdleRoundsCount(cfg: Config, t: Turn, n: nat)
    requires cfg.skipInitialPoll && t.status.Running? && t.pending == t.execPending == [] && !t.interrupted
    requires !t.terminalUsed && t.iteration + n == Limit(cfg) && Queued(t.queue, Normalize(cfg.key)) == []
    ensures var t' := RunRounds(cfg, t, IdleRounds(n));
            t'.status.Completed? && t'.injected == t.injected && t'.iteration == Limit(cfg) + 1
    decreases n
  {
    hide Normalize;
    if n == 0 {
      var r := Round(true, false, [], false, None, false, Answer);
      assert [r][1..] == [];
      assert RunRounds(cfg, t, [r]) == RunRounds(cfg, Iterate(cfg, t, r), []);
    } else {
      IdleRoundCounts(cfg, t);
      assert ([IdleRound()] + IdleRounds(n - 1))[1..] == IdleRounds(n - 1);
      IdleRoundsCount(cfg, t.(iteration := t.iteration + 1), n - 1);
    }
  }

  // The bound is reached for every limit: tool rounds until the limit, and then a graceful interrupt buys one more.
  lemma BoundIsReached(cfg: Config, queue: Queue)
    requires cfg.skipInitialPoll && cfg.initial == [] && Queued(queue, Normalize(cfg.key)) == []
    ensures var t := RunRounds(cfg, Start(cfg, queue), IdleRounds(Limit(cfg)));
            t.status.Completed? && t.injected == [] && t.iteration == Limit(cfg) + |t.injected| + 1
  {
    IdleRoundsCount(cfg, Start(cfg, queue), Limit(cfg));
  }

  // ----- the loop as the source runs it

  class TurnRunner {
    const cfg: Config
    const queue: SteeringQueue
    var iteration: nat
    var execPending: seq<Msg>
    var injected: seq<Msg>
    var gracefulInterrupt: bool
    var gracefulTerminalUsed: bool
    ghost var polled: seq<Polled>

    ghost function View(pending: seq<Msg>, status: Status): Turn
      reads this, queue
    {
      Turn(iteration, pending, execPending, injected, polled, queue.View(), gracefulInterrupt, gracefulTerminalUsed,
           status)
    }

    constructor (cfg: Config, queue: SteeringQueue)
      ensures this.cfg == cfg && this.queue == queue
      ensures View(cfg.initial, Running) == Start(cfg, queue.View())
    {
      this.cfg, this.queue := cfg, queue;
      iteration, execPending, injected, polled := 0, cfg.initial, [], [];
      gracefulInterrupt, gracefulTerminalUsed := false, false;
    }

    method Other(op: Op)
      modifies queue
      ensures queue.View() == Apply(old(queue.View()), op)
    {
      hide Push, DequeueScope, DequeueWithFallback, Clear;
      match op {
        case PushOp(scope, m) => var _ := queue.PushScope(scope, m);
        case DequeueOp(scope) => var _ := queue.DequeueScoped(scope);
        case FallbackOp(scope) => var _ := queue.DequeueScopeWithFallback(scope);
        case ClearOp(scope) => var _ := queue.ClearScope(scope);
        case ModeOp(mode) => queue.SetMode(mode);
      }
    }

    // What others do to the queue meanwhile.
    method Others(ops: seq<Op>)
      modifies queue
      ensures queue.View() == ApplyAll(old(queue.View()), ops)
    {
      hide Apply;
      var k := 0;
      while k < |ops|
        invariant 0 <= k <= |ops|
        invariant ApplyAll(queue.View(), ops[k..]) == ApplyAll(old(queue.View()), ops)
      {
        assert ops[k..][1..] == ops[k + 1..];
        Other(ops[k]);
        k := k + 1;
      }
    }

    method RequestGracefulInterrupt(now: bool)
      modifies this`gracefulInterrupt
      ensures gracefulInterrupt == (old(gracefulInterrupt) || now)
    {
      if now {
        gracefulInterrupt := true;
      }
    }

    method FillPending(pending: seq<Msg>, before: seq<Op>) returns (out: seq<Msg>)
      modifies this, queue
      ensures View(out, Running) == Gather(cfg, old(View(pending, Running)), before)
    {
      hide ApplyAll, Dequeue;
      out := pending;
      iteration := iteration + 1;
      if iteration > 1 {
        if |execPending| > 0 {
          out := out + execPending;
          execPending := [];
        } else {
          assert out == pending + execPending;
        }
      } else if !cfg.skipInitialPoll {
        Others(before);
        ghost var q := queue.View();
        var msgs := queue.DequeueScopeWithFallback(cfg.key);
        polled := polled + Tag(FallbackScope(q, cfg.key), msgs);
        if |msgs| > 0 {
          out := out + msgs;
        } else {
          assert out == pending + msgs;
        }
      }
    }

    method InjectPending(pending: seq<Msg>, result: Option<Msg>) returns (out: seq<Msg>)
      modifies this
      ensures View(out, Running) == Inject(AddResult(old(View(pending, Running)), result))
      ensures queue.View() == old(queue.View())
    {
      out := pending;
      if result.Some? {
        out := out + [result.value];
        polled := polled + [FromSubTurn(result.value)];
      }
      if |out| > 0 {
        injected := injected + out;
        execPending := [];
      }
    }

    method PollSteering() returns (found: bool)
      modifies this`execPending, this`polled, queue
      ensures var (q, msgs) := DequeueScope(old(queue.View()), cfg.key);
              && found == (msgs != [])
              && queue.View() == q
              && execPending == old(execPending) + msgs
              && polled == old(polled) + Tag(Normalize(cfg.key), msgs)
    {
      var msgs := queue.DequeueScoped(cfg.key);
      polled := polled + Tag(Normalize(cfg.key), msgs);
      execPending := execPending + msgs;
      found := |msgs| > 0;
    }

    // Poll after each answered call until steering turns up.
    method PollBetweenCalls(polls: seq<seq<Op>>) returns (found: bool)
      modifies this`execPending, this`polled, queue
      ensures var (q, msgs) := Polls(cfg.key, old(queue.View()), polls);
              && found == (msgs != [])
              && queue.View() == q
              && execPending == old(execPending) + msgs
              && polled == old(polled) + Tag(Normalize(cfg.key), msgs)
    {
      hide DequeueScope, ApplyAll;
      ghost var all := Polls(cfg.key, queue.View(), polls);
      var k := 0;
      found := false;
      assert polls[0..] == polls;
      while k < |polls|
        invariant 0 <= k <= |polls| && !found
        invariant Polls(cfg.key, queue.View(), polls[k..]) == all
        invariant execPending == old(execPending) && polled == old(polled)
      {
        assert polls[k..][1..] == polls[k + 1..];
        Others(polls[k]);
        found := PollSteering();
        if found {
          return;
        }
        k := k + 1;
      }
    }

    // The tool phase, as far as steering is concerned.
    method ExecuteTools(ghost pending: seq<Msg>, phase: ToolPhase) returns (status: Status)
      modifies this`execPending, this`polled, queue
      ensures View(pending, status) == RunTools(cfg, old(View(pending, Running)), phase)
    {
      hide Polls, EndTools;
      status := Running;
      if phase.end.Suspended? {
        return;
      }
      var found := PollBetweenCalls(phase.polls);
      if !found {
        status := FinishTools(pending, phase);
      }
    }

    method PollLate(ghost pending: seq<Msg>, before: seq<Op>, allHandled: bool) returns (status: Status)
      modifies this`execPending, this`polled, queue
      ensures View(pending, status) == LatePoll(cfg, old(View(pending, Running)), before, allHandled)
    {
      hide DequeueScope, ApplyAll, Tag, Normalize;
      Others(before);
      var found := PollSteering();
      status := if !found && allHandled then Completed else Running;
    }

    method FinishTools(ghost pending: seq<Msg>, phase: ToolPhase) returns (status: Status)
      modifies this`execPending, this`polled, queue
      ensures View(pending, status) == EndTools(cfg, old(View(pending, Running)), phase)
    {
      hide DequeueScope, ApplyAll, LatePoll;
      match phase.end {
        case Tripped => status := Completed;
        case ToolHookAbort => status := Failed;
        case ToolHardAbort => status := Aborted;
        case _ => status := PollLate(pending, phase.late, phase.end.AllHandled?);
      }
    }

    method CallModel(pending: seq<Msg>, outcome: Outcome) returns (out: seq<Msg>, status: Status)
      modifies this, queue
      ensures View(out, status) == Call(cfg, old(View(pending, Running)), outcome)
    {
      hide RunTools;
      var graceful := gracefulInterrupt && !gracefulTerminalUsed;
      if graceful {
        gracefulTerminalUsed := true;
      }
      out := pending;
      match outcome {
        case Error => return out, Failed;
        case HookAbort => return out, Failed;
        case HardAbort => return out, Aborted;
        case _ =>
      }
      out := execPending;
      if outcome.Answer? || outcome.BackoffAbort? || graceful {
        return out, Completed;
      }
      status := Running;
      if outcome.Tools? {
        status := ExecuteTools(out, outcome.phase);
      }
    }

    method RunRound(pending: seq<Msg>, r: Round) returns (out: seq<Msg>, status: Status)
      modifies this, queue
      ensures View(out, status) == Iterate(cfg, old(View(pending, Running)), r)
    {
      hide Gather, Inject, AddResult, Call;
      out, status := pending, Running;
      RequestGracefulInterrupt(r.interrupt);
      var graceful := gracefulInterrupt && !gracefulTerminalUsed;
      if !(iteration < cfg.maxIterations || |execPending| > 0 || graceful) {
        status := if r.hardAbort then Aborted else Completed;
        return;
      }
      if r.hardAbort {
        return out, Aborted;
      }
      out := FillPending(out, r.before);
      if r.parentGone {
        return out, Left;
      }
      out := InjectPending(out, r.result);
      RequestGracefulInterrupt(r.interruptLate);
      out, status := CallModel(out, r.outcome);
    }

    // A finite stretch of a turn: one round after the other until the turn ends.
    method RunTurn(rounds: seq<Round>) returns (out: seq<Msg>, status: Status)
      modifies this, queue
      ensures View(out, status) == RunRounds(cfg, old(View(execPending, Running)), rounds)
    {
      hide Iterate;
      out, status := execPending, Running;
      var k := 0;
      assert rounds[0..] == rounds;
      while k < |rounds| && status == Running
        invariant 0 <= k <= |rounds|
        invariant RunRounds(cfg, View(out, status), rounds[k..])
               == RunRounds(cfg, old(View(execPending, Running)), rounds)
      {
        assert rounds[k..][1..] == rounds[k + 1..];
        out, status := RunRound(out, rounds[k]);
        k := k + 1;
      }
    }
  }
}
