/**
 The tool phase polls the steering queue behind every call that ran. The loop of the turn knows the phase only by
 those polls and by how it ends; here the two views are shown to agree.
 */
module ToolSteering {
  import opened Messages
  import opened RepeatGuard
  import opened Steering
  import opened Wrappers
  import E = ExecuteTools
  import L = TurnLoop

  // The call at position i is answered by a result, and the queue is polled behind it.
  predicate Polls(env: E.Env, call: ToolCall, s: E.Script, st: E.Exec) {
    && E.ReachesGuard(env, call, s)
    && Decide(st.guard, env.signature(call), env.limit).Allow?
    && E.OutcomeOf(env, call, s).Some?
  }

  // What the phase finds behind each call is what the queue gives, after others did `ops(i)` to it.
  predicate FromQueue(env: E.Env, key: string, q: Queue, calls: seq<ToolCall>, i: nat, st: E.Exec, ops: nat -> seq<Op>)
    requires i <= |calls|
    decreases |calls| - i
  {
    i == |calls| ||
    var s := env.script(i);
    var (st1, next) := E.OneCall(env, calls[i], s, st);
    if Polls(env, calls[i], s, st) then
      var (q1, msgs) := DequeueScope(ApplyAll(q, ops(i)), key);
      s.steering == msgs && (next.GoOn? ==> FromQueue(env, key, q1, calls, i + 1, st1, ops))
    else next.GoOn? ==> FromQueue(env, key, q, calls, i + 1, st1, ops)
  }

  // What others did before each poll of the phase.
  function PollsOf(env: E.Env, calls: seq<ToolCall>, i: nat, st: E.Exec, ops: nat -> seq<Op>): seq<seq<Op>>
    requires i <= |calls|
    decreases |calls| - i
  {
    if i == |calls| then []
    else
      var s := env.script(i);
      var (st1, next) := E.OneCall(env, calls[i], s, st);
      var rest := if next.GoOn? then PollsOf(env, calls, i + 1, st1, ops) else [];
      if Polls(env, calls[i], s, st) then [ops(i)] + rest else rest
  }

  lemma OneCallPolls(env: E.Env, call: ToolCall, s: E.Script, st: E.Exec)
    requires st.pending == []
    ensures var (st', next) := E.OneCall(env, call, s, st);
            if Polls(env, call, s, st)
            then st'.pending == s.steering
                 && (s.steering != [] ==> next.SkipRest?)
                 && (s.steering == [] ==> next.SkipRest? || next.GoOn?)
            else st'.pending == [] && !next.SkipRest?
  {
    hide Checked, Recorded, Decide;
  }

  // The batch the loop leaves pending is the one its polls yield.
  lemma {:induction false} LoopPolls(env: E.Env, key: string, q: Queue, calls: seq<ToolCall>, i: nat, st: E.Exec,
                                     ops: nat -> seq<Op>)
    requires i <= |calls| && st.pending == []
    requires FromQueue(env, key, q, calls, i, st, ops)
    ensures E.Loop(env, calls, i, st).0.pending == L.Polls(key, q, PollsOf(env, calls, i, st, ops)).1
    decreases |calls| - i
  {
    hide E.OneCall, Polls, DequeueScope, ApplyAll, E.SkipFrom;
    if i < |calls| {
      var s := env.script(i);
      var (st1, next) := E.OneCall(env, calls[i], s, st);
      OneCallPolls(env, calls[i], s, st);
      var rest := if next.GoOn? then PollsOf(env, calls, i + 1, st1, ops) else [];
      var q1 := if Polls(env, calls[i], s, st) then DequeueScope(ApplyAll(q, ops(i)), key).0 else q;
      assert ([ops(i)] + rest)[1..] == rest;
      match next {
        case GoOn => LoopPolls(env, key, q1, calls, i + 1, st1, ops);
        case SkipRest(notice) => E.SkipKeepsPending(st1, calls, i + 1, env.text(notice));
        case Trip => E.SkipKeepsPending(st1, calls, i, env.text(E.RepeatedSkip));
        case _ =>
      }
    }
  }

  function EndOf(exit: E.Exit, allHandled: bool): L.ToolEnd {
    match exit
    case Finished => if allHandled then L.AllHandled else L.NotHandled
    case Tripped => L.Tripped
    case AbortedHard => L.ToolHardAbort
    case AbortedByHook => L.ToolHookAbort
  }

  function PhaseOf(env: E.Env, calls: seq<ToolCall>, st: E.Exec, ops: nat -> seq<Op>, before: seq<Op>, suspended: bool)
    : L.ToolPhase
  {
    var (st', exit) := E.Loop(env, calls, 0, st);
    L.ToolPhase(PollsOf(env, calls, 0, st, ops), before,
                if suspended then L.Suspended else EndOf(exit, st'.allHandled))
  }

  // The late poll happens only behind a loop that ran to its end without steering.
  predicate LateFromQueue(env: E.Env, key: string, q: Queue, calls: seq<ToolCall>, st: E.Exec, ops: nat -> seq<Op>,
                          before: seq<Op>, late: seq<Msg>) {
    late == DequeueScope(ApplyAll(L.Polls(key, q, PollsOf(env, calls, 0, st, ops)).0, before), key).1
  }

  function StatusOf(exit: E.Exit, control: E.ToolControl): L.Status {
    if control.Continue? then L.Running
    else match exit
      case AbortedHard => L.Aborted
      case AbortedByHook => L.Failed
      case _ => L.Completed
  }

  // Seen from the loop of the turn, the tool phase leaves the same steering pending and ends the turn in the same
  // way as the phase that executes the calls.
  lemma PhasesAgree(cfg: L.Config, t: L.Turn, env: E.Env, calls: seq<ToolCall>, st: E.Exec, ops: nat -> seq<Op>,
                    before: seq<Op>, late: seq<Msg>, summary: string, suspended: bool)
    requires t.status.Running? && t.execPending == [] && st.pending == []
    requires FromQueue(env, cfg.key, t.queue, calls, 0, st, ops)
    requires LateFromQueue(env, cfg.key, t.queue, calls, st, ops, before, late)
    ensures var (st', exit, control) := E.Executed(env, calls, late, summary, suspended, st);
            var t' := L.RunTools(cfg, t, PhaseOf(env, calls, st, ops, before, suspended));
            t'.execPending == st'.pending && t'.status == StatusOf(exit, control)
  {
    hide E.Loop, PollsOf, L.Polls, DequeueScope, ApplyAll, E.SkipFrom, FromQueue;
    E.SkipKeepsPending(st, calls, 0, env.text(E.Suspended));
    LoopPolls(env, cfg.key, t.queue, calls, 0, st, ops);
    E.LoopKeepsPending(env, calls, 0, st);
  }
}
