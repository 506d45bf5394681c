/**
 The tool loop of a turn. Hooks, approvals, the turn profile, tool results, steering, interrupts and sub-turn
 results are data of the run; what the loop does with them is modelled branch by branch.
 */
module ExecuteTools {
  import opened Messages
  import opened TurnState
  import opened RepeatGuard
  import opened Wrappers

  // `content` and `media` are what the model sees; `hash` identifies the result for the repeat guard.
  datatype ToolResult = ToolResult(content: string, media: seq<string>, handled: bool, hash: string)

  datatype BeforeHook =
    | ContinueWith(name: string)    // also a modified call, and no hook at all
    | Respond(result: ToolResult)   // the hook answers in place of the tool
    | RespondNothing                // asked to respond without a result: logged, then treated like Continue
    | DenyTool(reason: string)
    | AbortBefore
    | HardAbortBefore

  datatype AfterHook = Keep | AbortAfter | HardAbortAfter

  // Everything that is decided outside the loop while it handles one call.
  datatype Script = Script(
    abortRequested: bool,            // hard abort, seen before the call
    unknownHint: Option<string>,     // the active focus window knows no such tool
    before: BeforeHook,
    approval: Option<string>,        // the reason when the approval hook refuses
    abortDuring: bool,               // hard abort, seen after the tool ran
    after: AfterHook,
    result: ToolResult,              // what the tool, or the hook after it, returned
    steering: seq<Msg>,              // dequeued after the result
    graceful: bool,                  // a graceful interrupt is pending
    subTurn: Option<string>)         // the sub-turn result polled after the result

  datatype Env = Env(
    allowed: string -> bool,         // the turn profile
    signature: ToolCall -> string,
    limit: int,
    script: nat -> Script,
    text: Notice -> string)          // the wording of the loop's own tool results

  datatype Notice =
    NotAllowed | Repeated | RepeatedSkip | Denied(reason: string) | SteeringSkip | InterruptSkip | Suspended

  // Whether the turn stores its messages, and whether it has a channel of pending results that it polls.
  datatype TurnKind = TurnKind(noHistory: bool, hasChannel: bool)

  // Only sub-turns have a channel, and sub-turns keep no history.
  predicate Occurs(kind: TurnKind) {
    kind.hasChannel ==> kind.noHistory
  }

  const SUBTURN := TurnKind(true, true)

  // What the loop changes: the messages for the model, the session, and what the turn recorded as persisted.
  datatype Exec = Exec(
    kind: TurnKind,
    messages: seq<Msg>,
    session: seq<Msg>,
    persisted: seq<Msg>,
    pending: seq<Msg>,
    guard: Guard,
    allHandled: bool)

  function ToolMsg(id: string, content: string, media: seq<string>): (m: Msg)
    ensures IsTool(m) && m.toolCallId == id
  {
    Msg(Tool, content, [], id, media, "tool-result")
  }

  function SubTurnMsg(content: string): (m: Msg)
    ensures IsUser(m)
  {
    Msg(User, "[SubTurn Result] " + content, [], "", [], "sub-turn")
  }

  function AddMsg(st: Exec, m: Msg, recorded: bool): Exec {
    st.(messages := st.messages + [m],
        session := if st.kind.noHistory then st.session else st.session + [m],
        persisted := if st.kind.noHistory || !recorded then st.persisted else st.persisted + [m])
  }

  // A call that did not run: it is answered with a notice, and the model has to see it.
  function AddNotice(st: Exec, id: string, content: string): Exec {
    AddMsg(st, ToolMsg(id, content, []), true).(allHandled := false)
  }

  function SkipFrom(st: Exec, calls: seq<ToolCall>, i: nat, content: string): Exec
    requires i <= |calls|
    decreases |calls| - i
  {
    if i == |calls| then st
    else SkipFrom(AddMsg(st, ToolMsg(calls[i].id, content, []), true), calls, i + 1, content)
  }

  datatype Then =
    | GoOn                      // with the next call
    | SkipRest(notice: Notice)  // the calls behind this one are answered with a notice
    | Trip                      // this call and those behind it are
    | HardAbort
    | HookAbort

  // The poll behind the call yields no sub-turn result.
  predicate Quiet(kind: TurnKind, s: Script) {
    !kind.hasChannel || s.subTurn.None? || s.subTurn.value == ""
  }

  // Answer the call with a result, then look for steering, an interrupt, or a sub-turn result.
  function Complete(env: Env, id: string, st: Exec, s: Script, r: ToolResult): (Exec, Then) {
    var st1 := AddMsg(st, ToolMsg(id, r.content, r.media), true)
      .(allHandled := st.allHandled && r.handled, pending := st.pending + s.steering);
    if st1.pending != [] then (st1, SkipRest(SteeringSkip))
    else if s.graceful then (st1, SkipRest(InterruptSkip))
    else if Quiet(st.kind, s) then (st1, GoOn)
    else (AddMsg(st1, SubTurnMsg(s.subTurn.value), false), GoOn)
  }

  function RunAllowed(env: Env, call: ToolCall, name: string, sig: string, st: Exec, s: Script): (Exec, Then) {
    if s.approval.Some? then (AddNotice(st, call.id, env.text(Denied(s.approval.value))), GoOn)
    else if !env.allowed(name) then (AddNotice(st, call.id, env.text(NotAllowed)), GoOn)
    else if s.abortDuring || s.after.HardAbortAfter? then (st, HardAbort)
    else if s.after.AbortAfter? then (st, HookAbort)
    else Complete(env, call.id, st.(guard := Recorded(st.guard, sig, s.result.hash)), s, s.result)
  }

  function OneCall(env: Env, call: ToolCall, s: Script, st: Exec): (Exec, Then) {
    if s.abortRequested then (st, HardAbort)
    else if s.unknownHint.Some? then (AddNotice(st, call.id, s.unknownHint.value), GoOn)
    else if !env.allowed(call.name) then (AddNotice(st, call.id, env.text(NotAllowed)), GoOn)
    else
      var sig := env.signature(call);
      var st1 := st.(guard := Checked(st.guard, sig, env.limit));
      match Decide(st.guard, sig, env.limit)
      case Warn => (AddNotice(st1, call.id, env.text(Repeated)), GoOn)
      case Stop => (st1.(allHandled := false), Trip)
      case Allow =>
        match s.before
        case Respond(r) => Complete(env, call.id, st1.(guard := Recorded(st1.guard, sig, r.hash)), s, r)
        case DenyTool(reason) => (AddNotice(st1, call.id, env.text(Denied(reason))), GoOn)
        case AbortBefore => (st1, HookAbort)
        case HardAbortBefore => (st1, HardAbort)
        case ContinueWith(name) => RunAllowed(env, call, name, sig, st1, s)
        case RespondNothing => RunAllowed(env, call, call.name, sig, st1, s)
  }

  datatype Exit = Finished | Tripped | AbortedHard | AbortedByHook

  function Loop(env: Env, calls: seq<ToolCall>, i: nat, st: Exec): (Exec, Exit)
    requires i <= |calls|
    decreases |calls| - i
  {
    if i == |calls| then (st, Finished)
    else
      var (st1, next) := OneCall(env, calls[i], env.script(i), st);
      match next
      case GoOn => Loop(env, calls, i + 1, st1)
      case SkipRest(notice) => (SkipFrom(st1, calls, i + 1, env.text(notice)), Finished)
      case Trip => (SkipFrom(st1, calls, i, env.text(RepeatedSkip)), Tripped)
      case HardAbort => (st1, AbortedHard)
      case HookAbort => (st1, AbortedByHook)
  }

  // ----- one result per call, in order

  function ResultIdsOf(added: seq<Msg>): seq<string> {
    if added == [] then []
    else if IsTool(added[0]) then [added[0].toolCallId] + ResultIdsOf(added[1..])
    else ResultIdsOf(added[1..])
  }

  function IdsFrom(calls: seq<ToolCall>, i: nat): seq<string>
    requires i <= |calls|
    decreases |calls| - i
  {
    if i == |calls| then [] else [calls[i].id] + IdsFrom(calls, i + 1)
  }

  // What was added, to the messages and to the session alike if the turn keeps a history: tool results, which are
  // recorded, and what was polled from the channel, which is not.
  ghost predicate Added(st: Exec, st': Exec, added: seq<Stored>) {
    && st'.kind == st.kind
    && st'.messages == st.messages + MessagesOf(added)
    && st'.session == (if st.kind.noHistory then st.session else st.session + MessagesOf(added))
    && st'.persisted == (if st.kind.noHistory then st.persisted else st.persisted + RecordedOf(added))
    && OnlyPolledUnrecorded(st.kind, added)
  }

  predicate OnlyPolledUnrecorded(kind: TurnKind, added: seq<Stored>) {
    forall k | 0 <= k < |added| ::
      if added[k].recorded then IsTool(added[k].m) else IsUser(added[k].m) && kind.hasChannel
  }

  lemma AddedTransitive(a: Exec, b: Exec, c: Exec, x: seq<Stored>, y: seq<Stored>)
    requires Added(a, b, x) && Added(b, c, y)
    ensures Added(a, c, x + y)
    ensures ResultIdsOf(MessagesOf(x + y)) == ResultIdsOf(MessagesOf(x)) + ResultIdsOf(MessagesOf(y))
  {
    MessagesOfParts(x, y);
    OnlyPolledAppend(a.kind, x, y);
    hide MessagesOf, RecordedOf, OnlyPolledUnrecorded;
    Assoc(a.messages, MessagesOf(x), MessagesOf(y));
    Assoc(a.session, MessagesOf(x), MessagesOf(y));
    RecordedAppend(x, y);
    Assoc(a.persisted, RecordedOf(x), RecordedOf(y));
    ResultIdsAppend(MessagesOf(x), MessagesOf(y));
  }

  lemma MessagesOfParts(x: seq<Stored>, y: seq<Stored>)
    ensures MessagesOf(x + y) == MessagesOf(x) + MessagesOf(y)
  {
  }

  lemma OnlyPolledAppend(kind: TurnKind, x: seq<Stored>, y: seq<Stored>)
    requires OnlyPolledUnrecorded(kind, x) && OnlyPolledUnrecorded(kind, y)
    ensures OnlyPolledUnrecorded(kind, x + y)
  {
  }

  lemma {:induction false} RecordedAppend(x: seq<Stored>, y: seq<Stored>)
    ensures RecordedOf(x + y) == RecordedOf(x) + RecordedOf(y)
  {
    if x == [] {
      assert x + y == y;
    } else {
      assert (x + y)[1..] == x[1..] + y;
      RecordedAppend(x[1..], y);
    }
  }

  lemma {:induction false} ResultIdsAppend(x: seq<Msg>, y: seq<Msg>)
    ensures ResultIdsOf(x + y) == ResultIdsOf(x) + ResultIdsOf(y)
  {
    if x == [] {
      assert x + y == y;
    } else {
      assert (x + y)[1..] == x[1..] + y;
      ResultIdsAppend(x[1..], y);
    }
  }

  lemma AddedOne(st: Exec, m: Msg, recorded: bool)
    requires if recorded then IsTool(m) else IsUser(m) && st.kind.hasChannel
    ensures Added(st, AddMsg(st, m, recorded), [Stored(m, recorded)])
    ensures ResultIdsOf(MessagesOf([Stored(m, recorded)])) == if recorded then [m.toolCallId] else []
  {
    var one := [Stored(m, recorded)];
    assert MessagesOf(one) == [m];
    assert RecordedOf(one) == if recorded then [m] else [];
    assert ResultIdsOf([m]) == if recorded then [m.toolCallId] else [];
  }

  lemma {:induction false} SkipAdds(st: Exec, calls: seq<ToolCall>, i: nat, content: string)
    returns (added: seq<Stored>)
    requires i <= |calls|
    ensures Added(st, SkipFrom(st, calls, i, content), added)
    ensures ResultIdsOf(MessagesOf(added)) == IdsFrom(calls, i)
    ensures forall k | 0 <= k < |added| :: added[k].recorded
    decreases |calls| - i
  {
    hide Added, MessagesOf, ResultIdsOf, AddMsg;
    NothingAdded(st);
    added := [];
    if i < |calls| {
      var m := ToolMsg(calls[i].id, content, []);
      var st1 := AddMsg(st, m, true);
      AddedOne(st, m, true);
      added := SkipAdds(st1, calls, i + 1, content);
      AddedTransitive(st, st1, SkipFrom(st1, calls, i + 1, content), [Stored(m, true)], added);
      added := [Stored(m, true)] + added;
    }
  }

  // One answer to the call `id`, and behind it at most one sub-turn result; `quiet` leaves no room for that one.
  ghost predicate AddsOne(st: Exec, st': Exec, id: string, quiet: bool, added: seq<Stored>) {
    && Added(st, st', added)
    && 1 <= |added| <= 2
    && added[0].recorded
    && ResultIdsOf(MessagesOf(added)) == [id]
    && (|added| == 2 ==> !quiet && !added[1].recorded)
  }

  lemma NoticeAdds(st: Exec, id: string, content: string) returns (added: seq<Stored>)
    ensures AddsOne(st, AddNotice(st, id, content), id, true, added)
  {
    var m := ToolMsg(id, content, []);
    AddedOne(st, m, true);
    added := [Stored(m, true)];
  }

  lemma CompleteAdds(env: Env, id: string, st: Exec, s: Script, r: ToolResult) returns (added: seq<Stored>)
    ensures var (st', next) := Complete(env, id, st, s, r);
            && AddsOne(st, st', id, Quiet(st.kind, s) || next.SkipRest?, added)
            && (next.GoOn? || next.SkipRest?)
  {
    var m := ToolMsg(id, r.content, r.media);
    var st1 := AddMsg(st, m, true).(allHandled := st.allHandled && r.handled, pending := st.pending + s.steering);
    AddedOne(st, m, true);
    added := [Stored(m, true)];
    if Complete(env, id, st, s, r).1.GoOn? && !Quiet(st.kind, s) {
      var u := SubTurnMsg(s.subTurn.value);
      AddedOne(st1, u, false);
      AddedTransitive(st, st1, AddMsg(st1, u, false), added, [Stored(u, false)]);
      added := added + [Stored(u, false)];
    }
  }

  predicate Answered(next: Then) {
    next.GoOn? || next.SkipRest?
  }

  lemma AllowedAdds(env: Env, call: ToolCall, name: string, sig: string, st: Exec, s: Script)
    returns (added: seq<Stored>)
    ensures var (st', next) := RunAllowed(env, call, name, sig, st, s);
            && (Answered(next) ==> AddsOne(st, st', call.id, Quiet(st.kind, s) || next.SkipRest?, added))
            && (!Answered(next) ==> Added(st, st', []))
            && !next.Trip?
  {
    hide Complete, AddNotice;
    assert MessagesOf([]) == [];
    added := [];
    if s.approval.Some? {
      added := NoticeAdds(st, call.id, env.text(Denied(s.approval.value)));
    } else if !env.allowed(name) {
      added := NoticeAdds(st, call.id, env.text(NotAllowed));
    } else {
      added := CompleteAdds(env, call.id, st.(guard := Recorded(st.guard, sig, s.result.hash)), s, s.result);
    }
  }

  // One call adds exactly one result with the id of the call, and behind it at most one sub-turn result, unless
  // the turn is aborted or ended by the guard; then it adds nothing.
  lemma OneCallAdds(env: Env, call: ToolCall, s: Script, st: Exec) returns (added: seq<Stored>)
    ensures var (st', next) := OneCall(env, call, s, st);
            && (Answered(next) ==> AddsOne(st, st', call.id, Quiet(st.kind, s) || next.SkipRest?, added))
            && (!Answered(next) ==> Added(st, st', []))
  {
    hide Complete, AddNotice, RunAllowed;
    assert MessagesOf([]) == [];
    added := [];
    var sig := env.signature(call);
    var st1 := st.(guard := Checked(st.guard, sig, env.limit));
    if s.abortRequested {
    } else if s.unknownHint.Some? {
      added := NoticeAdds(st, call.id, s.unknownHint.value);
    } else if !env.allowed(call.name) {
      added := NoticeAdds(st, call.id, env.text(NotAllowed));
    } else if Decide(st.guard, sig, env.limit).Warn? {
      added := NoticeAdds(st1, call.id, env.text(Repeated));
    } else if Decide(st.guard, sig, env.limit).Allow? {
      match s.before {
        case Respond(r) =>
          added := CompleteAdds(env, call.id, st1.(guard := Recorded(st1.guard, sig, r.hash)), s, r);
        case DenyTool(reason) => added := NoticeAdds(st1, call.id, env.text(Denied(reason)));
        case ContinueWith(name) => added := AllowedAdds(env, call, name, sig, st1, s);
        case RespondNothing => added := AllowedAdds(env, call, call.name, sig, st1, s);
        case _ =>
      }
    }
  }

  // The call gets as far as the repeat guard.
  predicate ReachesGuard(env: Env, call: ToolCall, s: Script) {
    !s.abortRequested && s.unknownHint.None? && env.allowed(call.name)
  }

  // The name under which the call runs, once the hook has had its say.
  function NameOf(call: ToolCall, s: Script): string {
    if s.before.ContinueWith? then s.before.name else call.name
  }

  // Behind the guard: a hook, the approval or the profile refuses the call.
  predicate Refused(env: Env, call: ToolCall, s: Script) {
    match s.before
    case DenyTool(_) => true
    case ContinueWith(_) => s.approval.Some? || !env.allowed(NameOf(call, s))
    case RespondNothing => s.approval.Some? || !env.allowed(NameOf(call, s))
    case _ => false
  }

  // The result the guard gets to see when it allows the call, if there is one.
  function OutcomeOf(env: Env, call: ToolCall, s: Script): Option<string> {
    match s.before
    case Respond(r) => Some(r.hash)
    case DenyTool(_) => None
    case AbortBefore => None
    case HardAbortBefore => None
    case _ => if Refused(env, call, s) || s.abortDuring || !s.after.Keep? then None else Some(s.result.hash)
  }

  // What becomes of a call: it is answered by a notice, it ends the loop, or it is answered by a result.
  datatype Fate = Noticed | Ending | Performed(hash: string)

  function FateOf(env: Env, call: ToolCall, s: Script, g: Guard): Fate {
    if s.abortRequested then Ending
    else if !ReachesGuard(env, call, s) then Noticed
    else match Decide(g, env.signature(call), env.limit)
      case Warn => Noticed
      case Stop => Ending
      case Allow =>
        if OutcomeOf(env, call, s).Some? then Performed(OutcomeOf(env, call, s).value)
        else if Refused(env, call, s) then Noticed
        else Ending
  }

  function GuardAfter(env: Env, call: ToolCall, s: Script, g: Guard): Guard {
    if !ReachesGuard(env, call, s) then g
    else
      var checked := Checked(g, env.signature(call), env.limit);
      var fate := FateOf(env, call, s, g);
      if fate.Performed? then Recorded(checked, env.signature(call), fate.hash) else checked
  }

  // Nothing stops the loop behind an answered call: no steering waits or arrives, and no interrupt is pending.
  predicate Undisturbed(s: Script, waiting: bool) {
    !waiting && s.steering == [] && !s.graceful
  }

  ghost predicate FitsFate(st: Exec, st': Exec, next: Then, s: Script, fate: Fate) {
    && (fate.Ending? <==> !Answered(next))
    && (fate.Ending? ==> st'.pending == st.pending)
    && (fate.Noticed? ==> next.GoOn? && st'.pending == st.pending && |st'.messages| == |st.messages| + 1)
    && (fate.Performed? ==>
          && st'.pending == st.pending + s.steering
          && (next.GoOn? <==> Undisturbed(s, st.pending != []))
          && |st'.messages| == |st.messages| + (if next.GoOn? && !Quiet(st.kind, s) then 2 else 1))
  }

  lemma CompleteFits(env: Env, id: string, st: Exec, s: Script, r: ToolResult)
    ensures var (st', next) := Complete(env, id, st, s, r);
            FitsFate(st, st', next, s, Performed(r.hash)) && st'.guard == st.guard
  {
  }

  lemma NoticeFits(st: Exec, id: string, content: string, s: Script)
    ensures FitsFate(st, AddNotice(st, id, content), GoOn, s, Noticed) && AddNotice(st, id, content).guard == st.guard
  {
  }

  lemma RunAllowedFits(env: Env, call: ToolCall, st: Exec, s: Script, sig: string)
    requires s.before.ContinueWith? || s.before.RespondNothing?
    ensures var (st', next) := RunAllowed(env, call, NameOf(call, s), sig, st, s);
            var outcome := OutcomeOf(env, call, s);
            var fate := if outcome.Some? then Performed(outcome.value)
                        else if Refused(env, call, s) then Noticed
                        else Ending;
            && FitsFate(st, st', next, s, fate) && !next.Trip?
            && st'.guard == if outcome.Some? then Recorded(st.guard, sig, outcome.value) else st.guard
  {
    hide Complete, AddNotice, Recorded;
    if s.approval.Some? {
      NoticeFits(st, call.id, env.text(Denied(s.approval.value)), s);
    } else if !env.allowed(NameOf(call, s)) {
      NoticeFits(st, call.id, env.text(NotAllowed), s);
    } else {
      CompleteFits(env, call.id, st.(guard := Recorded(st.guard, sig, s.result.hash)), s, s.result);
    }
  }

  // How one call of the loop ends, in terms of its fate.
  lemma OneCallFate(env: Env, call: ToolCall, s: Script, st: Exec)
    ensures var (st', next) := OneCall(env, call, s, st);
            && st'.guard == GuardAfter(env, call, s, st.guard)
            && FitsFate(st, st', next, s, FateOf(env, call, s, st.guard))
            && (next.Trip? <==> ReachesGuard(env, call, s) && Decide(st.guard, env.signature(call), env.limit).Stop?)
  {
    hide Complete, AddNotice, RunAllowed, Recorded, Checked, Decide;
    var sig := env.signature(call);
    var st1 := st.(guard := Checked(st.guard, sig, env.limit));
    if s.abortRequested {
    } else if s.unknownHint.Some? {
      NoticeFits(st, call.id, s.unknownHint.value, s);
    } else if !env.allowed(call.name) {
      NoticeFits(st, call.id, env.text(NotAllowed), s);
    } else if Decide(st.guard, sig, env.limit).Warn? {
      NoticeFits(st1, call.id, env.text(Repeated), s);
    } else if Decide(st.guard, sig, env.limit).Allow? {
      match s.before {
        case Respond(r) => CompleteFits(env, call.id, st1.(guard := Recorded(st1.guard, sig, r.hash)), s, r);
        case DenyTool(reason) => NoticeFits(st1, call.id, env.text(Denied(reason)), s);
        case AbortBefore =>
        case HardAbortBefore =>
        case _ => RunAllowedFits(env, call, st1, s, sig);
      }
    }
  }

  // Some call that is not the last is answered by a result, nothing stops the loop, and the poll behind it yields a
  // sub-turn result. The script of the calls and the guard decide it.
  predicate PollsEarly(env: Env, kind: TurnKind, calls: seq<ToolCall>, i: nat, g: Guard, waiting: bool)
    requires i <= |calls|
    decreases |calls| - i
  {
    i < |calls| - 1 &&
    var s := env.script(i);
    var next := GuardAfter(env, calls[i], s, g);
    match FateOf(env, calls[i], s, g)
    case Noticed => PollsEarly(env, kind, calls, i + 1, next, waiting)
    case Ending => false
    case Performed(_) =>
      Undisturbed(s, waiting) && (!Quiet(kind, s) || PollsEarly(env, kind, calls, i + 1, next, waiting))
  }

  // A sub-turn result in front of a tool result.
  predicate Early(added: seq<Stored>) {
    exists k :: 0 <= k < |added| - 1 && !added[k].recorded && added[k + 1].recorded
  }

  lemma EarlyAppend(first: seq<Stored>, rest: seq<Stored>)
    requires 1 <= |first| <= 2 && first[0].recorded
    requires |first| == 2 ==> !first[1].recorded
    requires rest != [] ==> rest[0].recorded
    ensures Early(first + rest) <==> (|first| == 2 && rest != []) || Early(rest)
  {
    var all := first + rest;
    if |first| == 2 && rest != [] {
      assert !all[1].recorded && all[1 + 1].recorded;
    }
    if k :| 0 <= k < |rest| - 1 && !rest[k].recorded && rest[k + 1].recorded {
      assert !all[|first| + k].recorded && all[|first| + k + 1].recorded;
    }
  }

  lemma NothingAdded(st: Exec)
    ensures Added(st, st, []) && MessagesOf([]) == [] && ResultIdsOf([]) == []
  {
    assert st.messages + [] == st.messages && st.session + [] == st.session && st.persisted + [] == st.persisted;
  }

  lemma AddedLength(st: Exec, st': Exec, added: seq<Stored>)
    requires Added(st, st', added)
    ensures |st'.messages| == |st.messages| + |added| && st'.kind == st.kind
  {
  }

  // The loop answers every call exactly once and in order, whether it runs to its end or is ended by the guard.
  lemma {:induction false} LoopAdds(env: Env, calls: seq<ToolCall>, i: nat, st: Exec) returns (added: seq<Stored>)
    requires i <= |calls|
    ensures var (st', exit) := Loop(env, calls, i, st);
            && Added(st, st', added)
            && (exit.Finished? || exit.Tripped? ==> ResultIdsOf(MessagesOf(added)) == IdsFrom(calls, i))
            && (i == |calls| ==> added == [])
            && (added != [] ==> added[0].recorded)
            && (exit.Finished? || exit.Tripped? ==>
                  (Early(added) <==> PollsEarly(env, st.kind, calls, i, st.guard, st.pending != [])))
    decreases |calls| - i
  {
    hide OneCall, AddMsg, FateOf, GuardAfter, Added, MessagesOf, ResultIdsOf;
    NothingAdded(st);
    if i == |calls| {
      added := [];
      return;
    }
    var (st1, next) := OneCall(env, calls[i], env.script(i), st);
    OneCallFate(env, calls[i], env.script(i), st);
    var first := OneCallAdds(env, calls[i], env.script(i), st);
    match next {
      case GoOn =>
        var rest := LoopAdds(env, calls, i + 1, st1);
        AddedLength(st, st1, first);
        AddedTransitive(st, st1, Loop(env, calls, i + 1, st1).0, first, rest);
        added := first + rest;
        assert i + 1 < |calls| ==> IdsFrom(calls, i + 1) != [];
        EarlyAppend(first, rest);
      case SkipRest(notice) =>
        var rest := SkipAdds(st1, calls, i + 1, env.text(notice));
        AddedTransitive(st, st1, SkipFrom(st1, calls, i + 1, env.text(notice)), first, rest);
        added := first + rest;
        EarlyAppend(first, rest);
      case Trip =>
        added := SkipAdds(st1, calls, i, env.text(RepeatedSkip));
        AddedTransitive(st, st1, SkipFrom(st1, calls, i, env.text(RepeatedSkip)), [], added);
        assert [] + added == added;
      case _ =>
        added := [];
    }
  }

  // ----- the conversation stays well formed

  lemma {:induction false} IdsFromAt(calls: seq<ToolCall>, i: nat)
    requires i <= |calls|
    ensures |IdsFrom(calls, i)| == |calls| - i
    ensures forall k | 0 <= k < |calls| - i :: IdsFrom(calls, i)[k] == calls[i + k].id
    decreases |calls| - i
  {
    if i < |calls| {
      IdsFromAt(calls, i + 1);
      var rest := IdsFrom(calls, i + 1);
      assert IdsFrom(calls, i) == [calls[i].id] + rest;
      assert forall k | 1 <= k < |calls| - i :: ([calls[i].id] + rest)[k] == rest[k - 1];
    }
  }

  // In front of the first sub-turn result there are only tool results, each with its id.
  lemma {:induction false} RunOfAdded(added: seq<Msg>)
    requires forall k | 0 <= k < |added| - 1 :: IsTool(added[k]) || !IsTool(added[k + 1])
    ensures RunLen(added) == |ResultIdsOf(added)|
    ensures forall k | 0 <= k < RunLen(added) :: ResultIdsOf(added)[k] == added[k].toolCallId
    ensures forall k | RunLen(added) <= k < |added| :: !IsTool(added[k])
  {
    if added != [] {
      var rest := added[1..];
      forall k | 0 <= k < |rest| - 1
        ensures IsTool(rest[k]) || !IsTool(rest[k + 1])
      {
        assert IsTool(added[k + 1]) || !IsTool(added[k + 1 + 1]);
      }
      RunOfAdded(rest);
      assert forall k | 1 <= k < |added| :: added[k] == rest[k - 1];
      if !IsTool(added[0]) && rest != [] {
        assert !IsTool(added[0 + 1]);
      }
    }
  }

  predicate Answerable(calls: seq<ToolCall>) {
    && (forall k | 0 <= k < |calls| :: calls[k].id != "")
    && (forall j, k | 0 <= j < k < |calls| :: calls[j].id != calls[k].id)
  }

  lemma SameIds(calls: seq<ToolCall>, run: seq<Msg>)
    requires |run| == |calls|
    requires forall k | 0 <= k < |calls| :: run[k].toolCallId == calls[k].id
    ensures ResultIds(run) == CallIds(calls)
    ensures "" in CallIds(calls) <==> exists k :: 0 <= k < |calls| && calls[k].id == ""
  {
    forall id | id in ResultIds(run)
      ensures id in CallIds(calls)
    {
      var k :| 0 <= k < |run| && run[k].toolCallId == id;
      assert calls[k] in calls;
    }
    forall id | id in CallIds(calls)
      ensures id in ResultIds(run)
    {
      var k :| 0 <= k < |calls| && calls[k].id == id;
      assert run[k] in run;
    }
  }

  // Tool results with exactly the ids of the calls, in order, answer the calls if those ids can be told apart.
  lemma AnswersIff(calls: seq<ToolCall>, run: seq<Msg>)
    requires |run| == |calls|
    requires forall k | 0 <= k < |calls| :: run[k].toolCallId == calls[k].id
    ensures Answers(calls, run) <==> Answerable(calls)
  {
    SameIds(calls, run);
    hide CallIds, ResultIds;
    if DistinctResults(run) {
      assert forall j, k | 0 <= j < k < |calls| :: run[j].toolCallId != run[k].toolCallId;
    }
  }

  lemma ResultsBehindCallIff(h: seq<Msg>, call: Msg, added: seq<Stored>)
    requires OpensExchange(h) && IsCall(call)
    requires forall k | 0 <= k < |added| ::
               if added[k].recorded then IsTool(added[k].m) else IsUser(added[k].m)
    requires ResultIdsOf(MessagesOf(added)) == IdsFrom(call.calls, 0)
    ensures WellFormed(h + [call] + MessagesOf(added)) <==>
              WellFormed(h) && Answerable(call.calls) && !Early(added)
  {
    hide WellFormed, Answerable, MessagesOf, ResultIdsOf;
    if Early(added) {
      EarlyIsMisplaced(h, call, added);
    } else {
      LateIsPlacedIff(h, call, added);
    }
  }

  lemma EarlyIsMisplaced(h: seq<Msg>, call: Msg, added: seq<Stored>)
    requires Early(added)
    requires forall k | 0 <= k < |added| ::
               if added[k].recorded then IsTool(added[k].m) else IsUser(added[k].m)
    ensures !WellFormed(h + [call] + MessagesOf(added))
  {
    var full := h + [call] + MessagesOf(added);
    var k :| 0 <= k < |added| - 1 && !added[k].recorded && added[k + 1].recorded;
    ResultAt(h, call, added);
    WedgedIsMisplaced(full, |h| + 1 + k + 1);
  }

  lemma LateIsPlacedIff(h: seq<Msg>, call: Msg, added: seq<Stored>)
    requires OpensExchange(h) && IsCall(call) && !Early(added)
    requires forall k | 0 <= k < |added| ::
               if added[k].recorded then IsTool(added[k].m) else IsUser(added[k].m)
    requires ResultIdsOf(MessagesOf(added)) == IdsFrom(call.calls, 0)
    ensures WellFormed(h + [call] + MessagesOf(added)) <==> WellFormed(h) && Answerable(call.calls)
  {
    var results := MessagesOf(added);
    NoneWedged(added);
    hide MessagesOf, Early;
    CallAndResultsPlaced(h, call, results);
    Assoc(h, [call], results);
    WellFormedOfParts(h, [call] + results);
    hide WellFormed, WellPlaced, Answerable, ResultIdsOf, IdsFrom;
  }

  lemma CallAndResultsPlaced(h: seq<Msg>, call: Msg, results: seq<Msg>)
    requires OpensExchange(h) && IsCall(call)
    requires forall k | 0 <= k < |results| :: IsTool(results[k]) || IsUser(results[k])
    requires forall k | 0 <= k < |results| - 1 :: IsTool(results[k]) || !IsTool(results[k + 1])
    requires ResultIdsOf(results) == IdsFrom(call.calls, 0)
    ensures var full := h + [call] + results;
            && (WellPlaced(full, |h|) <==> Answerable(call.calls))
            && forall i | |h| < i < |full| :: WellPlaced(full, i)
  {
    hide WellPlaced, Answerable, ResultIdsOf, IdsFrom;
    var full := h + [call] + results;
    assert full[|h|] == call && full[|h| - 1] == h[|h| - 1] && full[|h| + 1..] == results;
    CallPlacedIff(full, |h|, results);
    forall i | |h| < i < |full|
      ensures WellPlaced(full, i)
    {
      AddedIsPlaced(full, |h|, results, i);
    }
  }

  lemma ResultAt(h: seq<Msg>, call: Msg, added: seq<Stored>)
    ensures |h + [call] + MessagesOf(added)| == |h| + 1 + |added|
    ensures forall k | 0 <= k < |added| :: (h + [call] + MessagesOf(added))[|h| + 1 + k] == added[k].m
  {
  }

  lemma NoneWedged(added: seq<Stored>)
    requires !Early(added)
    requires forall k | 0 <= k < |added| :: if added[k].recorded then IsTool(added[k].m) else IsUser(added[k].m)
    ensures var results := MessagesOf(added);
            && (forall k | 0 <= k < |results| :: IsTool(results[k]) || IsUser(results[k]))
            && (forall k | 0 <= k < |results| - 1 :: IsTool(results[k]) || !IsTool(results[k + 1]))
  {
    var results := MessagesOf(added);
    forall k | 0 <= k < |results| - 1
      ensures IsTool(results[k]) || !IsTool(results[k + 1])
    {
      assert added[k].recorded || !added[k + 1].recorded;
    }
  }

  // A call that nothing precedes but a plain message stands wrong whatever answers it.
  lemma CallNeedsOpening(h: seq<Msg>, call: Msg, results: seq<Msg>)
    requires !OpensExchange(h) && IsCall(call)
    ensures !WellFormed(h + [call] + results)
  {
    var full := h + [call] + results;
    assert full[|h|] == call && !WellPlaced(full, |h|);
  }

  // With the results of a call message behind it a prompt is legal if and only if it was before, its last message
  // opens an exchange, the ids of the calls can be told apart, and no sub-turn result is wedged in front of a tool
  // result.
  lemma ResultsKeepContractIff(h: seq<Msg>, call: Msg, added: seq<Stored>)
    requires IsCall(call)
    requires forall k | 0 <= k < |added| ::
               if added[k].recorded then IsTool(added[k].m) else IsUser(added[k].m)
    requires ResultIdsOf(MessagesOf(added)) == IdsFrom(call.calls, 0)
    ensures LegalPrompt(h + [call] + MessagesOf(added)) <==>
              LegalPrompt(h) && OpensExchange(h) && Answerable(call.calls) && !Early(added)
  {
    hide WellFormed, Answerable, Early;
    var tail := [call] + MessagesOf(added);
    BodyAppend(h, tail);
    BodyOpens(h);
    hide Body, OpensExchange;
    Assoc(h, [call], MessagesOf(added));
    Assoc(Body(h), [call], MessagesOf(added));
    if OpensExchange(h) {
      ResultsBehindCallIff(Body(h), call, added);
    } else {
      CallNeedsOpening(Body(h), call, MessagesOf(added));
    }
  }

  lemma WedgedIsMisplaced(h: seq<Msg>, i: nat)
    requires 0 < i < |h| && IsTool(h[i]) && IsUser(h[i - 1])
    ensures !WellPlaced(h, i)
  {
  }

  lemma CallPlacedIff(full: seq<Msg>, i: nat, added: seq<Msg>)
    requires 0 < i < |full| && IsCall(full[i]) && (IsUser(full[i - 1]) || IsTool(full[i - 1]))
    requires full[i + 1..] == added
    requires ResultIdsOf(added) == IdsFrom(full[i].calls, 0)
    requires forall k | 0 <= k < |added| - 1 :: IsTool(added[k]) || !IsTool(added[k + 1])
    ensures WellPlaced(full, i) <==> Answerable(full[i].calls)
  {
    hide Answers, Answerable;
    var calls := full[i].calls;
    RunOfAdded(added);
    IdsFromAt(calls, 0);
    forall k | 0 <= k < |calls|
      ensures Messages.Run(added)[k].toolCallId == calls[k].id
    {
      assert ResultIdsOf(added)[k] == calls[0 + k].id;
    }
    AnswersIff(calls, Messages.Run(added));
  }

  lemma AddedIsPlaced(full: seq<Msg>, j: nat, added: seq<Msg>, i: nat)
    requires j < i < |full| && IsCall(full[j]) && full[j + 1..] == added
    requires forall k | 0 <= k < |added| :: IsTool(added[k]) || IsUser(added[k])
    requires forall k | 0 <= k < |added| - 1 :: IsTool(added[k]) || !IsTool(added[k + 1])
    ensures WellPlaced(full, i)
  {
    var k := i - j - 1;
    assert full[i] == added[k];
    if k > 0 {
      assert full[i - 1] == added[k - 1];
      assert IsTool(added[k - 1]) || !IsTool(added[k - 1 + 1]);
    }
  }

  // ----- the whole phase, with what happens after the loop

  datatype ToolControl = Continue | Break

  function SummaryMsg(content: string): Msg {
    Msg(Assistant, content, [], "", [], "")
  }

  // A message of the turn that the model does not get to see.
  function Store(st: Exec, m: Msg): Exec {
    if st.kind.noHistory then st else st.(session := st.session + [m], persisted := st.persisted + [m])
  }

  // `late` is the steering found after the loop; `summary` the fixed text for a turn its tools answered.
  function AfterLoop(st: Exec, late: seq<Msg>, summary: string): (Exec, ToolControl) {
    if st.pending != [] then (st.(allHandled := false), Continue)
    else if late != [] then (st.(pending := late, allHandled := false), Continue)
    else if st.allHandled then (Store(st, SummaryMsg(summary)), Break)
    else (st, Continue)
  }

  // An abort leaves the messages for the model as they were, and the session with what the loop wrote; whether the
  // turn then restores the session depends on who aborted it.
  function Executed(env: Env, calls: seq<ToolCall>, late: seq<Msg>, summary: string, suspended: bool, st: Exec)
    : (Exec, Exit, ToolControl)
  {
    if suspended then (SkipFrom(st, calls, 0, env.text(Suspended)).(allHandled := false), Finished, Continue)
    else
      var (st1, exit) := Loop(env, calls, 0, st);
      match exit
      case Finished =>
        var (st2, control) := AfterLoop(st1, late, summary);
        (st2, Finished, control)
      case Tripped => (st1, Tripped, Break)
      case _ => (st1.(messages := st.messages), exit, Break)
  }

  lemma AllRecordedNotEarly(added: seq<Stored>)
    requires forall k | 0 <= k < |added| :: added[k].recorded
    ensures !Early(added)
  {
  }

  // A turn that is not aborted answers every call of the model exactly once, in the order of the calls, and leaves
  // a legal prompt if and only if it was one, the calls stand behind a user message or a tool result, their ids can
  // be told apart, and no poll between two calls yields a sub-turn result.
  lemma EveryCallAnswered(env: Env, calls: seq<ToolCall>, late: seq<Msg>, summary: string, suspended: bool,
                          st: Exec, h: seq<Msg>, call: Msg)
    returns (added: seq<Stored>)
    requires st.messages == h + [call] && IsCall(call) && calls == call.calls
    ensures var (st', exit, _) := Executed(env, calls, late, summary, suspended, st);
            var early := !suspended && PollsEarly(env, st.kind, calls, 0, st.guard, st.pending != []);
            exit.Finished? || exit.Tripped? ==>
              && st'.messages == st.messages + MessagesOf(added)
              && ResultIdsOf(MessagesOf(added)) == IdsFrom(calls, 0)
              && RepliesOf(MessagesOf(added)) ==
                   (if suspended then Skips(|calls|, env.text(Suspended))
                    else Replies(env, calls, 0, st.guard, st.pending != []))
              && OpensExchange(st'.messages)
              && (LegalPrompt(st'.messages) <==> LegalPrompt(h) && OpensExchange(h) && Answerable(calls) && !early)
  {
    hide Loop, SkipFrom, PollsEarly, LegalPrompt, Early, Added, MessagesOf, ResultIdsOf, OpensExchange, Answerable;
    hide RepliesOf, Replies, Skips;
    var st1: Exec;
    if suspended {
      st1 := SkipFrom(st, calls, 0, env.text(Suspended));
      added := SkipAdds(st, calls, 0, env.text(Suspended));
      AllRecordedNotEarly(added);
    } else {
      st1 := Loop(env, calls, 0, st).0;
      added := LoopAdds(env, calls, 0, st);
    }
    AddedToMessages(st, st1, added);
    if suspended || Loop(env, calls, 0, st).1.Finished? || Loop(env, calls, 0, st).1.Tripped? {
      ResultsKeepContractIff(h, call, added);
      ResultsOpen(h, call, added);
      EveryReplyIsRight(env, calls, late, summary, suspended, st);
      RepliesAppend(st.messages, MessagesOf(added));
      Cancel(RepliesOf(st.messages), RepliesOf(MessagesOf(added)),
             if suspended then Skips(|calls|, env.text(Suspended))
             else Replies(env, calls, 0, st.guard, st.pending != []));
    }
  }

  lemma AddedToMessages(st: Exec, st': Exec, added: seq<Stored>)
    requires Added(st, st', added)
    ensures st'.messages == st.messages + MessagesOf(added)
    ensures forall k | 0 <= k < |added| :: if added[k].recorded then IsTool(added[k].m) else IsUser(added[k].m)
  {
  }

  // The next call can stand behind the results of this one.
  lemma ResultsOpen(h: seq<Msg>, call: Msg, added: seq<Stored>)
    requires IsCall(call) && ResultIdsOf(MessagesOf(added)) == IdsFrom(call.calls, 0)
    requires forall k | 0 <= k < |added| :: if added[k].recorded then IsTool(added[k].m) else IsUser(added[k].m)
    ensures OpensExchange(h + [call] + MessagesOf(added))
  {
    assert IdsFrom(call.calls, 0) != [] && ResultIdsOf([]) == [];
    assert MessagesOf(added) != [];
    assert MessagesOf(added)[|added| - 1] == added[|added| - 1].m;
  }

  // Without a sub-turn result before the last call nothing is wedged in, and so never in a turn without a channel.
  lemma {:induction false} QuietPolls(env: Env, kind: TurnKind, calls: seq<ToolCall>, i: nat, g: Guard, waiting: bool)
    requires i <= |calls|
    requires forall j | i <= j < |calls| - 1 :: Quiet(kind, env.script(j))
    ensures !PollsEarly(env, kind, calls, i, g, waiting)
    decreases |calls| - i
  {
    if i < |calls| - 1 {
      QuietPolls(env, kind, calls, i + 1, GuardAfter(env, calls[i], env.script(i), g), waiting);
    }
  }

  // In a turn with a channel, which keeps no history: a first call that runs undisturbed, with a sub-turn result
  // polled behind it and another call to come, breaks the contract of the messages, whatever becomes of the other
  // calls. The session is not touched.
  lemma SubTurnResultIsWedgedIn(env: Env, late: seq<Msg>, summary: string, st: Exec, h: seq<Msg>, call: Msg)
    requires Occurs(st.kind) && st.messages == h + [call] && IsCall(call) && |call.calls| >= 2
    requires FateOf(env, call.calls[0], env.script(0), st.guard).Performed?
    requires Undisturbed(env.script(0), st.pending != []) && !Quiet(st.kind, env.script(0))
    ensures var (st', exit, _) := Executed(env, call.calls, late, summary, false, st);
            && (exit.Finished? || exit.Tripped? ==> !LegalPrompt(st'.messages))
            && st'.session == st.session && st'.persisted == st.persisted
  {
    hide Executed, LegalPrompt, FateOf;
    var added := EveryCallAnswered(env, call.calls, late, summary, false, st, h, call);
    var stored := PhasePersists(env, call.calls, late, summary, false, st);
  }

  function PlainScript(name: string, subTurn: Option<string>): Script {
    Script(false, None, ContinueWith(name), None, false, Keep, ToolResult("done", [], false, "h"), [], false, subTurn)
  }

  // It does happen in a sub-turn, with any limit of the repeat guard: two calls at its start that simply run.
  lemma SubTurnResultCanBeWedgedIn(env: Env, a: ToolCall, b: ToolCall, st: Exec)
    requires st.kind == SUBTURN && st.pending == [] && st.guard == FRESH
    requires env.allowed(a.name) && env.allowed(b.name)
    requires env.signature(a) != "" && env.signature(b) != ""
    requires env.script(0) == PlainScript(a.name, Some("report")) && env.script(1) == PlainScript(b.name, None)
    ensures FateOf(env, a, env.script(0), st.guard).Performed? && Undisturbed(env.script(0), false)
    ensures !Quiet(st.kind, env.script(0)) && Loop(env, [a, b], 0, st).1.Finished?
  {
    hide OneCall;
    OneCallFate(env, a, env.script(0), st);
    var (st1, next) := OneCall(env, a, env.script(0), st);
    assert next.GoOn?;
    OneCallFate(env, b, env.script(1), st1);
    assert !Decide(st1.guard, env.signature(b), env.limit).Stop?;
    var (st2, next2) := OneCall(env, b, env.script(1), st1);
    assert Answered(next2) && Loop(env, [a, b], 2, st2).1.Finished?;
    assert Loop(env, [a, b], 0, st) == Loop(env, [a, b], 1, st1);
  }

  // ----- what the phase stores

  // In every kind of turn there is, whatever the phase stores it records, on every exit; and a turn that keeps no
  // history stores nothing.
  lemma PhasePersists(env: Env, calls: seq<ToolCall>, late: seq<Msg>, summary: string, suspended: bool, st: Exec)
    returns (stored: seq<Msg>)
    requires Occurs(st.kind)
    ensures var st' := Executed(env, calls, late, summary, suspended, st).0;
            && st'.kind == st.kind
            && st'.session == st.session + stored && st'.persisted == st.persisted + stored
            && (st.kind.noHistory ==> stored == [])
  {
    hide Loop, SkipFrom;
    var st' := Executed(env, calls, late, summary, suspended, st).0;
    var added: seq<Stored>;
    var st1: Exec;
    if suspended {
      st1 := SkipFrom(st, calls, 0, env.text(Suspended));
      added := SkipAdds(st, calls, 0, env.text(Suspended));
    } else {
      st1 := Loop(env, calls, 0, st).0;
      added := LoopAdds(env, calls, 0, st);
    }
    stored := [];
    if !st.kind.noHistory {
      AllRecorded(st, st1, added);
      stored := MessagesOf(added);
      if st'.session != st1.session {
        Assoc(st.session, stored, [SummaryMsg(summary)]);
        Assoc(st.persisted, stored, [SummaryMsg(summary)]);
        stored := stored + [SummaryMsg(summary)];
      }
    }
  }

  lemma AllRecorded(st: Exec, st': Exec, added: seq<Stored>)
    requires Added(st, st', added) && !st.kind.hasChannel
    ensures RecordedOf(added) == MessagesOf(added)
  {
    RecordedLength(added);
  }

  // So a compaction behind the phase finds the place where the turn began.
  lemma RefreshStaysExact(env: Env, calls: seq<ToolCall>, late: seq<Msg>, summary: string, suspended: bool, st: Exec,
                          restore: seq<Msg>, k: nat)
    requires Occurs(st.kind) && SplitAt(Memory(st.session, restore, st.persisted), k)
    ensures var st' := Executed(env, calls, late, summary, suspended, st).0;
            && SplitAt(Memory(st'.session, restore, st'.persisted), k)
            && RestoreFrom(st'.session, st'.persisted) == restore
  {
    hide Executed;
    var stored := PhasePersists(env, calls, late, summary, suspended, st);
    PersistsKeepSplit(Memory(st.session, restore, st.persisted), stored, k);
  }

  // ----- what the model gets to read

  datatype Reply = Reply(content: string, media: seq<string>)

  // What the tool results among the messages say, in order.
  function RepliesOf(h: seq<Msg>): seq<Reply> {
    if h == [] then []
    else if IsTool(h[0]) then [Reply(h[0].content, h[0].media)] + RepliesOf(h[1..])
    else RepliesOf(h[1..])
  }

  // The wording for a call that is answered without a result: the refusal that comes first.
  function WordingOf(env: Env, call: ToolCall, s: Script, g: Guard): string {
    if s.unknownHint.Some? then s.unknownHint.value
    else if !env.allowed(call.name) then env.text(NotAllowed)
    else if Decide(g, env.signature(call), env.limit).Warn? then env.text(Repeated)
    else if s.before.DenyTool? then env.text(Denied(s.before.reason))
    else if s.approval.Some? then env.text(Denied(s.approval.value))
    else env.text(NotAllowed)
  }

  // The result of a call that is performed: that of the hook which answers for the tool, or that of the tool.
  function ResultOf(s: Script): ToolResult {
    if s.before.Respond? then s.before.result else s.result
  }

  function Skips(n: nat, content: string): seq<Reply> {
    if n == 0 then [] else [Reply(content, [])] + Skips(n - 1, content)
  }

  // The replies to the calls from i on, in their order, read off the script and the guard.
  function Replies(env: Env, calls: seq<ToolCall>, i: nat, g: Guard, waiting: bool): seq<Reply>
    requires i <= |calls|
    decreases |calls| - i
  {
    if i == |calls| then []
    else
      var s, left := env.script(i), |calls| - i - 1;
      var next := GuardAfter(env, calls[i], s, g);
      match FateOf(env, calls[i], s, g)
      case Noticed =>
        [Reply(WordingOf(env, calls[i], s, g), [])] + Replies(env, calls, i + 1, next, waiting)
      case Performed(_) =>
        [Reply(ResultOf(s).content, ResultOf(s).media)] +
        (if waiting || s.steering != [] then Skips(left, env.text(SteeringSkip))
         else if s.graceful then Skips(left, env.text(InterruptSkip))
         else Replies(env, calls, i + 1, next, false))
      case Ending =>
        if ReachesGuard(env, calls[i], s) && Decide(g, env.signature(calls[i]), env.limit).Stop?
        then Skips(left + 1, env.text(RepeatedSkip))
        else []
  }

  lemma {:induction false} RepliesAppend(a: seq<Msg>, b: seq<Msg>)
    ensures RepliesOf(a + b) == RepliesOf(a) + RepliesOf(b)
  {
    if a == [] {
      assert a + b == b;
    } else {
      assert (a + b)[1..] == a[1..] + b;
      RepliesAppend(a[1..], b);
    }
  }

  // The messages say more by these replies; so does the session if the turn keeps a history.
  ghost predicate Says(st: Exec, st': Exec, replies: seq<Reply>) {
    && st'.kind == st.kind
    && RepliesOf(st'.messages) == RepliesOf(st.messages) + replies
    && RepliesOf(st'.session) == RepliesOf(st.session) + (if st.kind.noHistory then [] else replies)
  }

  lemma SaysNothing(st: Exec, st': Exec)
    requires st'.kind == st.kind && st'.messages == st.messages && st'.session == st.session
    ensures Says(st, st', [])
  {
  }

  lemma SaysTransitive(a: Exec, b: Exec, c: Exec, x: seq<Reply>, y: seq<Reply>)
    requires Says(a, b, x) && Says(b, c, y)
    ensures Says(a, c, x + y)
  {
  }

  lemma SaysOne(st: Exec, m: Msg, recorded: bool)
    ensures Says(st, AddMsg(st, m, recorded), if IsTool(m) then [Reply(m.content, m.media)] else [])
  {
    RepliesAppend(st.messages, [m]);
    RepliesAppend(st.session, [m]);
    assert [m][1..] == [];
  }

  lemma {:induction false} SkipSays(st: Exec, calls: seq<ToolCall>, i: nat, content: string)
    requires i <= |calls|
    ensures Says(st, SkipFrom(st, calls, i, content), Skips(|calls| - i, content))
    decreases |calls| - i
  {
    hide Says, AddMsg;
    if i == |calls| {
      SaysNothing(st, st);
    } else {
      var m := ToolMsg(calls[i].id, content, []);
      var st1 := AddMsg(st, m, true);
      SaysOne(st, m, true);
      SkipSays(st1, calls, i + 1, content);
      SaysTransitive(st, st1, SkipFrom(st1, calls, i + 1, content), [Reply(content, [])],
                     Skips(|calls| - i - 1, content));
    }
  }

  lemma NoticeSays(st: Exec, id: string, content: string)
    ensures Says(st, AddNotice(st, id, content), [Reply(content, [])])
  {
    SaysOne(st, ToolMsg(id, content, []), true);
  }

  lemma CompleteSays(env: Env, id: string, st: Exec, s: Script, r: ToolResult)
    ensures var (st', next) := Complete(env, id, st, s, r);
            && Says(st, st', [Reply(r.content, r.media)])
            && (next.SkipRest? ==>
                  next.notice == if st.pending != [] || s.steering != [] then SteeringSkip else InterruptSkip)
  {
    hide RepliesOf;
    var m := ToolMsg(id, r.content, r.media);
    var st1 := AddMsg(st, m, true).(allHandled := st.allHandled && r.handled, pending := st.pending + s.steering);
    SaysOne(st, m, true);
    if st1.pending == [] && !s.graceful && !Quiet(st.kind, s) {
      SaysOne(st1, SubTurnMsg(s.subTurn.value), false);
    }
  }

  // What one call says, by its fate.
  function ReplyOf(env: Env, call: ToolCall, s: Script, g: Guard): seq<Reply> {
    match FateOf(env, call, s, g)
    case Noticed => [Reply(WordingOf(env, call, s, g), [])]
    case Performed(_) => [Reply(ResultOf(s).content, ResultOf(s).media)]
    case Ending => []
  }

  lemma RunAllowedSays(env: Env, call: ToolCall, name: string, sig: string, st: Exec, s: Script)
    ensures var (st', next) := RunAllowed(env, call, name, sig, st, s);
            && Says(st, st', if s.approval.Some? then [Reply(env.text(Denied(s.approval.value)), [])]
                             else if !env.allowed(name) then [Reply(env.text(NotAllowed), [])]
                             else if s.abortDuring || !s.after.Keep? then []
                             else [Reply(s.result.content, s.result.media)])
            && (next.SkipRest? ==>
                  next.notice == if st.pending != [] || s.steering != [] then SteeringSkip else InterruptSkip)
  {
    hide Says, Complete, AddNotice, Recorded;
    SaysNothing(st, st);
    if s.approval.Some? {
      NoticeSays(st, call.id, env.text(Denied(s.approval.value)));
    } else if !env.allowed(name) {
      NoticeSays(st, call.id, env.text(NotAllowed));
    } else {
      CompleteSays(env, call.id, st.(guard := Recorded(st.guard, sig, s.result.hash)), s, s.result);
      SaysBesideGuard(st, Recorded(st.guard, sig, s.result.hash), RunAllowed(env, call, name, sig, st, s).0);
    }
  }

  lemma SaysBesideGuard(st: Exec, g: Guard, st': Exec)
    ensures forall replies :: Says(st.(guard := g), st', replies) <==> Says(st, st', replies)
  {
  }

  lemma OneCallSays(env: Env, call: ToolCall, s: Script, st: Exec)
    ensures var (st', next) := OneCall(env, call, s, st);
            && Says(st, st', ReplyOf(env, call, s, st.guard))
            && (next.SkipRest? ==>
                  next.notice == if st.pending != [] || s.steering != [] then SteeringSkip else InterruptSkip)
  {
    hide Says, Complete, AddNotice, RunAllowed, Recorded, Checked, Decide;
    SaysNothing(st, st);
    var sig := env.signature(call);
    var st1 := st.(guard := Checked(st.guard, sig, env.limit));
    var st' := OneCall(env, call, s, st).0;
    SaysBesideGuard(st, st1.guard, st');
    if s.abortRequested {
    } else if s.unknownHint.Some? {
      NoticeSays(st, call.id, s.unknownHint.value);
    } else if !env.allowed(call.name) {
      NoticeSays(st, call.id, env.text(NotAllowed));
    } else if Decide(st.guard, sig, env.limit).Warn? {
      NoticeSays(st1, call.id, env.text(Repeated));
    } else if Decide(st.guard, sig, env.limit).Allow? {
      match s.before {
        case Respond(r) =>
          CompleteSays(env, call.id, st1.(guard := Recorded(st1.guard, sig, r.hash)), s, r);
          SaysBesideGuard(st1, Recorded(st1.guard, sig, r.hash), st');
        case DenyTool(reason) => NoticeSays(st1, call.id, env.text(Denied(reason)));
        case AbortBefore => SaysNothing(st, st');
        case HardAbortBefore => SaysNothing(st, st');
        case ContinueWith(name) => RunAllowedSays(env, call, name, sig, st1, s);
        case RespondNothing => RunAllowedSays(env, call, call.name, sig, st1, s);
      }
    } else {
      SaysNothing(st, st');
    }
  }

  // Over the loop every call is answered by its own words: the result of what ran, or the refusal that applies.
  lemma {:induction false} LoopSays(env: Env, calls: seq<ToolCall>, i: nat, st: Exec)
    requires i <= |calls|
    ensures Says(st, Loop(env, calls, i, st).0, Replies(env, calls, i, st.guard, st.pending != []))
    decreases |calls| - i
  {
    hide OneCall, Says, SkipFrom, WordingOf, GuardAfter, FateOf;
    if i == |calls| {
      SaysNothing(st, st);
    } else {
      var s := env.script(i);
      var (st1, next) := OneCall(env, calls[i], s, st);
      var one := ReplyOf(env, calls[i], s, st.guard);
      OneCallFate(env, calls[i], s, st);
      OneCallSays(env, calls[i], s, st);
      match next {
        case GoOn =>
          LoopSays(env, calls, i + 1, st1);
          SaysTransitive(st, st1, Loop(env, calls, i + 1, st1).0, one,
                         Replies(env, calls, i + 1, st1.guard, st1.pending != []));
        case SkipRest(notice) =>
          SkipSays(st1, calls, i + 1, env.text(notice));
          SaysTransitive(st, st1, Loop(env, calls, i, st).0, one, Skips(|calls| - i - 1, env.text(notice)));
        case Trip =>
          SkipSays(st1, calls, i, env.text(RepeatedSkip));
          SaysTransitive(st, st1, Loop(env, calls, i, st).0, one, Skips(|calls| - i, env.text(RepeatedSkip)));
          var skips := Skips(|calls| - i, env.text(RepeatedSkip));
          assert one == [] && one + skips == skips;
        case _ =>
          assert one == [];
      }
    }
  }

  // The whole phase: unless it is aborted, the messages say exactly these replies behind what they said before, and so
  // does the session of a turn that keeps a history, aborted or not.
  lemma EveryReplyIsRight(env: Env, calls: seq<ToolCall>, late: seq<Msg>, summary: string, suspended: bool, st: Exec)
    ensures var (st', exit, _) := Executed(env, calls, late, summary, suspended, st);
            var replies := if suspended then Skips(|calls|, env.text(Suspended))
                           else Replies(env, calls, 0, st.guard, st.pending != []);
            && (exit.Finished? || exit.Tripped? ==> RepliesOf(st'.messages) == RepliesOf(st.messages) + replies)
            && RepliesOf(st'.session) == RepliesOf(st.session) + (if st.kind.noHistory then [] else replies)
  {
    hide Loop, SkipFrom, Replies, Skips;
    if suspended {
      SkipSays(st, calls, 0, env.text(Suspended));
    } else {
      LoopSays(env, calls, 0, st);
      var st1 := Loop(env, calls, 0, st).0;
      RepliesAppend(st1.session, [SummaryMsg(summary)]);
      assert RepliesOf([SummaryMsg(summary)]) == [];
    }
  }

  // ----- which calls run, and which end the turn

  // The call gets past the repeat guard.
  predicate PassesGuard(env: Env, call: ToolCall, s: Script, g: Guard) {
    && !s.abortRequested && s.unknownHint.None? && env.allowed(call.name)
    && Decide(g, env.signature(call), env.limit).Allow?
  }

  // The tool is run: by name it is allowed, before and after the hook rewrote the call, and nobody objects.
  predicate ToolRuns(env: Env, call: ToolCall, s: Script, g: Guard) {
    && PassesGuard(env, call, s, g)
    && (s.before.RespondNothing? || (s.before.ContinueWith? && env.allowed(s.before.name)))
    && s.approval.None?
  }

  // A call is answered by a result exactly when a hook answers for the tool, or the tool runs and neither an abort nor
  // the hook behind it takes the result away; and every abort has one of these reasons.
  lemma WhatBecomesOfACall(env: Env, call: ToolCall, s: Script, st: Exec)
    ensures var g, sig, (st', next) := st.guard, env.signature(call), OneCall(env, call, s, st);
            && st'.guard == (if s.abortRequested || s.unknownHint.Some? || !env.allowed(call.name) then g
                             else if FateOf(env, call, s, g).Performed?
                             then Recorded(Checked(g, sig, env.limit), sig, ResultOf(s).hash)
                             else Checked(g, sig, env.limit))
            && (FateOf(env, call, s, g).Performed? <==>
                  || (PassesGuard(env, call, s, g) && s.before.Respond?)
                  || (ToolRuns(env, call, s, g) && !s.abortDuring && s.after.Keep?))
            && (next.HardAbort? <==>
                  || s.abortRequested
                  || (PassesGuard(env, call, s, g) && s.before.HardAbortBefore?)
                  || (ToolRuns(env, call, s, g) && (s.abortDuring || s.after.HardAbortAfter?)))
            && (next.HookAbort? <==>
                  || (PassesGuard(env, call, s, g) && s.before.AbortBefore?)
                  || (ToolRuns(env, call, s, g) && !s.abortDuring && s.after.AbortAfter?))
  {
    hide Checked, Recorded, Decide;
  }

  lemma CompletePolled(env: Env, id: string, st: Exec, s: Script, r: ToolResult)
    requires Complete(env, id, st, s, r).1.GoOn?
    requires st.kind.hasChannel && s.subTurn.Some? && s.subTurn.value != ""
    ensures var h := Complete(env, id, st, s, r).0.messages;
            && |h| == |st.messages| + 2
            && IsUser(h[|h| - 1]) && h[|h| - 1].content == "[SubTurn Result] " + s.subTurn.value
  {
  }

  // A sub-turn result that was polled stands last, word for word, as a message of the user.
  lemma PolledResultIsShown(env: Env, call: ToolCall, s: Script, st: Exec)
    requires FateOf(env, call, s, st.guard).Performed? && OneCall(env, call, s, st).1.GoOn?
    requires st.kind.hasChannel && s.subTurn.Some? && s.subTurn.value != ""
    ensures var h := OneCall(env, call, s, st).0.messages;
            && |h| == |st.messages| + 2
            && IsUser(h[|h| - 1]) && h[|h| - 1].content == "[SubTurn Result] " + s.subTurn.value
  {
    hide Checked, Recorded, Decide, Complete;
    var sig := env.signature(call);
    var checked := Checked(st.guard, sig, env.limit);
    var r := ResultOf(s);
    var st1 := st.(guard := checked).(guard := Recorded(checked, sig, r.hash));
    assert OneCall(env, call, s, st) == Complete(env, call.id, st1, s, r);
    CompletePolled(env, call.id, st1, s, r);
  }

  // Whether the tools have answered the user: every call that got its turn was performed, and its result handled.
  predicate AllHandledFrom(env: Env, calls: seq<ToolCall>, i: nat, g: Guard, waiting: bool)
    requires i <= |calls|
    decreases |calls| - i
  {
    i == |calls| ||
    var s := env.script(i);
    && FateOf(env, calls[i], s, g).Performed?
    && ResultOf(s).handled
    && (Undisturbed(s, waiting) ==>
          AllHandledFrom(env, calls, i + 1, GuardAfter(env, calls[i], s, g), waiting))
  }

  lemma OneCallHandled(env: Env, call: ToolCall, s: Script, st: Exec)
    ensures var (st', next) := OneCall(env, call, s, st);
            Answered(next) ==>
              (st'.allHandled <==>
                 st.allHandled && FateOf(env, call, s, st.guard).Performed? && ResultOf(s).handled)
  {
    hide Checked, Recorded, Decide;
  }

  lemma {:induction false} SkipKeepsHandled(st: Exec, calls: seq<ToolCall>, i: nat, content: string)
    requires i <= |calls|
    ensures SkipFrom(st, calls, i, content).allHandled == st.allHandled
    decreases |calls| - i
  {
    if i < |calls| {
      SkipKeepsHandled(AddMsg(st, ToolMsg(calls[i].id, content, []), true), calls, i + 1, content);
    }
  }

  lemma {:induction false} LoopHandledIff(env: Env, calls: seq<ToolCall>, i: nat, st: Exec)
    requires i <= |calls|
    ensures var (st', exit) := Loop(env, calls, i, st);
            exit.Finished? ==>
              (st'.allHandled <==>
                 st.allHandled && AllHandledFrom(env, calls, i, st.guard, st.pending != []))
    decreases |calls| - i
  {
    hide OneCall, SkipFrom, GuardAfter, FateOf;
    if i < |calls| {
      var s := env.script(i);
      var (st1, next) := OneCall(env, calls[i], s, st);
      OneCallFate(env, calls[i], s, st);
      OneCallHandled(env, calls[i], s, st);
      match next {
        case GoOn => LoopHandledIff(env, calls, i + 1, st1);
        case SkipRest(notice) => SkipKeepsHandled(st1, calls, i + 1, env.text(notice));
        case _ =>
      }
    }
  }

  // The phase ends the turn with its own summary exactly when the tools answered the user and no steering came.
  lemma AnsweredByToolsIff(env: Env, calls: seq<ToolCall>, late: seq<Msg>, summary: string, suspended: bool, st: Exec)
    requires st.allHandled
    ensures var (st', exit, control) := Executed(env, calls, late, summary, suspended, st);
            exit.Finished? ==>
              (control.Break? <==>
                 && !suspended
                 && AllHandledFrom(env, calls, 0, st.guard, st.pending != [])
                 && Loop(env, calls, 0, st).0.pending == [] && late == [])
  {
    hide Loop, SkipFrom, AllHandledFrom;
    if !suspended {
      LoopHandledIff(env, calls, 0, st);
    }
  }

  // ----- steering

  lemma OneCallKeepsPending(env: Env, call: ToolCall, s: Script, st: Exec)
    requires st.pending == []
    ensures var (st', next) := OneCall(env, call, s, st);
            && (!next.SkipRest? ==> st'.pending == [])
            && (next.SkipRest? ==> st'.pending == s.steering)
  {
    hide OneCall, FateOf, GuardAfter;
    OneCallFate(env, call, s, st);
    assert [] + s.steering == s.steering;
  }

  lemma {:induction false} SkipKeepsPending(st: Exec, calls: seq<ToolCall>, i: nat, content: string)
    requires i <= |calls|
    ensures SkipFrom(st, calls, i, content).pending == st.pending
    decreases |calls| - i
  {
    if i < |calls| {
      SkipKeepsPending(AddMsg(st, ToolMsg(calls[i].id, content, []), true), calls, i + 1, content);
    }
  }

  lemma {:induction false} LoopKeepsPending(env: Env, calls: seq<ToolCall>, i: nat, st: Exec)
    requires i <= |calls| && st.pending == []
    ensures var (st', exit) := Loop(env, calls, i, st);
            && (!exit.Finished? ==> st'.pending == [])
            && (st'.pending == [] || exists j :: i <= j < |calls| && st'.pending == env.script(j).steering)
    decreases |calls| - i
  {
    hide OneCall, SkipFrom;
    if i < |calls| {
      var (st1, next) := OneCall(env, calls[i], env.script(i), st);
      OneCallKeepsPending(env, calls[i], env.script(i), st);
      match next {
        case GoOn => LoopKeepsPending(env, calls, i + 1, st1);
        case SkipRest(notice) => SkipKeepsPending(st1, calls, i + 1, env.text(notice));
        case Trip => SkipKeepsPending(st1, calls, i, env.text(RepeatedSkip));
        case _ =>
      }
    }
  }

  // Entered with no steering waiting, the phase leaves exactly one batch it dequeued, or none; and it ends the
  // turn only when none is waiting.
  lemma NoSteeringIsDropped(env: Env, calls: seq<ToolCall>, late: seq<Msg>, summary: string, suspended: bool, st: Exec)
    requires st.pending == []
    ensures var (st', exit, control) := Executed(env, calls, late, summary, suspended, st);
            && (control.Break? ==> st'.pending == [])
            && (st'.pending in {[], late}
                || exists j :: 0 <= j < |calls| && st'.pending == env.script(j).steering)
            && (exit.Finished? && !suspended && late != [] ==> st'.pending != [])
  {
    hide Loop, SkipFrom;
    SkipKeepsPending(st, calls, 0, env.text(Suspended));
    LoopKeepsPending(env, calls, 0, st);
  }

  // ----- the repeat guard over the loop

  // What one call does to the guard is one step of its run, or none.
  lemma OneCallFollowsGuard(env: Env, call: ToolCall, s: Script, st: Exec, log: seq<Entry>)
    returns (attempts: seq<Attempt>)
    requires env.signature(call) != ""
    ensures var (st', next) := OneCall(env, call, s, st);
            && RepeatGuard.Steps(RepeatGuard.Run(st.guard, log), attempts, env.limit).guard == st'.guard
            && (next.Trip? ==> attempts == [] && Decide(st'.guard, env.signature(call), env.limit).Stop?)
    ensures forall a | a in attempts :: a.sig != ""
  {
    hide OneCall, OutcomeOf, Refused, Checked, Recorded, Decide;
    var sig := env.signature(call);
    var r := RepeatGuard.Run(st.guard, log);
    OneCallFate(env, call, s, st);
    attempts := [];
    if ReachesGuard(env, call, s) {
      CheckedIsIdle(st.guard, sig, env.limit);
      if !Decide(st.guard, sig, env.limit).Stop? {
        var attempt := Attempt(sig, OutcomeOf(env, call, s));
        attempts := [attempt];
        assert [attempt][1..] == [];
        assert RepeatGuard.Steps(r, [attempt], env.limit) == RepeatGuard.Step(r, attempt, env.limit);
      }
    }
  }

  lemma CheckedIsIdle(g: Guard, sig: string, limit: int)
    ensures Decide(g, sig, limit).Allow? || Decide(g, sig, limit).Stop? ==> Checked(g, sig, limit) == g
  {
  }

  lemma {:induction false} LoopFollowsGuard(env: Env, calls: seq<ToolCall>, i: nat, st: Exec, log: seq<Entry>)
    returns (attempts: seq<Attempt>, last: string)
    requires i <= |calls| && forall j | i <= j < |calls| :: env.signature(calls[j]) != ""
    ensures var (st', exit) := Loop(env, calls, i, st);
            && RepeatGuard.Steps(RepeatGuard.Run(st.guard, log), attempts, env.limit).guard == st'.guard
            && (exit.Tripped? ==> last != "" && Decide(st'.guard, last, env.limit).Stop?)
    ensures forall a | a in attempts :: a.sig != ""
    decreases |calls| - i
  {
    hide OneCall, RepeatGuard.Step, SkipFrom, Decide;
    attempts, last := [], "";
    if i < |calls| {
      var (st1, next) := OneCall(env, calls[i], env.script(i), st);
      attempts := OneCallFollowsGuard(env, calls[i], env.script(i), st, log);
      match next {
        case GoOn =>
          var r := RepeatGuard.Steps(RepeatGuard.Run(st.guard, log), attempts, env.limit);
          var rest, sig := LoopFollowsGuard(env, calls, i + 1, st1, r.log);
          StepsAppend(RepeatGuard.Run(st.guard, log), attempts, rest, env.limit);
          attempts, last := attempts + rest, sig;
        case SkipRest(notice) => SkipKeepsGuard(st1, calls, i + 1, env.text(notice));
        case Trip =>
          last := env.signature(calls[i]);
          SkipKeepsGuard(st1, calls, i, env.text(RepeatedSkip));
        case _ =>
      }
    }
  }

  lemma {:induction false} SkipKeepsGuard(st: Exec, calls: seq<ToolCall>, i: nat, content: string)
    requires i <= |calls|
    ensures SkipFrom(st, calls, i, content).guard == st.guard
    decreases |calls| - i
  {
    if i < |calls| {
      SkipKeepsGuard(AddMsg(st, ToolMsg(calls[i].id, content, []), true), calls, i + 1, content);
    }
  }

  // The guard ends the turn only behind max(1, limit - 1) identical executions of the call, in this loop or before
  // it, and a warning in that row; and it goes on remembering what ran.
  lemma TripIsEarned(env: Env, calls: seq<ToolCall>, st: Exec, log: seq<Entry>) returns (log': seq<Entry>, sig: string)
    requires Remembers(RepeatGuard.Run(st.guard, log), env.limit)
    requires forall j | 0 <= j < |calls| :: env.signature(calls[j]) != ""
    ensures var (st', exit) := Loop(env, calls, 0, st);
            && Remembers(RepeatGuard.Run(st'.guard, log'), env.limit)
            && (exit.Tripped? ==>
                  && LastRun(log') == Some(Ran(sig, st'.guard.lastHash))
                  && Trailing(log', sig, st'.guard.lastHash) == MaxCount(env.limit)
                  && WarnedSince(log', sig, st'.guard.lastHash))
  {
    hide Loop, RepeatGuard.Steps, Trailing, WarnedSince, LastRun;
    var attempts, last := LoopFollowsGuard(env, calls, 0, st, log);
    RunRemembers(RepeatGuard.Run(st.guard, log), attempts, env.limit);
    log', sig := RepeatGuard.Steps(RepeatGuard.Run(st.guard, log), attempts, env.limit).log, last;
    if Loop(env, calls, 0, st).1.Tripped? {
      HeldBackIff(RepeatGuard.Run(Loop(env, calls, 0, st).0.guard, log'), last, env.limit);
    }
  }

  // ----- the phase as the source runs it

  class TurnExecution {
    const kind: TurnKind
    const turn: Turn
    const guard: GuardFields
    var messages: seq<Msg>
    var pendingMessages: seq<Msg>
    var allResponsesHandled: bool
    var abortedByHardAbort: bool
    var abortedByHook: bool
    var repeatGuardTripped: bool

    constructor (kind: TurnKind, turn: Turn, guard: GuardFields, messages: seq<Msg>)
      ensures this.kind == kind && this.turn == turn && this.guard == guard && this.messages == messages
      ensures pendingMessages == [] && allResponsesHandled
      ensures !abortedByHardAbort && !abortedByHook && !repeatGuardTripped
    {
      this.kind, this.turn, this.guard, this.messages := kind, turn, guard, messages;
      pendingMessages, allResponsesHandled := [], true;
      abortedByHardAbort, abortedByHook, repeatGuardTripped := false, false, false;
    }

    // The loop works on a local list of messages.
    ghost function View(local: seq<Msg>): Exec
      reads this, guard, turn, turn.session
    {
      Exec(kind, local, turn.session.history, turn.persisted, pendingMessages, guard.State(), allResponsesHandled)
    }

    method StoreResult(local: seq<Msg>, m: Msg) returns (out: seq<Msg>)
      modifies turn`persisted, turn.session`history
      ensures View(out) == AddMsg(old(View(local)), m, true)
    {
      out := local + [m];
      if !kind.noHistory {
        turn.StoreMessage(m);
      }
    }

    method AppendSkippedToolResult(local: seq<Msg>, id: string, content: string) returns (out: seq<Msg>)
      modifies turn`persisted, turn.session`history
      ensures View(out) == AddMsg(old(View(local)), ToolMsg(id, content, []), true)
    {
      out := StoreResult(local, ToolMsg(id, content, []));
    }

    method Deny(local: seq<Msg>, id: string, content: string) returns (out: seq<Msg>)
      modifies this`allResponsesHandled, turn`persisted, turn.session`history
      ensures View(out) == AddNotice(old(View(local)), id, content)
    {
      allResponsesHandled := false;
      out := AppendSkippedToolResult(local, id, content);
    }

    method AppendSkippedFrom(local: seq<Msg>, calls: seq<ToolCall>, i: nat, content: string) returns (out: seq<Msg>)
      requires i <= |calls|
      modifies turn`persisted, turn.session`history
      ensures View(out) == SkipFrom(old(View(local)), calls, i, content)
    {
      out := local;
      var j := i;
      while j < |calls|
        invariant i <= j <= |calls|
        invariant SkipFrom(View(out), calls, j, content) == SkipFrom(old(View(local)), calls, i, content)
      {
        out := AppendSkippedToolResult(out, calls[j].id, content);
        j := j + 1;
      }
    }

    // From the tool result on: store it, poll steering, look for an interrupt, poll one sub-turn result.
    method AnswerCall(env: Env, local: seq<Msg>, id: string, s: Script, r: ToolResult)
      returns (out: seq<Msg>, next: Then)
      modifies this`allResponsesHandled, this`pendingMessages, turn`persisted, turn.session`history
      ensures (View(out), next) == Complete(env, id, old(View(local)), s, r)
    {
      if !r.handled {
        allResponsesHandled := false;
      }
      out := StoreResult(local, ToolMsg(id, r.content, r.media));
      if |s.steering| > 0 {
        pendingMessages := pendingMessages + s.steering;
      }
      assert pendingMessages == old(pendingMessages) + s.steering;
      if |pendingMessages| > 0 {
        return out, SkipRest(SteeringSkip);
      } else if s.graceful {
        return out, SkipRest(InterruptSkip);
      }
      next := GoOn;
      if kind.hasChannel && s.subTurn.Some? && s.subTurn.value != "" {
        out := out + [SubTurnMsg(s.subTurn.value)];
        if !kind.noHistory {
          turn.session.AddFullMessage(SubTurnMsg(s.subTurn.value));
        }
      }
    }

    method RunTool(env: Env, local: seq<Msg>, call: ToolCall, name: string, sig: string, s: Script)
      returns (out: seq<Msg>, next: Then)
      modifies this`allResponsesHandled, this`pendingMessages, guard, turn`persisted, turn.session`history
      ensures (View(out), next) == RunAllowed(env, call, name, sig, old(View(local)), s)
    {
      hide Complete, AddNotice;
      out, next := local, GoOn;
      if s.approval.Some? {
        out := Deny(out, call.id, Text(env, Denied(s.approval.value)));
        return;
      }
      if !Allowed(env, name) {
        out := Deny(out, call.id, Text(env, NotAllowed));
        return;
      }
      if s.abortDuring {
        return out, HardAbort;
      }
      match s.after {
        case Keep =>
        case AbortAfter => return out, HookAbort;
        case HardAbortAfter => return out, HardAbort;
      }
      guard.RecordToolResult(sig, s.result.hash);
      out, next := AnswerCall(env, out, call.id, s, s.result);
    }

    method HandleCall(env: Env, local: seq<Msg>, call: ToolCall, s: Script) returns (out: seq<Msg>, next: Then)
      modifies this`allResponsesHandled, this`pendingMessages, guard, turn`persisted, turn.session`history
      ensures (View(out), next) == OneCall(env, call, s, old(View(local)))
    {
      hide Complete, AddNotice, RunAllowed;
      out, next := local, GoOn;
      if s.abortRequested {
        return out, HardAbort;
      }
      if s.unknownHint.Some? {
        out := Deny(out, call.id, s.unknownHint.value);
        return;
      }
      if !Allowed(env, call.name) {
        out := Deny(out, call.id, Text(env, NotAllowed));
        return;
      }
      var sig := Signature(env, call);
      var d := guard.CheckRepeatedToolCall(sig, env.limit);
      match d {
        case Allow =>
        case Warn =>
          out := Deny(out, call.id, Text(env, Repeated));
          return;
        case Stop =>
          allResponsesHandled := false;
          return out, Trip;
      }
      match s.before {
        case ContinueWith(name) => out, next := RunTool(env, out, call, name, sig, s);
        case RespondNothing => out, next := RunTool(env, out, call, call.name, sig, s);
        case Respond(r) =>
          guard.RecordToolResult(sig, r.hash);
          out, next := AnswerCall(env, out, call.id, s, r);
        case DenyTool(reason) => out := Deny(out, call.id, Text(env, Denied(reason)));
        case AbortBefore => next := HookAbort;
        case HardAbortBefore => next := HardAbort;
      }
    }

    method RefuseToolsSuspended(env: Env, calls: seq<ToolCall>) returns (control: ToolControl)
      modifies this`messages, this`allResponsesHandled, turn`persisted, turn.session`history
      ensures View(messages) == SkipFrom(old(View(messages)), calls, 0, env.text(Suspended)).(allHandled := false)
      ensures control == Continue
    {
      var local := AppendSkippedFrom(messages, calls, 0, Text(env, Suspended));
      messages := local;
      allResponsesHandled := false;
      control := Continue;
    }

    method FinishTools(local: seq<Msg>, late: seq<Msg>, summary: string) returns (control: ToolControl)
      modifies this`messages, this`allResponsesHandled, this`pendingMessages, turn`persisted, turn.session`history
      ensures (View(messages), control) == AfterLoop(old(View(local)), late, summary)
    {
      messages := local;
      if |pendingMessages| > 0 {
        allResponsesHandled := false;
        return Continue;
      }
      if |late| > 0 {
        pendingMessages := pendingMessages + late;
        assert pendingMessages == late;
        allResponsesHandled := false;
        return Continue;
      }
      if allResponsesHandled {
        if !kind.noHistory {
          turn.StoreMessage(SummaryMsg(summary));
        }
        return Break;
      }
      control := Continue;
    }

    method ExecuteTools(env: Env, calls: seq<ToolCall>, late: seq<Msg>, summary: string, suspended: bool)
      returns (control: ToolControl)
      modifies this, guard, turn`persisted, turn.session`history
      ensures var (st, exit, c) := Executed(env, calls, late, summary, suspended, old(View(messages)));
              && View(messages) == st
              && control == c
              && abortedByHardAbort == (old(abortedByHardAbort) || exit.AbortedHard?)
              && abortedByHook == (old(abortedByHook) || exit.AbortedByHook?)
              && repeatGuardTripped == (old(repeatGuardTripped) || exit.Tripped?)
    {
      hide OneCall, AfterLoop, SkipFrom;
      if suspended {
        control := RefuseToolsSuspended(env, calls);
        return;
      }
      var local := messages;
      var i := 0;
      while i < |calls|
        invariant 0 <= i <= |calls|
        invariant messages == old(messages)
        invariant abortedByHardAbort == old(abortedByHardAbort) && abortedByHook == old(abortedByHook)
        invariant repeatGuardTripped == old(repeatGuardTripped)
        invariant Loop(env, calls, i, View(local)) == Loop(env, calls, 0, old(View(messages)))
      {
        var next;
        local, next := HandleCall(env, local, calls[i], ScriptAt(env, i));
        match next {
          case GoOn => i := i + 1;
          case SkipRest(notice) =>
            local := AppendSkippedFrom(local, calls, i + 1, Text(env, notice));
            control := FinishTools(local, late, summary);
            return;
          case Trip =>
            repeatGuardTripped := true;
            local := AppendSkippedFrom(local, calls, i, Text(env, RepeatedSkip));
            messages := local;
            return Break;
          case HardAbort =>
            abortedByHardAbort := true;
            return Break;
          case HookAbort =>
            abortedByHook := true;
            return Break;
        }
      }
      control := FinishTools(local, late, summary);
    }
  }

  // The decisions of a run, looked up outside the heap.
  function Text(env: Env, notice: Notice): string { env.text(notice) }

  predicate Allowed(env: Env, name: string) { env.allowed(name) }

  function Signature(env: Env, call: ToolCall): string { env.signature(call) }

  function ScriptAt(env: Env, i: nat): Script { env.script(i) }
}
