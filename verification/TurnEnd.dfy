/**
 How a turn ends: which exits restore the session, which store a last message, and which leave it as it is; and
 what of the turn is still in the session then.
 */
module TurnEnd {
  import opened Messages
  import opened TurnState
  import RepeatGuard
  import CR = ContextRetry
  import ET = ExecuteTools

  datatype Flags = Flags(byHardAbort: bool, byHook: bool, allHandled: bool)

  // `stopped`: a hard abort was requested by then.
  datatype Exit =
    | StopSeen                              // a hard abort is seen before the start or in front of a round
    | CallFailed                            // the model call returns an error
    | Broke(flags: Flags, stopped: bool)    // the model call or the tools break the loop off
    | LoopDone(stopped: bool)               // the limit is reached, or the parent is gone

  datatype Status = Completed | Failed | Aborted

  predicate Restores(exit: Exit) {
    match exit
    case StopSeen => true
    case CallFailed => false
    case Broke(flags, stopped) => flags.byHardAbort || (!flags.byHook && flags.allHandled && stopped)
    case LoopDone(stopped) => stopped
  }

  // The exits that store a last message.
  predicate Finalizes(exit: Exit) {
    match exit
    case Broke(flags, _) => !flags.byHardAbort && !flags.byHook && !flags.allHandled
    case LoopDone(stopped) => !stopped
    case _ => false
  }

  function StatusOf(exit: Exit): Status {
    if Restores(exit) then Aborted
    else if exit.CallFailed? || (exit.Broke? && exit.flags.byHook) then Failed
    else Completed
  }

  function LeftBy(s: Memory, exit: Exit, last: Msg): seq<Msg> {
    if Restores(exit) then s.restore
    else if Finalizes(exit) then s.session + [last]
    else s.session
  }

  // ----- the end of the turn as the source runs it

  method AbortTurn(turn: Turn, noHistory: bool) returns (status: Status)
    modifies turn.session
    ensures turn.session.history == if noHistory then old(turn.session.history) else turn.restoreHistory
    ensures turn.session.summary == if noHistory then old(turn.session.summary) else turn.restoreSummary
    ensures status == Aborted
  {
    if !noHistory {
      turn.RestoreSession();
    }
    status := Aborted;
  }

  method Finalize(turn: Turn, allHandled: bool, stopped: bool, last: Msg, noHistory: bool) returns (status: Status)
    modifies turn`persisted, turn.session
    ensures turn.session.history ==
              if noHistory then old(turn.session.history)
              else LeftBy(old(turn.State()), Broke(Flags(false, false, allHandled), stopped), last)
    ensures turn.persisted == old(turn.persisted) + (if noHistory || allHandled then [] else [last])
    ensures turn.session.summary ==
              if !noHistory && allHandled && stopped then turn.restoreSummary else old(turn.session.summary)
    ensures status == if allHandled && stopped then Aborted else Completed
  {
    if allHandled {
      if stopped {
        status := AbortTurn(turn, noHistory);
        return;
      }
      return Completed;
    }
    if !noHistory {
      turn.StoreMessage(last);
    }
    status := Completed;
  }

  method EndTurn(turn: Turn, exit: Exit, last: Msg, noHistory: bool) returns (status: Status)
    modifies turn`persisted, turn.session
    ensures turn.session.history == if noHistory then old(turn.session.history)
                                    else LeftBy(old(turn.State()), exit, last)
    ensures status == StatusOf(exit)
    // A hard abort that was seen restores history and summary.
    ensures exit.StopSeen? || (exit.LoopDone? && exit.stopped) || (exit.Broke? && exit.flags.byHardAbort) ==>
              && status == Aborted
              && (!noHistory ==>
                    && turn.session.history == old(turn.restoreHistory)
                    && turn.session.summary == old(turn.restoreSummary))
    // An error leaves both as they are.
    ensures exit.CallFailed? || (exit.Broke? && exit.flags.byHook && !exit.flags.byHardAbort) ==>
              && status == Failed
              && turn.session.history == old(turn.session.history)
              && turn.session.summary == old(turn.session.summary)
    // What the model answered, or the loop ended with, is stored last, unless the tools answered the user.
    ensures (exit.LoopDone? && !exit.stopped)
            || (exit.Broke? && !exit.flags.byHardAbort && !exit.flags.byHook && !exit.flags.allHandled) ==>
              && status == Completed
              && turn.session.history == old(turn.session.history) + (if noHistory then [] else [last])
              && turn.persisted == old(turn.persisted) + (if noHistory then [] else [last])
    ensures exit.Broke? && !exit.flags.byHardAbort && !exit.flags.byHook && exit.flags.allHandled ==>
              && status == (if exit.stopped then Aborted else Completed)
              && turn.session.history ==
                   if exit.stopped && !noHistory then old(turn.restoreHistory) else old(turn.session.history)
  {
    match exit {
      case StopSeen => status := AbortTurn(turn, noHistory);
      case CallFailed => status := Failed;
      case Broke(flags, stopped) =>
        if flags.byHardAbort {
          status := AbortTurn(turn, noHistory);
        } else if flags.byHook {
          status := Failed;
        } else {
          status := Finalize(turn, flags.allHandled, stopped, last, noHistory);
        }
      case LoopDone(stopped) =>
        if stopped {
          status := AbortTurn(turn, noHistory);
        } else {
          status := Finalize(turn, false, stopped, last, noHistory);
        }
    }
  }

  // How the outcome of the retry loop ends the turn. No result has been handled by a tool when the model is called.
  function ExitOfCall(outcome: CR.Outcome): Exit {
    if outcome.Failed? then CallFailed else Broke(Flags(outcome.Aborted?, false, false), true)
  }

  method CallOrEnd(turn: Turn, exec: CR.Execution, p: CR.Prompting, attempts: nat -> CR.Attempt, maxRetries: nat,
                   noHistory: bool, last: Msg)
    returns (outcome: CR.Outcome, ghost ops: seq<Op>)
    requires !exec.abortedByHardAbort
    modifies turn, turn.session, exec
    ensures CR.CompactionsOnly(old(turn.State()), ops) && (noHistory ==> ops == [])
    ensures turn.session.history == if outcome.Responded? || noHistory then Steps(old(turn.State()), ops).session
                                    else LeftBy(Steps(old(turn.State()), ops), ExitOfCall(outcome), last)
  {
    hide Steps, CR.CompactionsOnly, CR.HoldsFitting, LeftBy;
    var calls;
    outcome, calls, ops := CR.CallWithRetry(turn, exec, p, attempts, maxRetries, noHistory);
    if outcome.Failed? {
      var status := EndTurn(turn, CallFailed, last, noHistory);
    } else if !outcome.Responded? {
      var status := EndTurn(turn, Broke(Flags(exec.abortedByHardAbort, false, false), true), last, noHistory);
    }
  }

  function ExitOfTools(exit: ET.Exit, allHandled: bool, stopped: bool): Exit {
    Broke(Flags(exit.AbortedHard?, exit.AbortedByHook?, allHandled), stopped)
  }

  // When the turn goes on no result counts as handled, so that the next model call finds the flag down.
  method ToolsOrEnd(exec: ET.TurnExecution, env: ET.Env, calls: seq<ToolCall>, late: seq<Msg>, summary: string,
                    suspended: bool, stopped: bool, last: Msg)
    returns (control: ET.ToolControl)
    requires !exec.abortedByHardAbort && !exec.abortedByHook
    modifies exec, exec.guard, exec.turn`persisted, exec.turn.session
    ensures var (st, exit, c) := ET.Executed(env, calls, late, summary, suspended, old(exec.View(exec.messages)));
            && control == c
            && (c.Continue? ==> !exec.allResponsesHandled && exec.turn.session.history == st.session)
            && (c.Break? ==>
                  exec.turn.session.history ==
                    if exec.kind.noHistory then st.session
                    else LeftBy(Memory(st.session, old(exec.turn.restoreHistory), st.persisted),
                                ExitOfTools(exit, st.allHandled, stopped), last))
  {
    hide ET.Loop, ET.SkipFrom, LeftBy;
    control := exec.ExecuteTools(env, calls, late, summary, suspended);
    if control.Break? {
      var flags := Flags(exec.abortedByHardAbort, exec.abortedByHook, exec.allResponsesHandled);
      var status := EndTurn(exec.turn, Broke(flags, stopped), last, exec.kind.noHistory);
    }
  }

  // ----- a stop by command also cuts the session back to its length before the turn

  function Cut(h: seq<Msg>, n: nat): seq<Msg> {
    if n < |h| then h[..n] else h
  }

  method RollBack(session: Session, initialLength: nat)
    modifies session`history
    ensures session.history == Cut(old(session.history), initialLength)
  {
    if initialLength < |session.history| {
      session.SetHistory(session.history[..initialLength]);
    }
  }

  // It runs on another goroutine: in front of the exit or behind it.
  datatype Rollback = Never | Ahead | Behind

  function EndSession(s: Memory, n: nat, exit: Exit, last: Msg, rollback: Rollback): seq<Msg> {
    match rollback
    case Never => LeftBy(s, exit, last)
    case Ahead => LeftBy(s.(session := Cut(s.session, n)), exit, last)
    case Behind => Cut(LeftBy(s, exit, last), n)
  }

  // ----- which exits leave a trace

  predicate NewTo(before: seq<Msg>, ms: seq<Msg>) {
    forall k | 0 <= k < |ms| :: ms[k] !in before
  }

  // The tail of a session cannot be told from older messages only if it is empty or cut off.
  lemma TailTraced(h: seq<Msg>, tail: seq<Msg>, before: seq<Msg>)
    requires IsSuffix(h, before) && (|h| == |before| || NewTo(before, tail))
    ensures IsSuffix(h + tail, before) <==> tail == []
    ensures IsSuffix(Cut(h + tail, |before|), before) <==> tail == [] || |h| == |before|
  {
    if tail == [] {
      assert h + tail == h;
    } else if |h| == |before| {
      assert h == before && Cut(h + tail, |before|) == before;
      assert before == [] + before;
    } else {
      assert tail[0] !in before;
      assert (h + tail)[|h|] == tail[0] && Cut(h + tail, |before|)[|h|] == tail[0];
      SuffixOnlyHolds(h + tail, before, |h|);
      SuffixOnlyHolds(Cut(h + tail, |before|), before, |h|);
    }
  }

  lemma SuffixOnlyHolds(s: seq<Msg>, before: seq<Msg>, i: nat)
    requires i < |s| && s[i] !in before
    ensures !IsSuffix(s, before)
  {
  }

  lemma LastTraced(h: seq<Msg>, last: Msg, before: seq<Msg>)
    requires |h| >= |before| || last !in before
    ensures !IsSuffix(h + [last], before)
  {
    if last !in before {
      assert (h + [last])[|h|] == last;
      SuffixOnlyHolds(h + [last], before, |h|);
    }
  }

  // What is left of the turn when it ends without a restore. `stored`: messages of it are in the session.
  predicate LeavesNone(exit: Exit, rollback: Rollback, stored: bool, whole: bool) {
    match rollback
    case Never => !Finalizes(exit) && !stored
    case Ahead => !Finalizes(exit) && (!stored || whole)
    case Behind => (!Finalizes(exit) && !stored) || whole
  }

  // A turn that can be undone ends with nothing in the session but messages from before it if and only if its exit
  // restores the session; or it stores no last message and had stored none, or those are cut off; where the cut
  // helps only if no compaction took anything that was there before the turn.
  lemma TracelessIff(s: Memory, k: nat, before: seq<Msg>, exit: Exit, last: Msg, rollback: Rollback)
    requires SplitAt(s, k) && IsSuffix(s.restore, before)
    requires |s.restore| == |before| || NewTo(before, s.persisted + [last])
    ensures IsSuffix(EndSession(s, |before|, exit, last, rollback), before) <==>
              Restores(exit) || LeavesNone(exit, rollback, k < |s.persisted|, |s.restore| == |before|)
  {
    hide Restores, Finalizes, Cut, IsSuffix;
    var tail := s.persisted[k..];
    NewParts(before, s.persisted, k, last);
    if Restores(exit) {
      RestoredIsCut(s, before);
    } else {
      TailTraced(s.restore, tail, before);
      FullCut(s.restore, tail, before);
      LastTraced(s.session, last, before);
      LastTraced(Cut(s.session, |before|), last, before);
      Assoc(s.restore, tail, [last]);
      TailTraced(s.restore, tail + [last], before);
    }
  }

  lemma NewParts(before: seq<Msg>, persisted: seq<Msg>, k: nat, last: Msg)
    requires k <= |persisted|
    ensures NewTo(before, persisted + [last]) ==>
              NewTo(before, persisted[k..]) && NewTo(before, persisted[k..] + [last]) && last !in before
  {
    if NewTo(before, persisted + [last]) {
      assert (persisted + [last])[|persisted|] == last;
      forall j | 0 <= j < |persisted| - k
        ensures persisted[k..][j] !in before
      {
        assert (persisted + [last])[k + j] == persisted[k..][j];
      }
    }
  }

  lemma RestoredIsCut(s: Memory, before: seq<Msg>)
    requires IsSuffix(s.restore, before)
    ensures Cut(s.restore, |before|) == s.restore
  {
  }

  lemma FullCut(h: seq<Msg>, tail: seq<Msg>, before: seq<Msg>)
    requires IsSuffix(h, before)
    ensures |h + tail| >= |h|
    ensures |h| == |before| ==> |Cut(h + tail, |before|)| == |before|
  {
  }

  // ----- over every turn

  // What a turn leaves that starts on `before`.
  function TurnLeaves(before: seq<Msg>, ops: seq<Op>, exit: Exit, last: Msg, rollback: Rollback): seq<Msg> {
    EndSession(Steps(Memory(before, before, []), ops), |before|, exit, last, rollback)
  }

  ghost predicate AlwaysUndone(exit: Exit, rollback: Rollback) {
    forall before, ops, last | CleanRun(Memory(before, before, []), ops) ::
      IsSuffix(TurnLeaves(before, ops, exit, last, rollback), before)
  }

  // An exit undoes every turn of persisted messages and suffix-keeping compactions, whether or not the session is cut
  // back as well, exactly when a hard abort was seen: in front of a round, behind the loop, in the model call, in the
  // tools, or at last when the tools have answered everything.
  lemma AlwaysUndoneIff(exit: Exit, rollback: Rollback)
    ensures AlwaysUndone(exit, rollback) <==>
              || exit.StopSeen?
              || (exit.LoopDone? && exit.stopped)
              || (exit.Broke? && exit.flags.byHardAbort)
              || (exit.Broke? && exit.flags.allHandled && !exit.flags.byHook && exit.stopped)
  {
    UndoneIffRestores(exit, rollback);
  }

  // Every exit on which the coordinator sees the abort leaves a suffix of the older history, with the status Aborted.
  lemma SeenAbortUndoes(before: seq<Msg>, ops: seq<Op>, exit: Exit, last: Msg, rollback: Rollback)
    requires CleanRun(Memory(before, before, []), ops)
    requires exit in {StopSeen, LoopDone(true), ExitOfCall(CR.Aborted)}
             || (exists allHandled, stopped :: exit == ExitOfTools(ET.AbortedHard, allHandled, stopped))
    ensures IsSuffix(TurnLeaves(before, ops, exit, last, rollback), before)
    ensures StatusOf(exit) == Aborted
  {
    RestoringUndoes(before, ops, exit, last, rollback);
  }

  lemma UndoneIffRestores(exit: Exit, rollback: Rollback)
    ensures AlwaysUndone(exit, rollback) <==> Restores(exit)
  {
    hide TurnLeaves, CleanRun, IsSuffix;
    if Restores(exit) {
      forall before, ops, last | CleanRun(Memory(before, before, []), ops)
        ensures IsSuffix(TurnLeaves(before, ops, exit, last, rollback), before)
      {
        RestoringUndoes(before, ops, exit, last, rollback);
      }
    } else {
      var before, ops, last := ExitTraces(exit, rollback);
      assert CleanRun(Memory(before, before, []), ops);
    }
  }

  lemma RestoringUndoes(before: seq<Msg>, ops: seq<Op>, exit: Exit, last: Msg, rollback: Rollback)
    requires CleanRun(Memory(before, before, []), ops) && Restores(exit)
    ensures IsSuffix(TurnLeaves(before, ops, exit, last, rollback), before)
  {
    hide Steps, CleanRun, Restores, SplitAt;
    var s := Memory(before, before, []);
    TurnStartsUndoable(before);
    AbortLeavesNoTrace(s, ops, before);
    RestoredIsCut(Steps(s, ops), before);
  }

  function UserMsg(content: string): Msg {
    Msg(User, content, [], "", [], "user")
  }

  lemma ExitTraces(exit: Exit, rollback: Rollback) returns (before: seq<Msg>, ops: seq<Op>, last: Msg)
    requires !Restores(exit)
    ensures CleanRun(Memory(before, before, []), ops)
    ensures !IsSuffix(TurnLeaves(before, ops, exit, last, rollback), before)
  {
    hide Restores, Finalizes, EndSession;
    var older, u := UserMsg("older"), UserMsg("turn");
    before, last := [older], u;
    var s0 := Memory(before, before, []);
    var s1 := Step(s0, Persist(u));
    var s2 := Step(s1, Compact([u]));
    ops := [Persist(u), Compact([u])];
    OneMessageLeft(older, u);
    assert ops[1..] == [Compact([u])] && ops[1..][1..] == [];
    assert Steps(s0, ops) == Steps(s1, ops[1..]) && Steps(s1, ops[1..]) == Steps(s2, []);
    assert CleanRun(s2, []) && CleanRun(s1, ops[1..]);
    TracelessIff(s2, 0, before, exit, last, rollback);
  }

  lemma OneMessageLeft(older: Msg, u: Msg)
    requires older != u
    ensures var s := Memory([older, u], [older], [u]);
            && CleanOp(s, Compact([u])) && Step(s, Compact([u])) == Memory([u], [], [u])
            && SplitAt(Memory([u], [], [u]), 0) && IsSuffix([], [older]) && NewTo([older], [u] + [u])
  {
    assert [u] == [] + [u][0..];
    MatchIsExact([], [u], 0);
    assert [older, u] == [older] + [u];
    assert [older, u][..1] == [older];
    assert [older] == [older] + [];
  }

  // ----- the exits that leave one

  // A hard abort that cuts short the wait between two model calls: the turn is finalized like an answered one, its
  // messages stay, and a last message is stored behind them. Only a rollback behind it helps, and only if the
  // history before the turn is whole.
  lemma BackoffAbortKeepsTurn(s: Memory, k: nat, before: seq<Msg>, last: Msg, rollback: Rollback)
    requires SplitAt(s, k) && IsSuffix(s.restore, before)
    requires |s.restore| == |before| || NewTo(before, s.persisted + [last])
    ensures var exit := ExitOfCall(CR.AbortedInBackoff);
            && LeftBy(s, exit, last) == s.session + [last] && StatusOf(exit).Completed?
            && (IsSuffix(EndSession(s, |before|, exit, last, rollback), before) <==>
                  rollback.Behind? && |s.restore| == |before|)
    ensures Restores(ExitOfCall(CR.Aborted))
  {
    TracelessIff(s, k, before, ExitOfCall(CR.AbortedInBackoff), last, rollback);
  }

  // A hook that aborts the turn, or a call that fails: whatever the turn stored stays.
  lemma HookAbortKeepsTurn(s: Memory, k: nat, before: seq<Msg>, exit: Exit, last: Msg)
    requires SplitAt(s, k) && IsSuffix(s.restore, before)
    requires |s.restore| == |before| || NewTo(before, s.persisted + [last])
    requires exit.CallFailed? || (exit.Broke? && exit.flags.byHook && !exit.flags.byHardAbort)
    ensures LeftBy(s, exit, last) == s.session && StatusOf(exit).Failed?
    ensures IsSuffix(LeftBy(s, exit, last), before) <==> k == |s.persisted|
  {
    TracelessIff(s, k, before, exit, last, Never);
  }

  // A loop that is aborted at some call has answered those before it and no other.
  lemma {:induction false} AbortedAt(env: ET.Env, calls: seq<ToolCall>, i: nat, st: ET.Exec)
    returns (added: seq<Stored>, j: nat)
    requires i <= |calls|
    requires var exit := ET.Loop(env, calls, i, st).1; exit.AbortedHard? || exit.AbortedByHook?
    ensures ET.Added(st, ET.Loop(env, calls, i, st).0, added)
    ensures i <= j < |calls| && |ET.ResultIdsOf(MessagesOf(added))| == j - i
    ensures forall k | 0 <= k < j - i :: ET.ResultIdsOf(MessagesOf(added))[k] == calls[i + k].id
    decreases |calls| - i
  {
    hide ET.OneCall, ET.SkipFrom, ET.ResultIdsOf, ET.Added, MessagesOf;
    var (st1, next) := ET.OneCall(env, calls[i], env.script(i), st);
    var first := ET.OneCallAdds(env, calls[i], env.script(i), st);
    if next.GoOn? {
      var rest;
      rest, j := AbortedAt(env, calls, i + 1, st1);
      hide ET.Loop;
      ET.AddedTransitive(st, st1, ET.Loop(env, calls, i + 1, st1).0, first, rest);
      added := first + rest;
    } else {
      added, j := [], i;
      NoResults();
    }
  }

  lemma NoResults()
    ensures MessagesOf([]) == [] && ET.ResultIdsOf([]) == []
  {
  }

  lemma {:induction false} ResultIsListed(added: seq<Msg>, i: nat)
    requires i < |added| && IsTool(added[i])
    ensures added[i].toolCallId in ET.ResultIdsOf(added)
  {
    if i > 0 {
      ResultIsListed(added[1..], i - 1);
    }
  }

  // A call message whose calls were not all answered breaks the contract of the session.
  lemma HalfAnswered(h: seq<Msg>, call: Msg, results: seq<Msg>, j: nat)
    requires IsCall(call) && ET.Answerable(call.calls) && j < |call.calls| && |ET.ResultIdsOf(results)| == j
    requires forall k | 0 <= k < j :: ET.ResultIdsOf(results)[k] == call.calls[k].id
    ensures !WellFormed(h + [call] + results)
  {
    var full := h + [call] + results;
    assert full[|h|] == call && full[|h| + 1..] == results;
    if WellPlaced(full, |h|) {
      assert call.calls[j] in call.calls;
      assert call.calls[j].id in ResultIds(Run(results));
      var m: nat :| m < |Run(results)| && Run(results)[m].toolCallId == call.calls[j].id;
      ResultIsListed(results, m);
      assert false;
    }
  }

  // A hook that aborts the tools leaves a half-answered call in the session.
  lemma HookAbortHalfAnswers(env: ET.Env, late: seq<Msg>, summary: string, st: ET.Exec, h: seq<Msg>, call: Msg,
                             restore: seq<Msg>, stopped: bool, last: Msg)
    requires !st.kind.noHistory && st.session == h + [call] && IsCall(call) && ET.Answerable(call.calls)
    ensures var (st', exit, _) := ET.Executed(env, call.calls, late, summary, false, st);
            exit.AbortedByHook? ==>
              !WellFormed(LeftBy(Memory(st'.session, restore, st'.persisted),
                                 ExitOfTools(exit, st'.allHandled, stopped), last))
  {
    hide ET.Loop, WellFormed, ET.Answerable, ET.ResultIdsOf;
    if ET.Loop(env, call.calls, 0, st).1.AbortedByHook? {
      var added, j := AbortedAt(env, call.calls, 0, st);
      HalfAnswered(h, call, MessagesOf(added), j);
    }
  }

  // It does happen: the hook in front of the first call aborts the turn.
  lemma HookMayAbort(env: ET.Env, calls: seq<ToolCall>, st: ET.Exec)
    requires calls != [] && st.guard == RepeatGuard.FRESH && env.signature(calls[0]) != ""
    requires ET.ReachesGuard(env, calls[0], env.script(0)) && env.script(0).before.AbortBefore?
    ensures ET.Loop(env, calls, 0, st).1.AbortedByHook?
  {
  }
}
