/**
 The retry loop around a provider call, and what it does when the provider says that the context window is
 exceeded: compress the session, refresh the restore point, split off the active turn, and rebuild the prompt
 from the part before it.
 */
module ContextRetry {
  import opened Messages
  import opened ContextBudget
  import opened TurnState
  import opened Compression

  class Execution {
    var history: seq<Msg>
    var messages: seq<Msg>
    var callMessages: seq<Msg>
    var currentTurnStart: int
    var gracefulTerminal: bool
    var abortedByHardAbort: bool

    constructor (messages: seq<Msg>, gracefulTerminal: bool)
      ensures this.messages == this.callMessages == messages && this.gracefulTerminal == gracefulTerminal
      ensures !abortedByHardAbort
    {
      abortedByHardAbort := false;
      history := [];
      this.messages, callMessages := messages, messages;
      currentTurnStart := |messages|;
      this.gracefulTerminal := gracefulTerminal;
    }
  }

  // The prompt builder, which gets the summary, the history, and how many messages of it belong to the active turn;
  // and what it is called with besides.
  datatype Prompting = Prompting(
    prompt: (string, seq<Msg>, nat) -> seq<Msg>,
    hint: Msg,
    budget: Budget,
    note: nat -> string)

  // The prompt of a candidate for the older history: the active turn always follows it.
  function Rebuilder(p: Prompting, summary: string, protected: seq<Msg>, graceful: bool): seq<Msg> -> seq<Msg> {
    trimmed => CallMessages(p, summary, trimmed + protected, |protected|, graceful)
  }

  function Prompt(p: Prompting, summary: string, history: seq<Msg>, tail: nat): seq<Msg> {
    p.prompt(summary, history, tail)
  }

  // A turn that was asked to stop gets a closing hint.
  function CallMessages(p: Prompting, summary: string, history: seq<Msg>, tail: nat, graceful: bool): seq<Msg> {
    Prompt(p, summary, history, tail) + (if graceful then [p.hint] else [])
  }

  // What compression leaves of the session.
  function Compacted(session: seq<Msg>): seq<Msg> {
    match Compress(session)
    case Unchanged => session
    case Kept(kept) => kept
  }

  // The summary of the session then: a note about what was dropped is appended.
  function NextSummary(summary: string, session: seq<Msg>, note: nat -> string): string {
    match Compress(session)
    case Unchanged => summary
    case Kept(kept) =>
      CompressedIsShorter(session);
      var text := note(|session| - |kept|);
      if summary == "" then text else summary + "\n\n" + text
  }

  function StablePart(session: seq<Msg>, persisted: seq<Msg>): seq<Msg> {
    RestoreFrom(session, persisted)
  }

  function ProtectedPart(session: seq<Msg>, persisted: seq<Msg>): seq<Msg> {
    session[|session| - MatchedTail(session, persisted)..]
  }

  ghost predicate Rebuilt(p: Prompting, summary: string, session: seq<Msg>, persisted: seq<Msg>, graceful: bool,
                          trimmed: seq<Msg>, fit: bool)
  {
    var rebuilder := Rebuilder(p, summary, ProtectedPart(session, persisted), graceful);
    TrimResult(StablePart(session, persisted), FitsBuilt(p.budget, rebuilder), trimmed, fit)
  }

  // Some slice of the older history that the trim tries fits into a prompt with the active turn.
  ghost predicate RebuildFits(p: Prompting, summary: string, s: Memory, graceful: bool) {
    var rebuilder := Rebuilder(p, summary, ProtectedPart(s.session, s.persisted), graceful);
    SomeTriedFits(StablePart(s.session, s.persisted), FitsBuilt(p.budget, rebuilder))
  }

  method CompactSession(turn: Turn, note: nat -> string)
    modifies turn, turn.session
    ensures turn.State() == Step(old(turn.State()), Compact(Compacted(old(turn.session.history))))
    ensures turn.session.summary == NextSummary(old(turn.session.summary), old(turn.session.history), note)
    ensures turn.restoreSummary == turn.session.summary
  {
    hide Compress, MatchedTail;
    CompressedIsShorter(turn.session.history);
    var done := ForceCompression(turn.session, note);
    turn.RefreshRestorePointFromSession();
  }

  method TrimBeforeActiveTurn(history: seq<Msg>, summary: string, persisted: seq<Msg>, p: Prompting, graceful: bool)
    returns (trimmed: seq<Msg>, protected: seq<Msg>, callMessages: seq<Msg>, fit: bool)
    ensures protected == ProtectedPart(history, persisted)
    ensures callMessages == CallMessages(p, summary, trimmed + protected, |protected|, graceful)
    ensures fit == Fits(p.budget, callMessages)
    ensures Rebuilt(p, summary, history, persisted, graceful, trimmed, fit)
    ensures fit <==> RebuildFits(p, summary, Memory(history, [], persisted), graceful)
  {
    var stable: seq<Msg>;
    stable, protected := SplitHistoryForActiveTurn(history, persisted);
    assert stable == StablePart(history, persisted) && protected == ProtectedPart(history, persisted);
    trimmed, callMessages, fit := TrimHistoryToFit(stable, Rebuilder(p, summary, protected, graceful), p.budget);
  }

  // What the execution holds after a rebuild from that session.
  ghost predicate Holds(exec: Execution, p: Prompting, summary: string, session: seq<Msg>, persisted: seq<Msg>,
                        trimmed: seq<Msg>)
    reads exec`history, exec`messages, exec`callMessages, exec`currentTurnStart, exec`gracefulTerminal
  {
    var protected := ProtectedPart(session, persisted);
    && exec.history == trimmed + protected
    && exec.messages == Prompt(p, summary, exec.history, |protected|)
    && exec.callMessages == CallMessages(p, summary, exec.history, |protected|, exec.gracefulTerminal)
    && exec.currentTurnStart == |exec.messages| - |protected|
  }

  method RebuildPrompt(exec: Execution, history: seq<Msg>, summary: string, persisted: seq<Msg>, p: Prompting)
    returns (trimmed: seq<Msg>, fit: bool)
    modifies exec
    ensures Rebuilt(p, summary, history, persisted, exec.gracefulTerminal, trimmed, fit)
    ensures Holds(exec, p, summary, history, persisted, trimmed)
    ensures var tail := MatchedTail(history, persisted);
            && exec.history == trimmed + history[|history| - tail..] && IsSuffix(trimmed, history[..|history| - tail])
            && exec.messages == Prompt(p, summary, exec.history, tail)
            && exec.currentTurnStart == |exec.messages| - tail
    ensures exec.callMessages == exec.messages + (if exec.gracefulTerminal then [p.hint] else [])
    ensures exec.gracefulTerminal == old(exec.gracefulTerminal)
    ensures exec.abortedByHardAbort == old(exec.abortedByHardAbort)
    ensures fit == Fits(p.budget, exec.callMessages)
    ensures fit <==> RebuildFits(p, summary, Memory(history, [], persisted), exec.gracefulTerminal)
  {
    hide Rebuilt, RebuildFits;
    var protected, callMessages: seq<Msg>;
    trimmed, protected, callMessages, fit :=
      TrimBeforeActiveTurn(history, summary, persisted, p, exec.gracefulTerminal);
    exec.callMessages := callMessages;
    exec.history := trimmed + protected;
    exec.messages := Prompt(p, summary, exec.history, |protected|);
    exec.currentTurnStart := |exec.messages| - |protected|;
    if exec.gracefulTerminal {
      exec.callMessages := exec.messages + [p.hint];
    }
    TrimmedIsSuffix(p, summary, history, persisted, exec.gracefulTerminal, trimmed, fit);
  }

  lemma TrimmedIsSuffix(p: Prompting, summary: string, session: seq<Msg>, persisted: seq<Msg>, graceful: bool,
                        trimmed: seq<Msg>, fit: bool)
    requires Rebuilt(p, summary, session, persisted, graceful, trimmed, fit)
    ensures IsSuffix(trimmed, StablePart(session, persisted))
  {
    var rebuilder := Rebuilder(p, summary, ProtectedPart(session, persisted), graceful);
    TrimResultIsSuffix(StablePart(session, persisted), FitsBuilt(p.budget, rebuilder), trimmed, fit);
  }

  // What the execution holds after an overflow round: some rebuild from that session, and it fits.
  ghost predicate HoldsFitting(exec: Execution, p: Prompting, summary: string, s: Memory)
    reads exec`history, exec`messages, exec`callMessages, exec`currentTurnStart, exec`gracefulTerminal
  {
    exists trimmed ::
      && Rebuilt(p, summary, s.session, s.persisted, exec.gracefulTerminal, trimmed, true)
      && Holds(exec, p, summary, s.session, s.persisted, trimmed)
  }

  method RebuildAfterOverflow(turn: Turn, exec: Execution, p: Prompting)
    returns (trimmed: seq<Msg>, fit: bool)
    modifies turn, turn.session, exec
    ensures turn.State() == Step(old(turn.State()), Compact(Compacted(old(turn.session.history))))
    ensures Rebuilt(p, turn.session.summary, turn.session.history, turn.persisted, exec.gracefulTerminal, trimmed, fit)
    ensures Holds(exec, p, turn.session.summary, turn.session.history, turn.persisted, trimmed)
    ensures exec.gracefulTerminal == old(exec.gracefulTerminal)
    ensures exec.abortedByHardAbort == old(exec.abortedByHardAbort)
    ensures exec.callMessages == exec.messages + (if exec.gracefulTerminal then [p.hint] else [])
    ensures fit == Fits(p.budget, exec.callMessages)
    ensures fit ==> HoldsFitting(exec, p, turn.session.summary, turn.State())
    ensures turn.session.summary == NextSummary(old(turn.session.summary), old(turn.session.history), p.note)
    ensures fit <==> RebuildFits(p, turn.session.summary, turn.State(), exec.gracefulTerminal)
  {
    hide Rebuilt, Holds, NextSummary;
    CompactSession(turn, p.note);
    trimmed, fit := RebuildPrompt(exec, turn.session.history, turn.session.summary, turn.persisted, p);
  }

  // ----- the retry loop

  datatype Attempt =
    | Response
    | HardAborted
    | StreamVisible
    | VisionUnsupported
    | BusyResumed                              // suspended, and the wait saw the runtime resume
    | Transient(slept: bool, aborted: bool)    // retryable; the backoff sleep may be cut short
    | ContextOverflow
    | OtherError

  // A hard abort that is seen by the call breaks the turn off; one that cuts short the sleep between two calls
  // leaves no flag behind.
  datatype Outcome = Responded | Aborted | AbortedInBackoff | Failed

  // How many of the first n attempts overflow the context window.
  function Overflows(attempts: nat -> Attempt, n: nat): nat {
    if n == 0 then 0 else Overflows(attempts, n - 1) + (if attempts(n - 1).ContextOverflow? then 1 else 0)
  }

  // The turn, and the summary of its session, after n compressions.
  function CompactedTimes(s: Memory, n: nat): Memory {
    if n == 0 then s
    else
      var before := CompactedTimes(s, n - 1);
      Step(before, Compact(Compacted(before.session)))
  }

  function SummaryAfter(summary: string, s: Memory, note: nat -> string, n: nat): string {
    if n == 0 then summary
    else NextSummary(SummaryAfter(summary, s, note, n - 1), CompactedTimes(s, n - 1).session, note)
  }

  ghost predicate NthRebuildFits(p: Prompting, summary: string, s: Memory, graceful: bool, n: nat) {
    RebuildFits(p, SummaryAfter(summary, s, p.note, n), CompactedTimes(s, n), graceful)
  }

  // What a call starts from.
  datatype Start = Start(s: Memory, summary: string, graceful: bool, noHistory: bool)

  // While retries are left the loop goes on behind attempt i.
  ghost predicate Retried(p: Prompting, start: Start, attempts: nat -> Attempt, i: nat) {
    match attempts(i)
    case BusyResumed => true
    case Transient(slept, _) => slept
    case ContextOverflow =>
      !start.noHistory && NthRebuildFits(p, start.summary, start.s, start.graceful, Overflows(attempts, i + 1))
    case _ => false
  }

  // Every attempt but the last was retried, and the last one decides the outcome.
  ghost predicate RetryResult(p: Prompting, start: Start, attempts: nat -> Attempt, maxRetries: nat,
                              outcome: Outcome, calls: nat)
  {
    && 1 <= calls <= maxRetries + 1
    && (forall i | 0 <= i < calls - 1 :: Retried(p, start, attempts, i))
    && var last := attempts(calls - 1);
    && (outcome.Responded? <==> last.Response?)
    && (outcome.Aborted? <==> last.HardAborted?)
    && (outcome.AbortedInBackoff? <==> calls <= maxRetries && last.Transient? && !last.slept && last.aborted)
    && (outcome.Failed? <==>
          || last.StreamVisible? || last.VisionUnsupported? || last.OtherError?
          || (last.Transient? && !last.slept && !last.aborted)
          || (last.ContextOverflow? && start.noHistory)
          || (last.ContextOverflow?
              && !NthRebuildFits(p, start.summary, start.s, start.graceful, Overflows(attempts, calls)))
          || (calls == maxRetries + 1 && !last.Response? && !last.HardAborted?))
  }

  // Nothing is given up too early: when every attempt before the j-th can be retried, the rebuilds between them fit,
  // and the j-th responds, then the call responds, after exactly j retries.
  lemma RetriesUntilResponse(p: Prompting, start: Start, attempts: nat -> Attempt, maxRetries: nat,
                             outcome: Outcome, calls: nat, j: nat)
    requires RetryResult(p, start, attempts, maxRetries, outcome, calls)
    requires j <= maxRetries && attempts(j).Response?
    requires forall i | 0 <= i < j ::
               || attempts(i).BusyResumed?
               || (attempts(i).Transient? && attempts(i).slept)
               || (attempts(i).ContextOverflow? && !start.noHistory
                   && NthRebuildFits(p, start.summary, start.s, start.graceful, Overflows(attempts, i + 1)))
    ensures outcome.Responded? && calls == j + 1
  {
    hide NthRebuildFits;
    AnswerIsNotRetried(p, start, attempts, j);
  }

  lemma AnswerIsNotRetried(p: Prompting, start: Start, attempts: nat -> Attempt, j: nat)
    requires attempts(j).Response?
    ensures !Retried(p, start, attempts, j)
  {
  }

  // The loop ends only where it cannot go on.
  lemma LastIsNotRetried(p: Prompting, start: Start, attempts: nat -> Attempt, maxRetries: nat,
                         outcome: Outcome, calls: nat)
    requires RetryResult(p, start, attempts, maxRetries, outcome, calls)
    ensures calls == maxRetries + 1 || !Retried(p, start, attempts, calls - 1)
  {
    hide NthRebuildFits;
  }

  // The result is determined by what is asked and answered.
  lemma RetryIsDetermined(p: Prompting, start: Start, attempts: nat -> Attempt, maxRetries: nat,
                          outcome: Outcome, calls: nat, outcome': Outcome, calls': nat)
    requires RetryResult(p, start, attempts, maxRetries, outcome, calls)
    requires RetryResult(p, start, attempts, maxRetries, outcome', calls')
    ensures outcome == outcome' && calls == calls'
  {
    hide NthRebuildFits;
    LastIsNotRetried(p, start, attempts, maxRetries, outcome, calls);
    LastIsNotRetried(p, start, attempts, maxRetries, outcome', calls');
  }

  // Turn and summary stand where these compactions have brought them since the call began.
  ghost predicate Compressed(s: Memory, summary: string, p: Prompting, start: Start, ops: seq<Op>) {
    && s == Steps(start.s, ops) && CompactionsOnly(start.s, ops)
    && s == CompactedTimes(start.s, |ops|)
    && summary == SummaryAfter(start.summary, start.s, p.note, |ops|)
  }

  // One compaction more.
  lemma CompressedOnceMore(s: Memory, summary: string, p: Prompting, start: Start, ops: seq<Op>)
    requires Compressed(s, summary, p, start, ops)
    ensures var compact := Compact(Compacted(s.session));
            var s', summary' := Step(s, compact), NextSummary(summary, s.session, p.note);
            && Compressed(s', summary', p, start, ops + [compact])
            && (RebuildFits(p, summary', s', start.graceful) <==>
                  NthRebuildFits(p, start.summary, start.s, start.graceful, |ops| + 1))
  {
    hide Steps, CompactionsOnly, Step, Compacted, NextSummary, RebuildFits;
    hide CompactedTimes, SummaryAfter, NthRebuildFits;
    StepsSnoc(start.s, ops, Compact(Compacted(s.session)));
    CompactionsSnoc(start.s, ops);
    NextCompaction(start, p, |ops|);
  }

  // What is sent next is a rebuilt prompt that fits.
  ghost predicate SendsRebuilt(turn: Turn, exec: Execution, p: Prompting)
    reads turn, turn.session
    reads exec`history, exec`messages, exec`callMessages, exec`currentTurnStart, exec`gracefulTerminal
  {
    && HoldsFitting(exec, p, turn.session.summary, turn.State())
    && Fits(p.budget, exec.callMessages)
    && exec.callMessages == exec.messages + (if exec.gracefulTerminal then [p.hint] else [])
  }

  // One overflow round, as far as the loop is concerned.
  method OverflowRound(turn: Turn, exec: Execution, p: Prompting) returns (fit: bool)
    modifies turn, turn.session, exec
    ensures turn.State() == Step(old(turn.State()), Compact(Compacted(old(turn.session.history))))
    ensures turn.session.summary == NextSummary(old(turn.session.summary), old(turn.session.history), p.note)
    ensures fit <==> RebuildFits(p, turn.session.summary, turn.State(), exec.gracefulTerminal)
    ensures fit ==> SendsRebuilt(turn, exec, p)
    ensures exec.gracefulTerminal == old(exec.gracefulTerminal)
    ensures exec.abortedByHardAbort == old(exec.abortedByHardAbort)
  {
    hide Rebuilt, Holds, HoldsFitting, Step, Compacted, Fits, NextSummary, RebuildFits;
    var trimmed;
    trimmed, fit := RebuildAfterOverflow(turn, exec, p);
  }

  // One call of the provider per round. `ops` lists the compactions, in order; `calls` counts the provider calls.
  method CallWithRetry(turn: Turn, exec: Execution, p: Prompting,
                       attempts: nat -> Attempt, maxRetries: nat, noHistory: bool)
    returns (outcome: Outcome, calls: nat, ghost ops: seq<Op>)
    modifies turn, turn.session, exec
    ensures RetryResult(p, old(StartOf(turn, exec, noHistory)), attempts, maxRetries, outcome, calls)
    ensures exec.abortedByHardAbort == (old(exec.abortedByHardAbort) || outcome.Aborted?)
    ensures |ops| <= maxRetries && (noHistory ==> ops == [])
    ensures |ops| == Overflows(attempts, calls - 1) +
              (if attempts(calls - 1).ContextOverflow? && calls <= maxRetries && !noHistory then 1 else 0)
    ensures turn.State() == Steps(old(turn.State()), ops) && CompactionsOnly(old(turn.State()), ops)
    ensures !outcome.Failed? && ops != [] ==> SendsRebuilt(turn, exec, p)
    ensures ops == [] ==> exec.callMessages == old(exec.callMessages) && exec.messages == old(exec.messages)
  {
    hide NthRebuildFits, Steps, CompactionsOnly, CompactedTimes, SummaryAfter, Step, Compacted, NextSummary;
    hide SendsRebuilt, RebuildFits;
    calls, ops, outcome := 0, [], Failed;
    ghost var start := StartOf(turn, exec, noHistory);
    NoStepsYet(turn.State());
    NoCompactionYet(start, p);
    for retry := 0 to maxRetries + 1
      invariant calls == retry <= maxRetries
      invariant forall i | 0 <= i < calls :: Retried(p, start, attempts, i)
      invariant |ops| == Overflows(attempts, calls) <= calls && (noHistory ==> ops == [])
      invariant outcome.Failed?
      invariant exec.abortedByHardAbort == old(exec.abortedByHardAbort)
      invariant exec.gracefulTerminal == start.graceful
      invariant Compressed(turn.State(), turn.session.summary, p, start, ops)
      invariant ops != [] ==> SendsRebuilt(turn, exec, p)
      invariant ops == [] ==> exec.callMessages == old(exec.callMessages) && exec.messages == old(exec.messages)
    {
      var attempt := attempts(retry);
      calls := calls + 1;
      if attempt.Response? {
        return Responded, calls, ops;
      }
      if attempt.HardAborted? {
        exec.abortedByHardAbort := true;
        return Aborted, calls, ops;
      }
      if attempt.BusyResumed? && retry < maxRetries {
        continue;
      }
      if attempt.Transient? && retry < maxRetries {
        if !attempt.slept {
          outcome := if attempt.aborted then AbortedInBackoff else Failed;
          return;
        }
        continue;
      }
      if attempt.ContextOverflow? && retry < maxRetries && !noHistory {
        CompressedOnceMore(turn.State(), turn.session.summary, p, start, ops);
        ops := ops + [Compact(Compacted(turn.session.history))];
        var fit := OverflowRound(turn, exec, p);
        if !fit {
          return;
        }
        continue;
      }
      return;
    }
  }

  lemma NoCompactionYet(start: Start, p: Prompting)
    ensures CompactedTimes(start.s, 0) == start.s && SummaryAfter(start.summary, start.s, p.note, 0) == start.summary
  {
  }

  lemma NextCompaction(start: Start, p: Prompting, n: nat)
    ensures var before := CompactedTimes(start.s, n);
            CompactedTimes(start.s, n + 1) == Step(before, Compact(Compacted(before.session)))
    ensures SummaryAfter(start.summary, start.s, p.note, n + 1) ==
              NextSummary(SummaryAfter(start.summary, start.s, p.note, n), CompactedTimes(start.s, n).session, p.note)
    ensures NthRebuildFits(p, start.summary, start.s, start.graceful, n + 1) <==>
              RebuildFits(p, SummaryAfter(start.summary, start.s, p.note, n + 1), CompactedTimes(start.s, n + 1),
                          start.graceful)
  {
    hide Step, Compacted, NextSummary, RebuildFits;
  }

  ghost function StartOf(turn: Turn, exec: Execution, noHistory: bool): Start
    reads turn, turn.session, exec`gracefulTerminal
  {
    Start(turn.State(), turn.session.summary, exec.gracefulTerminal, noHistory)
  }

  ghost predicate CompactionsOnly(s: Memory, ops: seq<Op>)
    decreases |ops|
  {
    ops == [] || (ops[0] == Compact(Compacted(s.session)) && CompactionsOnly(Step(s, ops[0]), ops[1..]))
  }

  lemma NoStepsYet(s: Memory)
    ensures Steps(s, []) == s && CompactionsOnly(s, [])
  {
  }

  lemma {:induction false} StepsSnoc(s: Memory, ops: seq<Op>, op: Op)
    ensures Steps(s, ops + [op]) == Step(Steps(s, ops), op)
    decreases |ops|
  {
    if ops == [] {
      assert ([] + [op])[1..] == [];
    } else {
      assert (ops + [op])[1..] == ops[1..] + [op];
      StepsSnoc(Step(s, ops[0]), ops[1..], op);
    }
  }

  lemma {:induction false} CompactionsSnoc(s: Memory, ops: seq<Op>)
    requires CompactionsOnly(s, ops)
    ensures CompactionsOnly(s, ops + [Compact(Compacted(Steps(s, ops).session))])
    decreases |ops|
  {
    hide Compacted, Step;
    var op := Compact(Compacted(Steps(s, ops).session));
    if ops != [] {
      assert (ops + [op])[1..] == ops[1..] + [op];
      CompactionsSnoc(Step(s, ops[0]), ops[1..]);
    }
  }

  // ----- what the rebuild keeps

  lemma TrimResultIsSuffix(h: seq<Msg>, fits: seq<Msg> -> bool, kept: seq<Msg>, fit: bool)
    requires TrimResult(h, fits, kept, fit)
    ensures IsSuffix(kept, h)
  {
    if !fit { assert h[|h|..] == []; }
  }

  lemma SplitGivesParts(s: Memory, k: nat)
    requires SplitAt(s, k)
    ensures StablePart(s.session, s.persisted) == s.restore
    ensures ProtectedPart(s.session, s.persisted) == s.persisted[k..]
  {
    MatchIsExact(s.restore, s.persisted, k);
  }

  lemma CompactedSplit(s: Memory, k: nat, kept: seq<Msg>) returns (k': nat)
    requires SplitAt(s, k) && IsSuffix(kept, s.session)
    ensures k <= k' && SplitAt(Step(s, Compact(kept)), k')
    ensures IsSuffix(Step(s, Compact(kept)).restore, s.restore)
  {
    hide MatchedTail, SplitAt, IsSuffix, Step, RestoreFrom;
    SuffixIsShorter(kept, s.session);
    var cut := |s.session| - |kept|;
    SuffixIsDrop(kept, s.session);
    RefreshIsExact(s, k, cut);
    k' := if cut <= |s.restore| then k else k + cut - |s.restore|;
  }

  lemma CompactionSplits(s: Memory, k: nat, kept: seq<Msg>, trimmed: seq<Msg>) returns (k': nat)
    requires SplitAt(s, k) && IsSuffix(kept, s.session)
    requires IsSuffix(trimmed, StablePart(kept, s.persisted))
    ensures IsSuffix(trimmed, s.restore)
    ensures k <= k' <= |s.persisted| && ProtectedPart(kept, s.persisted) == s.persisted[k'..]
    ensures k' > 0 ==> trimmed == []
  {
    hide MatchedTail, StablePart, ProtectedPart, IsSuffix, RestoreFrom;
    k' := CompactedSplit(s, k, kept);
    var s' := Step(s, Compact(kept));
    SplitGivesParts(s', k');
    SuffixTransitive(trimmed, s'.restore, s.restore);
    SuffixIsShorter(trimmed, s'.restore);
  }

  lemma SuffixIsShorter<T>(s: seq<T>, h: seq<T>)
    requires IsSuffix(s, h)
    ensures |s| <= |h|
  {
  }

  // A compression in the middle of a turn leaves the turn undoable if and only if the session is not one single turn,
  // or too short to be compressed; of a single turn its user message stays behind an abort.
  lemma CompactionTracelessIff(s: Memory, k: nat, before: seq<Msg>)
    requires SplitAt(s, k) && IsSuffix(s.restore, before)
    ensures var s' := Step(s, Compact(Compacted(s.session)));
            && (Undoable(s', before) <==> !IsOneTurn(s.session) || |s.session| <= 2)
            && (IsOneTurn(s.session) && |s.session| > 2 ==> s'.restore == [s.session[0]])
  {
    hide Step, IsOneTurn, Compacted, IsSuffix;
    var h := s.session;
    if IsOneTurn(h) && |h| > 2 {
      OneTurnKept(h);
      OneTurnIsTraced(s, k, before);
    } else {
      KeptIsSuffix(h);
      CleanStepUndoable(s, Compact(Compacted(h)), before);
    }
  }

  lemma KeptIsSuffix(h: seq<Msg>)
    requires !IsOneTurn(h) || |h| <= 2
    ensures IsSuffix(Compacted(h), h)
  {
    if |h| > 2 {
      CompressKeepsSuffixIff(h);
    }
  }

  lemma OneTurnIsTraced(s: Memory, k: nat, before: seq<Msg>)
    requires SplitAt(s, k) && IsSuffix(s.restore, before) && |s.session| > 2
    requires IsUser(s.session[0]) && !IsUser(s.session[|s.session| - 1])
    ensures var s' := Step(s, Compact([s.session[0]]));
            !Undoable(s', before) && s'.restore == [s.session[0]]
  {
    hide RestoreFrom;
    var h0 := s.session[0];
    var s' := Step(s, Compact([h0]));
    if s.persisted == [] {
      SuffixIsDrop(s.restore, before);
      assert before[|before| - 1] == s.session[|s.session| - 1];
      UserUnmatched(h0, s.persisted);
      LastIsMissing(before, [h0]);
    } else {
      assert s.session[|s.session| - 1] == s.persisted[|s.persisted| - 1];
      UserUnmatched(h0, s.persisted);
    }
  }

  lemma UserUnmatched(m: Msg, persisted: seq<Msg>)
    requires IsUser(m) && (persisted != [] ==> !IsUser(persisted[|persisted| - 1]))
    ensures RestoreFrom([m], persisted) == [m]
  {
    if persisted != [] {
      assert !Equivalent([m][0], persisted[0 - 1 + |persisted|]);
      assert !TailMatches([m], persisted, 1);
    }
  }

  // After a suffix-keeping compaction the rebuilt history is a trimmed suffix of the older history followed by
  // every message of the active turn that compaction left, whether or not the prompt fits; compaction took
  // messages of the turn only when it left nothing older.
  lemma RebuildKeepsActiveTurn(s: Memory, k: nat, p: Prompting, summary: string, graceful: bool,
                               trimmed: seq<Msg>, fit: bool)
    returns (k': nat)
    requires SplitAt(s, k) && IsSuffix(Compacted(s.session), s.session)
    requires Rebuilt(p, summary, Compacted(s.session), s.persisted, graceful, trimmed, fit)
    ensures IsSuffix(trimmed, s.restore)
    ensures k <= k' <= |s.persisted| && ProtectedPart(Compacted(s.session), s.persisted) == s.persisted[k'..]
    ensures k' > 0 ==> trimmed == []
  {
    hide Compacted, SplitAt, StablePart, ProtectedPart, IsSuffix;
    var kept := Compacted(s.session);
    TrimResultIsSuffix(StablePart(kept, s.persisted),
      FitsBuilt(p.budget, Rebuilder(p, summary, ProtectedPart(kept, s.persisted), graceful)), trimmed, fit);
    k' := CompactionSplits(s, k, kept, trimmed);
  }

  // Where compression cuts a history that is not one single turn.
  function CompressCut(h: seq<Msg>): (cut: nat)
    ensures cut <= |h|
    ensures !IsOneTurn(h) ==> Compacted(h) == h[cut..]
  {
    TurnsAreUsers(h, 0);
    var turns := Turns(h);
    if |h| <= 2 then 0
    else if |turns| >= 2 then
      assert turns[|turns| / 2] in turns;
      turns[|turns| / 2]
    else if |turns| == 0 then |h| / 2
    else
      assert turns[0] in turns;
      turns[0]
  }

  // The active turn survives the overflow round as a whole if and only if the session is no single turn and the
  // cut lies before the turn.
  lemma ActiveTurnWholeIff(rest: seq<Msg>, persisted: seq<Msg>, trimmed: seq<Msg>)
    requires |rest + persisted| > 2 && persisted != []
    requires IsSuffix(trimmed, StablePart(Compacted(rest + persisted), persisted))
    ensures var h := rest + persisted;
            var whole := IsSuffix(persisted, trimmed + ProtectedPart(Compacted(h), persisted));
            whole <==> !IsOneTurn(h) && CompressCut(h) <= |rest|
  {
    hide IsOneTurn, Compacted, CompressCut;
    var h := rest + persisted;
    var kept := Compacted(h);
    if IsOneTurn(h) {
      OneTurnKept(h);
      assert persisted[|persisted| - 1] == h[|h| - 1];
      RebuiltFromKept(kept, persisted, trimmed);
      LastIsMissing(persisted, trimmed + ProtectedPart(kept, persisted));
    } else {
      var cut := CompressCut(h);
      if cut <= |rest| {
        assert kept == rest[cut..] + persisted;
        TailIsWhole(rest[cut..], persisted, trimmed);
      } else {
        RebuiltFromKept(kept, persisted, trimmed);
      }
    }
  }

  lemma {:induction false} TurnsShifted(x: seq<Msg>, y: seq<Msg>, j: nat)
    requires j <= |y|
    ensures |TurnsFrom(x + y, |x| + j)| == |TurnsFrom(y, j)|
    ensures j < |y| && IsUser(y[j]) ==> |TurnsFrom(y, j)| > 0 && TurnsFrom(x + y, |x| + j)[0] == |x| + j
    decreases |y| - j
  {
    if j < |y| {
      TurnsShifted(x, y, j + 1);
    }
  }

  // The turns of a history in two parts: first those of one part, then those of the other.
  lemma {:induction false} TurnsOfParts(x: seq<Msg>, y: seq<Msg>, i: nat)
    requires i <= |x|
    ensures |TurnsFrom(x + y, i)| == |TurnsFrom(x, i)| + |Turns(y)|
    ensures y != [] && IsUser(y[0]) ==>
              |TurnsFrom(x, i)| < |TurnsFrom(x + y, i)| && TurnsFrom(x + y, i)[|TurnsFrom(x, i)|] == |x|
    decreases |x| - i
  {
    if i == |x| {
      TurnsShifted(x, y, 0);
    } else {
      TurnsOfParts(x, y, i + 1);
    }
  }

  // Counted in user messages: when the turn starts with one, it survives as a whole if and only if something is in
  // front of it, and its own user messages are at most one more than those in front.
  lemma ActiveTurnWholeIffCounts(rest: seq<Msg>, persisted: seq<Msg>, trimmed: seq<Msg>)
    requires |rest + persisted| > 2 && persisted != [] && IsUser(persisted[0])
    requires IsSuffix(trimmed, StablePart(Compacted(rest + persisted), persisted))
    ensures var whole := IsSuffix(persisted, trimmed + ProtectedPart(Compacted(rest + persisted), persisted));
            whole <==> rest != [] && |Turns(persisted)| <= |Turns(rest)| + 1
  {
    var h := rest + persisted;
    ActiveTurnWholeIff(rest, persisted, trimmed);
    TurnsOfParts(rest, persisted, 0);
    CutBeforeIff(h, |Turns(rest)|);
    if rest == [] {
      assert |Turns(rest)| == 0 && Turns(h)[0] == 0;
    }
  }

  // The turns are in ascending order, so their positions compare as their numbers do.
  lemma CutBeforeIff(h: seq<Msg>, a: nat)
    requires |h| > 2 && a < |Turns(h)|
    ensures CompressCut(h) <= Turns(h)[a] <==> |Turns(h)| / 2 <= a
    ensures a > 0 ==> !IsOneTurn(h)
  {
    hide Compacted;
    TurnsAreUsers(h, 0);
  }

  lemma TailIsWhole(rest: seq<Msg>, persisted: seq<Msg>, trimmed: seq<Msg>)
    ensures IsSuffix(persisted, trimmed + ProtectedPart(rest + persisted, persisted))
  {
    assert persisted[0..] == persisted;
    MatchIsExact(rest, persisted, 0);
    SuffixIntro(trimmed, persisted);
  }

  lemma RebuiltFromKept(kept: seq<Msg>, persisted: seq<Msg>, trimmed: seq<Msg>)
    requires IsSuffix(trimmed, StablePart(kept, persisted))
    ensures |trimmed + ProtectedPart(kept, persisted)| <= |kept|
    ensures forall m | m in trimmed + ProtectedPart(kept, persisted) :: m in kept
  {
    var cut := |StablePart(kept, persisted)| - |trimmed|;
    SuffixIsDrop(trimmed, StablePart(kept, persisted));
    assert trimmed + ProtectedPart(kept, persisted) == kept[cut..];
  }

  lemma OneTurnKept(h: seq<Msg>)
    requires |h| > 2 && IsOneTurn(h)
    ensures Compacted(h) == [h[0]] && IsUser(h[0]) && !IsUser(h[|h| - 1])
  {
    TurnsAreUsers(h, 0);
    assert Turns(h)[0] in Turns(h);
    assert IsUser(h[|h| - 1]) ==> |h| - 1 in Turns(h);
  }

  lemma LastIsMissing<T>(s: seq<T>, t: seq<T>)
    requires s != [] && s[|s| - 1] !in t
    ensures !IsSuffix(s, t)
  {
  }

  // Two or more overflow rounds in one turn, as the retry loop makes them: when the session is one older turn and
  // the active turn, the first leaves the active turn alone in the session, the second keeps only its user message,
  // and nothing of it is protected any more. The request that is sent in the end holds at most that message.
  lemma SecondRoundDropsActiveTurn(rest: seq<Msg>, persisted: seq<Msg>, ops: seq<Op>, p: Prompting, summary: string,
                                   graceful: bool, trimmed: seq<Msg>, fit: bool)
    requires IsOneTurn(rest) && IsOneTurn(persisted) && |persisted| > 2
    requires CompactionsOnly(Memory(rest + persisted, rest, persisted), ops) && |ops| >= 2
    requires var s := Steps(Memory(rest + persisted, rest, persisted), ops);
             Rebuilt(p, summary, s.session, s.persisted, graceful, trimmed, fit)
    ensures var s := Steps(Memory(rest + persisted, rest, persisted), ops);
            && s.session == [persisted[0]]
            && ProtectedPart(s.session, s.persisted) == []
            && (trimmed == [] || trimmed == [persisted[0]])
  {
    var s0 := Memory(rest + persisted, rest, persisted);
    var s1 := Step(s0, ops[0]);
    var s2 := Step(s1, ops[1]);
    TwoTurns(rest, persisted);
    OneTurnKept(persisted);
    assert ops[1..][0] == ops[1] && ops[1..][1..] == ops[2..];
    assert s1.session == persisted && s2.session == [persisted[0]];
    SmallSessionStays(s2, ops[2..]);
    var s := Steps(s0, ops);
    assert s.session == [persisted[0]] && s.persisted == persisted;
    UserIsNoTail(persisted);
    hide Steps, CompactionsOnly, Step;
    var stable := StablePart(s.session, s.persisted);
    TrimResultIsSuffix(stable, FitsBuilt(p.budget, Rebuilder(p, summary, [], graceful)), trimmed, fit);
    assert |stable| == 1;
    SuffixIsShorter(trimmed, stable);
    SuffixIsDrop(trimmed, stable);
  }

  lemma UserIsNoTail(persisted: seq<Msg>)
    requires |persisted| > 1 && IsUser(persisted[0]) && !IsUser(persisted[|persisted| - 1])
    ensures ProtectedPart([persisted[0]], persisted) == []
    ensures StablePart([persisted[0]], persisted) == [persisted[0]]
  {
    assert !Equivalent([persisted[0]][0], persisted[0 - 1 + |persisted|]);
    assert !TailMatches([persisted[0]], persisted, 1);
  }

  // A session of at most two messages is not compressed any further.
  lemma {:induction false} SmallSessionStays(s: Memory, ops: seq<Op>)
    requires |s.session| <= 2 && CompactionsOnly(s, ops)
    ensures Steps(s, ops).session == s.session && Steps(s, ops).persisted == s.persisted
    decreases |ops|
  {
    if ops != [] {
      SmallSessionStays(Step(s, ops[0]), ops[1..]);
    }
  }

  lemma OneTurnShape(h: seq<Msg>)
    requires IsOneTurn(h)
    ensures h != [] && IsUser(h[0])
    ensures forall i | 0 < i < |h| :: !IsUser(h[i])
  {
    TurnsAreUsers(h, 0);
    assert Turns(h)[0] in Turns(h);
    assert forall i | 0 <= i < |h| && IsUser(h[i]) :: i in Turns(h);
  }

  lemma TwoTurns(rest: seq<Msg>, persisted: seq<Msg>)
    requires IsOneTurn(rest) && IsOneTurn(persisted) && |persisted| > 1
    ensures Compacted(rest + persisted) == persisted
  {
    OneTurnShape(rest);
    OneTurnShape(persisted);
    hide IsOneTurn, Turns, TurnsFrom;
    var h := rest + persisted;
    assert forall i | 0 <= i < |h| :: IsUser(h[i]) <==> i == 0 || i == |rest|;
    TurnsUnfold(h, 0);
    TurnsUnfold(h, 1);
    TurnsUnfold(h, |rest| + 1);
    assert h[|rest|] == persisted[0];
    assert NextUser(h, 0) == 0 && NextUser(h, 1) == |rest| && NextUser(h, |rest| + 1) == |h|;
    assert TurnsFrom(h, 0) == [0] + ([|rest|] + []);
    CutAtSecondTurn(h, |rest|);
    assert h[|rest|..] == persisted;
  }

  lemma CutAtSecondTurn(h: seq<Msg>, k: nat)
    requires |h| > 2 && TurnsFrom(h, 0) == [0, k] && k <= |h|
    ensures Compacted(h) == h[k..]
  {
    assert Turns(h)[1] == k;
  }
}
