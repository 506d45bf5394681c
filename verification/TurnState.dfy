/**
 What a turn remembers in order to undo itself: the restore point and the messages it persisted, over a
 session store that compaction may shorten while the turn runs.
 */
module TurnState {
  import opened Messages

  // ----- matching the tail of the session with the messages of the turn

  function NormalizedCalls(calls: seq<ToolCall>): seq<ToolCall> {
    seq(|calls|, i requires 0 <= i < |calls| => calls[i].(name := "", args := ""))
  }

  function Normalized(m: Msg): Msg {
    m.(prompt := "", calls := NormalizedCalls(m.calls))
  }

  predicate Equivalent(a: Msg, b: Msg) {
    Normalized(a) == Normalized(b)
  }

  // Two messages are the same to the session when they agree in role, content, answered call and media, and call by
  // call in id and wire form; prompt tags and the local form of the calls do not matter.
  lemma EquivalentIff(a: Msg, b: Msg)
    ensures Equivalent(a, b) <==>
              && a.role == b.role && a.content == b.content && a.toolCallId == b.toolCallId && a.media == b.media
              && |a.calls| == |b.calls|
              && forall k | 0 <= k < |a.calls| :: a.calls[k].id == b.calls[k].id && a.calls[k].wire == b.calls[k].wire
  {
    var x, y := NormalizedCalls(a.calls), NormalizedCalls(b.calls);
    assert |x| == |a.calls| && |y| == |b.calls|;
    if Equivalent(a, b) {
      assert Normalized(a).calls == x && Normalized(b).calls == y;
      forall k | 0 <= k < |a.calls|
        ensures a.calls[k].id == b.calls[k].id && a.calls[k].wire == b.calls[k].wire
      {
        assert x[k] == y[k] && x[k].id == a.calls[k].id && y[k].id == b.calls[k].id;
      }
      assert Normalized(a).role == a.role && Normalized(b).role == b.role;
    } else if |a.calls| == |b.calls| && forall k | 0 <= k < |a.calls| ::
                a.calls[k].id == b.calls[k].id && a.calls[k].wire == b.calls[k].wire {
      assert forall k | 0 <= k < |x| :: x[k] == y[k];
    }
  }

  predicate SlicesEquivalent(a: seq<Msg>, b: seq<Msg>) {
    |a| == |b| && forall i | 0 <= i < |a| :: Equivalent(a[i], b[i])
  }

  predicate TailMatches(history: seq<Msg>, persisted: seq<Msg>, n: nat) {
    && n <= |history|
    && n <= |persisted|
    && forall i | |history| - n <= i < |history| :: Equivalent(history[i], persisted[i - |history| + |persisted|])
  }

  function TailUpTo(history: seq<Msg>, persisted: seq<Msg>, size: nat): (n: nat)
    ensures n <= size
    ensures n > 0 ==> TailMatches(history, persisted, n)
    ensures forall m | n < m <= size :: !TailMatches(history, persisted, m)
  {
    if size == 0 || TailMatches(history, persisted, size) then size else TailUpTo(history, persisted, size - 1)
  }

  // The longest tail of the history that the turn itself persisted.
  function MatchedTail(history: seq<Msg>, persisted: seq<Msg>): (n: nat)
    ensures TailMatches(history, persisted, n)
    ensures forall m | n < m :: !TailMatches(history, persisted, m)
  {
    TailUpTo(history, persisted, if |history| <= |persisted| then |history| else |persisted|)
  }

  method MessageSlicesEquivalent(a: seq<Msg>, b: seq<Msg>) returns (same: bool)
    ensures same == SlicesEquivalent(a, b)
  {
    if |a| != |b| {
      return false;
    }
    for i := 0 to |a|
      invariant forall j | 0 <= j < i :: Equivalent(a[j], b[j])
    {
      if !Equivalent(a[i], b[i]) {
        return false;
      }
    }
    return true;
  }

  lemma SlicesMatch(history: seq<Msg>, persisted: seq<Msg>, n: nat)
    requires n <= |history| && n <= |persisted|
    ensures SlicesEquivalent(history[|history| - n..], persisted[|persisted| - n..]) <==>
              TailMatches(history, persisted, n)
  {
    var a, b := history[|history| - n..], persisted[|persisted| - n..];
    if SlicesEquivalent(a, b) {
      forall i | |history| - n <= i < |history|
        ensures Equivalent(history[i], persisted[i - |history| + |persisted|])
      {
        assert Equivalent(a[i - |history| + n], b[i - |history| + n]);
      }
    }
    if TailMatches(history, persisted, n) {
      forall i | 0 <= i < n
        ensures Equivalent(a[i], b[i])
      {
        assert a[i] == history[i + |history| - n];
      }
    }
  }

  method MatchingTurnMessageTail(history: seq<Msg>, persisted: seq<Msg>) returns (n: nat)
    ensures n == MatchedTail(history, persisted)
  {
    n := if |history| <= |persisted| then |history| else |persisted|;
    while n > 0
      invariant n <= |history| && n <= |persisted|
      invariant MatchedTail(history, persisted) <= n
    {
      var same := MessageSlicesEquivalent(history[|history| - n..], persisted[|persisted| - n..]);
      SlicesMatch(history, persisted, n);
      if same {
        return;
      }
      n := n - 1;
    }
  }

  method SplitHistoryForActiveTurn(history: seq<Msg>, persisted: seq<Msg>)
    returns (stable: seq<Msg>, protected: seq<Msg>)
    ensures stable + protected == history
    ensures |protected| == MatchedTail(history, persisted)
  {
    var matched := MatchingTurnMessageTail(history, persisted);
    if matched <= 0 {
      return history, [];
    }
    stable := history[..|history| - matched];
    protected := history[|history| - matched..];
  }

  // ----- the session and the turn as the source keeps them

  class Session {
    var history: seq<Msg>
    var summary: string

    constructor (history: seq<Msg>, summary: string)
      ensures this.history == history && this.summary == summary
    {
      this.history := history;
      this.summary := summary;
    }

    method AddFullMessage(m: Msg)
      modifies this`history
      ensures history == old(history) + [m]
    {
      history := history + [m];
    }

    method SetHistory(h: seq<Msg>)
      modifies this`history
      ensures history == h
    {
      history := h;
    }

    method SetSummary(s: string)
      modifies this`summary
      ensures summary == s
    {
      summary := s;
    }
  }

  // What the properties of a turn are about: the stored history, the restore point, the persisted messages.
  datatype Memory = Memory(session: seq<Msg>, restore: seq<Msg>, persisted: seq<Msg>)

  datatype Op =
    | Persist(m: Msg)              // stored and recorded
    | Compact(kept: seq<Msg>)      // the history is replaced, then the restore point refreshed

  function RestoreFrom(history: seq<Msg>, persisted: seq<Msg>): seq<Msg> {
    history[..|history| - MatchedTail(history, persisted)]
  }

  function Step(s: Memory, op: Op): Memory {
    match op
    case Persist(m) => Memory(s.session + [m], s.restore, s.persisted + [m])
    case Compact(kept) => Memory(kept, RestoreFrom(kept, s.persisted), s.persisted)
  }

  function Steps(s: Memory, ops: seq<Op>): Memory
    decreases |ops|
  {
    if ops == [] then s else Steps(Step(s, ops[0]), ops[1..])
  }

  class Turn {
    const session: Session
    var restoreHistory: seq<Msg>
    var restoreSummary: string
    var persisted: seq<Msg>

    ghost function State(): Memory
      reads this, session
    {
      Memory(session.history, restoreHistory, persisted)
    }

    constructor (session: Session)
      ensures this.session == session
      ensures State() == Memory(session.history, session.history, [])
      ensures restoreSummary == session.summary
    {
      this.session := session;
      restoreHistory := session.history;
      restoreSummary := session.summary;
      persisted := [];
    }

    method CaptureRestorePoint(history: seq<Msg>, summary: string)
      modifies this`restoreHistory, this`restoreSummary
      ensures restoreHistory == history && restoreSummary == summary
    {
      restoreHistory := history;
      restoreSummary := summary;
    }

    method RecordPersistedMessage(m: Msg)
      modifies this`persisted
      ensures persisted == old(persisted) + [m]
    {
      persisted := persisted + [m];
    }

    // The pair of calls that stores a message of the turn.
    method StoreMessage(m: Msg)
      modifies this`persisted, session`history
      ensures State() == Step(old(State()), Persist(m))
    {
      session.AddFullMessage(m);
      RecordPersistedMessage(m);
    }

    method RefreshRestorePointFromSession()
      modifies this`restoreHistory, this`restoreSummary
      ensures restoreHistory == RestoreFrom(session.history, persisted)
      ensures restoreSummary == session.summary
    {
      var history := session.history;
      var matched := MatchingTurnMessageTail(history, persisted);
      if matched > 0 {
        history := history[..|history| - matched];
      }
      CaptureRestorePoint(history, session.summary);
    }

    // What abortTurn does to the session.
    method RestoreSession()
      modifies session
      ensures session.history == restoreHistory && session.summary == restoreSummary
    {
      session.SetHistory(restoreHistory);
      session.SetSummary(restoreSummary);
    }
  }

  // ----- an aborted turn leaves no trace

  // The session is the restore point plus the messages of the turn from position k on; only when nothing of the
  // older history is left can compaction have taken messages of the turn.
  ghost predicate SplitAt(s: Memory, k: nat) {
    && k <= |s.persisted|
    && s.session == s.restore + s.persisted[k..]
    && (k > 0 ==> s.restore == [])
  }

  ghost predicate Undoable(s: Memory, before: seq<Msg>) {
    (exists k: nat :: SplitAt(s, k)) && IsSuffix(s.restore, before)
  }

  // Persisted messages and suffix-keeping compactions.
  ghost predicate CleanOp(s: Memory, op: Op) {
    match op
    case Persist(_) => true
    case Compact(kept) => IsSuffix(kept, s.session)
  }

  ghost predicate CleanRun(s: Memory, ops: seq<Op>)
    decreases |ops|
  {
    ops == [] || (CleanOp(s, ops[0]) && CleanRun(Step(s, ops[0]), ops[1..]))
  }

  // A tail that the turn persisted is matched in full, and never more than it.
  lemma MatchIsExact(rest: seq<Msg>, persisted: seq<Msg>, k: nat)
    requires k <= |persisted| && (k > 0 ==> rest == [])
    ensures MatchedTail(rest + persisted[k..], persisted) == |persisted| - k
  {
    var history := rest + persisted[k..];
    var n := |persisted| - k;
    assert history[|history| - n..] == persisted[k..];
    assert TailMatches(history, persisted, n);
  }

  // Refreshing the restore point after a suffix-keeping compaction splits the session where the turn began.
  lemma RefreshIsExact(s: Memory, k: nat, cut: nat)
    requires SplitAt(s, k) && cut <= |s.session|
    ensures var s' := Step(s, Compact(s.session[cut..]));
            && SplitAt(s', if cut <= |s.restore| then k else k + cut - |s.restore|)
            && IsSuffix(s'.restore, s.restore)
  {
    hide MatchedTail;
    var kept := s.session[cut..];
    var rest, k' := [], k + cut - |s.restore|;
    if cut <= |s.restore| {
      rest, k' := s.restore[cut..], k;
      assert kept == rest + s.persisted[k..];
    } else {
      assert kept == rest + s.persisted[k'..];
      assert s.restore[|s.restore|..] == [];
    }
    MatchIsExact(rest, s.persisted, k');
    assert RestoreFrom(kept, s.persisted) == rest;
  }

  lemma CleanStepUndoable(s: Memory, op: Op, before: seq<Msg>)
    requires Undoable(s, before) && CleanOp(s, op)
    ensures Undoable(Step(s, op), before)
  {
    var k: nat :| SplitAt(s, k);
    match op
    case Persist(m) =>
      assert (s.persisted + [m])[k..] == s.persisted[k..] + [m];
      assert SplitAt(Step(s, op), k);
    case Compact(kept) =>
      var cut := |s.session| - |kept|;
      SuffixIsDrop(kept, s.session);
      RefreshIsExact(s, k, cut);
      SuffixTransitive(Step(s, op).restore, s.restore, before);
  }

  // Over any interleaving of persisted messages and suffix-keeping compactions, the session is the restore
  // point plus a suffix of the messages of the turn, and the restore point is a suffix of the older history:
  // an abort leaves only messages that were there before the turn.
  lemma {:induction false} AbortLeavesNoTrace(s: Memory, ops: seq<Op>, before: seq<Msg>)
    requires Undoable(s, before) && CleanRun(s, ops)
    ensures Undoable(Steps(s, ops), before)
    decreases |ops|
  {
    if ops != [] {
      CleanStepUndoable(s, ops[0], before);
      AbortLeavesNoTrace(Step(s, ops[0]), ops[1..], before);
    }
  }

  // Messages that are stored and recorded leave the split where it is, so that a refresh finds it.
  lemma PersistsKeepSplit(s: Memory, ms: seq<Msg>, k: nat)
    requires SplitAt(s, k)
    ensures var s' := Memory(s.session + ms, s.restore, s.persisted + ms);
            SplitAt(s', k) && RestoreFrom(s'.session, s'.persisted) == s.restore
  {
    hide MatchedTail;
    var persisted := s.persisted + ms;
    assert persisted[k..] == s.persisted[k..] + ms;
    Assoc(s.restore, s.persisted[k..], ms);
    MatchIsExact(s.restore, persisted, k);
  }

  lemma TurnStartsUndoable(before: seq<Msg>)
    ensures Undoable(Memory(before, before, []), before)
  {
    assert SplitAt(Memory(before, before, []), 0);
    assert before == before[0..];
  }

  // ----- what it rests on

  datatype Stored = Stored(m: Msg, recorded: bool)

  function MessagesOf(xs: seq<Stored>): seq<Msg> {
    seq(|xs|, k requires 0 <= k < |xs| => xs[k].m)
  }

  function RecordedOf(xs: seq<Stored>): seq<Msg> {
    if xs == [] then []
    else if xs[0].recorded then [xs[0].m] + RecordedOf(xs[1..])
    else RecordedOf(xs[1..])
  }

  lemma {:induction false} RecordedLength(xs: seq<Stored>)
    ensures |RecordedOf(xs)| <= |xs|
    ensures |RecordedOf(xs)| == |xs| <==> forall x | x in xs :: x.recorded
    ensures (forall x | x in xs :: x.recorded) ==> RecordedOf(xs) == MessagesOf(xs)
  {
    if xs != [] {
      RecordedLength(xs[1..]);
      assert MessagesOf(xs) == [xs[0].m] + MessagesOf(xs[1..]);
    }
  }

  // Whatever a turn stored, a refresh finds the place where the turn began if and only if every stored message
  // was recorded; one that was not would make the restore point too long.
  lemma RefreshExactIffAllRecorded(rest: seq<Msg>, xs: seq<Stored>)
    ensures RestoreFrom(rest + MessagesOf(xs), RecordedOf(xs)) == rest <==> forall x | x in xs :: x.recorded
  {
    var history := rest + MessagesOf(xs);
    RecordedLength(xs);
    if forall x | x in xs :: x.recorded {
      assert RecordedOf(xs)[0..] == RecordedOf(xs);
      MatchIsExact(rest, RecordedOf(xs), 0);
      assert history[..|rest|] == rest;
    } else {
      assert |RestoreFrom(history, RecordedOf(xs))| > |rest|;
    }
  }
}
