/**
 The queue of steering messages: user messages that reach a running turn, one list per scope. `accepted` and
 `removed` are the history of the queue, oldest first.
 */
module Steering {
  import opened Messages
  import opened Strings

  const MAX_QUEUE_SIZE := 10
  const MANUAL_SCOPE := "__manual__"

  datatype Mode = OneAtATime | DrainAll

  datatype Entry = Entry(scope: string, m: Msg)

  datatype Queue = Queue(
    queues: map<string, seq<Msg>>,
    mode: Mode,
    accepted: seq<Entry>,
    removed: seq<Entry>)

  function Normalize(scope: string): string {
    if TrimSpace(scope) == "" then MANUAL_SCOPE else TrimSpace(scope)
  }

  function Queued(q: Queue, s: string): seq<Msg> {
    if s in q.queues then q.queues[s] else []
  }

  function Tagged(s: string, msgs: seq<Msg>): seq<Entry> {
    if msgs == [] then [] else [Entry(s, msgs[0])] + Tagged(s, msgs[1..])
  }

  // The messages of one scope, in order.
  function Of(log: seq<Entry>, s: string): seq<Msg> {
    if log == [] then []
    else if log[0].scope == s then [log[0].m] + Of(log[1..], s)
    else Of(log[1..], s)
  }

  // ----- the operations, on values

  function Push(q: Queue, scope: string, m: Msg): (Queue, bool) {
    var s := Normalize(scope);
    if |Queued(q, s)| >= MAX_QUEUE_SIZE then (q, false)
    else (q.(queues := q.queues[s := Queued(q, s) + [m]], accepted := q.accepted + [Entry(s, m)]), true)
  }

  // The first n messages of a scope leave; a list that runs empty is forgotten.
  function Remove(q: Queue, s: string, n: nat): Queue
    requires n <= |Queued(q, s)|
  {
    q.(queues := if n == |Queued(q, s)| then q.queues - {s} else q.queues[s := Queued(q, s)[n..]],
       removed := q.removed + Tagged(s, Queued(q, s)[..n]))
  }

  function BatchSize(q: Queue, s: string): (n: nat)
    ensures n <= |Queued(q, s)|
  {
    match q.mode
    case DrainAll => |Queued(q, s)|
    case OneAtATime => if Queued(q, s) == [] then 0 else 1
  }

  function Dequeue(q: Queue, s: string): (Queue, seq<Msg>) {
    if Queued(q, s) == [] then (q, []) else (Remove(q, s, BatchSize(q, s)), Queued(q, s)[..BatchSize(q, s)])
  }

  // A poll comes back empty exactly when nothing waits, and then changes nothing.
  lemma DequeuesNothingIff(q: Queue, s: string)
    ensures Dequeue(q, s).1 == [] <==> Queued(q, s) == []
    ensures Queued(q, s) == [] ==> Dequeue(q, s).0 == q
  {
    if Queued(q, s) != [] {
      assert |Dequeue(q, s).1| == BatchSize(q, s) > 0;
    }
  }

  // What a poll takes: one message, the oldest, or all that wait, by the mode. Other scopes keep theirs.
  lemma PollTakes(q: Queue, s: string)
    requires Queued(q, s) != []
    ensures q.mode.OneAtATime? ==>
              Dequeue(q, s).1 == [Queued(q, s)[0]] && Queued(Dequeue(q, s).0, s) == Queued(q, s)[1..]
    ensures q.mode.DrainAll? ==> Dequeue(q, s).1 == Queued(q, s) && Queued(Dequeue(q, s).0, s) == []
    ensures forall other | other != s :: Queued(Dequeue(q, s).0, other) == Queued(q, other)
  {
  }

  // A push is accepted while fewer than ten messages wait in the scope, and then waits behind them.
  lemma PushIsAcceptedIff(q: Queue, scope: string, m: Msg)
    ensures var s, (q', ok) := Normalize(scope), Push(q, scope, m);
            && (ok <==> |Queued(q, s)| < 10)
            && Queued(q', s) == Queued(q, s) + (if ok then [m] else [])
            && forall other | other != s :: Queued(q', other) == Queued(q, other)
  {
  }

  // A poll with a fallback looks at the manual scope only when nothing waits in its own.
  lemma FallbackTakes(q: Queue, scope: string)
    ensures var s := TrimSpace(scope);
            && (s != "" && Queued(q, s) != [] ==> DequeueWithFallback(q, scope) == Dequeue(q, s))
            && (s == "" || Queued(q, s) == [] ==> DequeueWithFallback(q, scope) == Dequeue(q, "__manual__"))
  {
    hide TrimSpace, Dequeue, Queued;
  }

  function DequeueScope(q: Queue, scope: string): (Queue, seq<Msg>) {
    Dequeue(q, Normalize(scope))
  }

  // The scope the fallback reads: the scope itself while it has messages, otherwise the manual one.
  function FallbackScope(q: Queue, scope: string): string {
    var s := TrimSpace(scope);
    if s != "" && Queued(q, s) != [] then s else MANUAL_SCOPE
  }

  function DequeueWithFallback(q: Queue, scope: string): (Queue, seq<Msg>) {
    Dequeue(q, FallbackScope(q, scope))
  }

  function Clear(q: Queue, scope: string): (Queue, nat) {
    var s := Normalize(scope);
    if Queued(q, s) == [] then (q, 0) else (Remove(q, s, |Queued(q, s)|), |Queued(q, s)|)
  }

  // Clearing a scope empties it, says how many waited, and leaves the other scopes alone.
  lemma ClearEmpties(q: Queue, scope: string)
    ensures var s, (q', n) := Normalize(scope), Clear(q, scope);
            && Queued(q', s) == [] && n == |Queued(q, s)|
            && forall other | other != s :: Queued(q', other) == Queued(q, other)
  {
  }

  // ----- the queue as the source keeps it

  class SteeringQueue {
    var queues: map<string, seq<Msg>>
    var mode: Mode
    ghost var accepted: seq<Entry>
    ghost var removed: seq<Entry>

    ghost function View(): Queue
      reads this
    {
      Queue(queues, mode, accepted, removed)
    }

    constructor (mode: Mode)
      ensures View() == Queue(map[], mode, [], [])
    {
      queues := map[];
      this.mode := mode;
      accepted, removed := [], [];
    }

    method Get(s: string) returns (queue: seq<Msg>)
      ensures queue == Queued(View(), s)
    {
      queue := if s in queues then queues[s] else [];
    }

    method PushScope(scope: string, m: Msg) returns (ok: bool)
      modifies this
      ensures (View(), ok) == Push(old(View()), scope, m)
    {
      var s := Normalize(scope);
      var queue := Get(s);
      if |queue| >= MAX_QUEUE_SIZE {
        return false;
      }
      queues := queues[s := queue + [m]];
      accepted := accepted + [Entry(s, m)];
      ok := true;
    }

    method DequeueLocked(s: string) returns (msgs: seq<Msg>)
      modifies this
      ensures (View(), msgs) == Dequeue(old(View()), s)
    {
      var queue := Get(s);
      if |queue| == 0 {
        return [];
      }
      match mode {
        case DrainAll =>
          msgs := queue;
          assert queue[..|queue|] == queue;
          queues := queues - {s};
          removed := removed + Tagged(s, queue[..|queue|]);
        case OneAtATime =>
          msgs := [queue[0]];
          assert queue[..1] == msgs;
          removed := removed + Tagged(s, queue[..1]);
          queue := queue[1..];
          if |queue| == 0 {
            queues := queues - {s};
          } else {
            queues := queues[s := queue];
          }
      }
    }

    method DequeueScoped(scope: string) returns (msgs: seq<Msg>)
      modifies this
      ensures (View(), msgs) == DequeueScope(old(View()), scope)
    {
      msgs := DequeueLocked(Normalize(scope));
    }

    method DequeueScopeWithFallback(scope: string) returns (msgs: seq<Msg>)
      modifies this
      ensures (View(), msgs) == DequeueWithFallback(old(View()), scope)
    {
      hide Dequeue, Queued, TrimSpace;
      var s := TrimSpace(scope);
      DequeuesNothingIff(View(), s);
      if s != "" {
        msgs := DequeueLocked(s);
        if |msgs| > 0 {
          return;
        }
      }
      msgs := DequeueLocked(MANUAL_SCOPE);
    }

    method LenScope(scope: string) returns (n: nat)
      ensures n == |Queued(View(), Normalize(scope))|
    {
      var queue := Get(Normalize(scope));
      n := |queue|;
    }

    method ClearScope(scope: string) returns (n: nat)
      modifies this
      ensures (View(), n) == Clear(old(View()), scope)
    {
      var s := Normalize(scope);
      var queue := Get(s);
      n := |queue|;
      if n > 0 {
        queues := queues - {s};
        removed := removed + Tagged(s, queue[..n]);
      }
    }

    method SetMode(mode: Mode)
      modifies this
      ensures View() == old(View()).(mode := mode)
    {
      this.mode := mode;
    }
  }

  // ----- first in, first out, over every run

  datatype Op =
    | PushOp(scope: string, m: Msg)
    | DequeueOp(scope: string)
    | FallbackOp(scope: string)
    | ClearOp(scope: string)
    | ModeOp(mode: Mode)

  function Apply(q: Queue, op: Op): Queue {
    match op
    case PushOp(scope, m) => Push(q, scope, m).0
    case DequeueOp(scope) => DequeueScope(q, scope).0
    case FallbackOp(scope) => DequeueWithFallback(q, scope).0
    case ClearOp(scope) => Clear(q, scope).0
    case ModeOp(mode) => q.(mode := mode)
  }

  function ApplyAll(q: Queue, ops: seq<Op>): Queue
    decreases |ops|
  {
    if ops == [] then q else ApplyAll(Apply(q, ops[0]), ops[1..])
  }

  // Per scope, what was accepted is what was removed followed by what still waits, in order; and the lists stay
  // within their bound.
  ghost predicate Fifo(q: Queue) {
    forall s :: FifoAt(q, s)
  }

  predicate FifoAt(q: Queue, s: string) {
    && Of(q.accepted, s) == Of(q.removed, s) + Queued(q, s)
    && |Queued(q, s)| <= MAX_QUEUE_SIZE
  }

  lemma {:induction false} OfAppend(a: seq<Entry>, b: seq<Entry>, s: string)
    ensures Of(a + b, s) == Of(a, s) + Of(b, s)
  {
    if a == [] {
      assert a + b == b;
    } else {
      assert (a + b)[1..] == a[1..] + b;
      OfAppend(a[1..], b, s);
      Assoc([a[0].m], Of(a[1..], s), Of(b, s));
    }
  }

  lemma {:induction false} OfTagged(x: string, msgs: seq<Msg>, s: string)
    ensures Of(Tagged(x, msgs), s) == if x == s then msgs else []
  {
    if msgs != [] {
      OfTagged(x, msgs[1..], s);
      assert Tagged(x, msgs)[1..] == Tagged(x, msgs[1..]);
    }
  }

  lemma PushKeepsFifo(q: Queue, scope: string, m: Msg, s: string)
    requires FifoAt(q, s)
    ensures FifoAt(Push(q, scope, m).0, s)
    ensures var (q', ok) := Push(q, scope, m);
            ok ==> Of(q'.accepted, Normalize(scope)) == Of(q.accepted, Normalize(scope)) + [m]
  {
    var x := Normalize(scope);
    hide Normalize;
    OfAppend(q.accepted, [Entry(x, m)], s);
    OfAppend(q.accepted, [Entry(x, m)], x);
    assert Of([Entry(x, m)], s) == if x == s then [m] else [];
    assert Of([Entry(x, m)], x) == [m];
    Assoc(Of(q.removed, s), Queued(q, s), [m]);
  }

  lemma QueuedAfterRemove(q: Queue, x: string, n: nat, s: string)
    requires n <= |Queued(q, x)|
    ensures Queued(Remove(q, x, n), s) == if x == s then Queued(q, x)[n..] else Queued(q, s)
    ensures Remove(q, x, n).removed == q.removed + Tagged(x, Queued(q, x)[..n])
    ensures Remove(q, x, n).accepted == q.accepted
  {
  }

  lemma RemoveKeepsFifo(q: Queue, x: string, n: nat, s: string)
    requires FifoAt(q, s) && n <= |Queued(q, x)|
    ensures FifoAt(Remove(q, x, n), s)
    ensures Remove(q, x, n).accepted == q.accepted
    ensures Of(Remove(q, x, n).removed, s) == Of(q.removed, s) + (if x == s then Queued(q, x)[..n] else [])
  {
    hide Queued, Remove;
    var gone := Queued(q, x)[..n];
    QueuedAfterRemove(q, x, n, s);
    OfAppend(q.removed, Tagged(x, gone), s);
    OfTagged(x, gone, s);
    if x == s {
      assert Queued(q, s) == gone + Queued(q, s)[n..];
      Assoc(Of(q.removed, s), gone, Queued(q, s)[n..]);
    } else {
      assert Of(q.removed, s) + [] == Of(q.removed, s);
    }
  }

  // Whoever dequeues gets the oldest messages of the scope, and they are removed exactly once.
  lemma DequeueKeepsFifo(q: Queue, x: string, s: string)
    requires FifoAt(q, s)
    ensures var (q', msgs) := Dequeue(q, x);
            && FifoAt(q', s)
            && q'.accepted == q.accepted
            && Of(q'.removed, s) == Of(q.removed, s) + (if x == s then msgs else [])
            && (msgs == [] <==> Queued(q, x) == [])
  {
    if Queued(q, x) != [] {
      RemoveKeepsFifo(q, x, BatchSize(q, x), s);
    }
  }

  lemma ApplyKeepsFifo(q: Queue, op: Op, s: string)
    requires FifoAt(q, s)
    ensures FifoAt(Apply(q, op), s)
  {
    hide FifoAt, Dequeue, Remove, Normalize, Push;
    match op
    case PushOp(scope, m) => PushKeepsFifo(q, scope, m, s);
    case DequeueOp(scope) => DequeueKeepsFifo(q, Normalize(scope), s);
    case FallbackOp(scope) => DequeueKeepsFifo(q, FallbackScope(q, scope), s);
    case ClearOp(scope) => RemoveKeepsFifo(q, Normalize(scope), |Queued(q, Normalize(scope))|, s);
    case ModeOp(mode) => ModeKeepsFifo(q, mode, s);
  }

  lemma ModeKeepsFifo(q: Queue, mode: Mode, s: string)
    requires FifoAt(q, s)
    ensures FifoAt(q.(mode := mode), s)
  {
  }

  // Over any run of pushes, polls of either kind, clearings and mode changes nothing is lost, doubled or
  // reordered within a scope.
  lemma {:induction false} RunKeepsFifo(q: Queue, ops: seq<Op>)
    requires Fifo(q)
    ensures Fifo(ApplyAll(q, ops))
    decreases |ops|
  {
    if ops != [] {
      forall s
        ensures FifoAt(Apply(q, ops[0]), s)
      {
        ApplyKeepsFifo(q, ops[0], s);
      }
      RunKeepsFifo(Apply(q, ops[0]), ops[1..]);
    }
  }

  // Operations of others that do not take from scope s.
  predicate Foreign(op: Op, s: string) {
    match op
    case DequeueOp(scope) => Normalize(scope) != s
    case ClearOp(scope) => Normalize(scope) != s
    case FallbackOp(scope) => TrimSpace(scope) != s && s != MANUAL_SCOPE
    case _ => true
  }

  lemma {:induction false} ForeignRun(q: Queue, ops: seq<Op>, s: string)
    requires FifoAt(q, s)
    requires forall k | 0 <= k < |ops| :: Foreign(ops[k], s)
    ensures FifoAt(ApplyAll(q, ops), s)
    ensures Of(ApplyAll(q, ops).removed, s) == Of(q.removed, s)
    decreases |ops|
  {
    if ops != [] {
      var op := ops[0];
      assert Foreign(op, s);
      ForeignStep(q, op, s);
      forall k | 0 <= k < |ops[1..]|
        ensures Foreign(ops[1..][k], s)
      {
        assert Foreign(ops[k + 1], s);
      }
      ForeignRun(Apply(q, op), ops[1..], s);
    }
  }

  lemma ForeignStep(q: Queue, op: Op, s: string)
    requires FifoAt(q, s) && Foreign(op, s)
    ensures FifoAt(Apply(q, op), s)
    ensures Of(Apply(q, op).removed, s) == Of(q.removed, s)
  {
    ApplyKeepsFifo(q, op, s);
    hide FifoAt, Dequeue, Remove, Normalize;
    match op
    case DequeueOp(scope) => DequeueKeepsFifo(q, Normalize(scope), s);
    case FallbackOp(scope) => DequeueKeepsFifo(q, FallbackScope(q, scope), s);
    case ClearOp(scope) => RemoveKeepsFifo(q, Normalize(scope), |Queued(q, Normalize(scope))|, s);
    case _ =>
  }
}
