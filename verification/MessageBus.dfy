/**
 The message bus and its shutdown, as a state machine over every interleaving of publishers, consumers and one
 Close. A publisher enters under the mutex, waits in a select, and leaves; Close raises the flag under the mutex,
 waits for the publishers, closes the three streams and drains them.
 */
module MessageBus {

  // The streams are inbound (0), outbound (1) and outbound media (2); each is a buffered channel.
  const STREAMS: nat := 3
  const BUFFER_SIZE: nat := 64

  datatype Taker = Consumer | Drain

  // `accepted` and `taken` are the history of the channel: what was sent, and what was taken out by whom.
  datatype Channel<T> = Channel(buffer: seq<T>, closed: bool, accepted: seq<T>, taken: seq<(T, Taker)>)

  datatype Publisher<T> =
    | Outside
    | Selecting(stream: nat, msg: T)   // entered: counted by the wait-group, blocked in the select
    | Leaving                          // out of the select, the deferred Done still to run

  datatype Closer =
    | Open
    | FlagRaised         // closed is set, the mutex still held
    | Waiting            // done is closed, the mutex released: waiting for the publishers
    | Closing(next: nat)
    | Draining(next: nat)
    | Completed

  datatype State<T> = State(
    channels: seq<Channel<T>>,
    publishers: seq<Publisher<T>>,
    closer: Closer,
    waitGroup: int,
    panicked: bool)

  datatype Event<T> =
    | Enter(p: nat, stream: nat, msg: T)
    | Send(p: nat)
    | GiveUp(p: nat)        // the context was canceled, or the backpressure budget ran out
    | SeeDone(p: nat)
    | Leave(p: nat)
    | Receive(stream: nat)
    | RaiseFlag
    | CloseDone
    | WaitOver
    | CloseNext
    | DrainOne
    | DrainNext

  predicate ClosedFlag(c: Closer) {
    !c.Open?
  }

  predicate DoneClosed(c: Closer) {
    !c.Open? && !c.FlagRaised?
  }

  predicate IsSelecting<T>(s: State<T>, p: nat) {
    p < |s.publishers| && s.publishers[p].Selecting? && s.publishers[p].stream < |s.channels|
  }

  predicate Enabled<T>(s: State<T>, e: Event<T>) {
    match e
    case Enter(p, stream, _) =>
      && p < |s.publishers| && s.publishers[p].Outside? && stream < |s.channels|
      && !s.closer.FlagRaised?           // the mutex is free
      && !ClosedFlag(s.closer)
    case Send(p) =>
      && IsSelecting(s, p)
      && var ch := s.channels[s.publishers[p].stream];
      ch.closed || |ch.buffer| < BUFFER_SIZE
    case GiveUp(p) => IsSelecting(s, p)
    case SeeDone(p) => IsSelecting(s, p) && DoneClosed(s.closer)
    case Leave(p) => p < |s.publishers| && s.publishers[p].Leaving?
    case Receive(stream) => stream < |s.channels| && s.channels[stream].buffer != []
    case RaiseFlag => s.closer.Open?
    case CloseDone => s.closer.FlagRaised?
    case WaitOver => s.closer.Waiting? && s.waitGroup == 0
    case CloseNext => s.closer.Closing?
    case DrainOne =>
      s.closer.Draining? && s.closer.next < |s.channels| && s.channels[s.closer.next].buffer != []
    case DrainNext =>
      s.closer.Draining? && (s.closer.next < |s.channels| ==> s.channels[s.closer.next].buffer == [])
  }

  function Take<T>(ch: Channel<T>, who: Taker): Channel<T>
    requires ch.buffer != []
  {
    ch.(buffer := ch.buffer[1..], taken := ch.taken + [(ch.buffer[0], who)])
  }

  function Put<T>(ch: Channel<T>, m: T): Channel<T> {
    ch.(buffer := ch.buffer + [m], accepted := ch.accepted + [m])
  }

  function Apply<T>(s: State<T>, e: Event<T>): State<T>
    requires Enabled(s, e)
  {
    match e
    case Enter(p, stream, m) =>
      s.(publishers := s.publishers[p := Selecting(stream, m)], waitGroup := s.waitGroup + 1)
    case Send(p) =>
      var stream, m := s.publishers[p].stream, s.publishers[p].msg;
      if s.channels[stream].closed then s.(panicked := true)
      else
        s.(channels := s.channels[stream := Put(s.channels[stream], m)], publishers := s.publishers[p := Leaving])
    case GiveUp(p) => s.(publishers := s.publishers[p := Leaving])
    case SeeDone(p) => s.(publishers := s.publishers[p := Leaving])
    case Leave(p) => s.(publishers := s.publishers[p := Outside], waitGroup := s.waitGroup - 1)
    case Receive(stream) => s.(channels := s.channels[stream := Take(s.channels[stream], Consumer)])
    case RaiseFlag => s.(closer := FlagRaised)
    case CloseDone => s.(closer := Waiting)
    case WaitOver => s.(closer := Closing(0))
    case CloseNext =>
      var k := s.closer.next;
      if k >= |s.channels| then s.(closer := Draining(0))
      else if s.channels[k].closed then s.(panicked := true)
      else s.(channels := s.channels[k := s.channels[k].(closed := true)], closer := Closing(k + 1))
    case DrainOne =>
      var k := s.closer.next;
      s.(channels := s.channels[k := Take(s.channels[k], Drain)])
    case DrainNext =>
      if s.closer.next >= |s.channels| then s.(closer := Completed)
      else s.(closer := Draining(s.closer.next + 1))
  }

  ghost predicate IsRun<T>(s: State<T>, events: seq<Event<T>>)
    decreases |events|
  {
    events == [] || (Enabled(s, events[0]) && IsRun(Apply(s, events[0]), events[1..]))
  }

  ghost function After<T>(s: State<T>, events: seq<Event<T>>): State<T>
    requires IsRun(s, events)
    decreases |events|
  {
    if events == [] then s else After(Apply(s, events[0]), events[1..])
  }

  function NewBus<T>(publishers: nat): State<T> {
    State(seq(STREAMS, _ => Channel([], false, [], [])), seq(publishers, _ => Outside), Open, 0, false)
  }

  // ----- the invariant

  function Inside<T>(publishers: seq<Publisher<T>>): nat {
    if publishers == [] then 0
    else (if publishers[0].Outside? then 0 else 1) + Inside(publishers[1..])
  }

  function Messages<T>(taken: seq<(T, Taker)>): seq<T> {
    seq(|taken|, i requires 0 <= i < |taken| => taken[i].0)
  }

  // First in, first out, and nothing lost: what was accepted is what was received or drained, in that order,
  // followed by what is buffered.
  predicate Conserved<T(==)>(ch: Channel<T>) {
    ch.accepted == Messages(ch.taken) + ch.buffer && |ch.buffer| <= BUFFER_SIZE
  }

  // Streams are closed one after the other, and only when no publisher is inside.
  predicate ClosedInOrder<T>(s: State<T>) {
    forall k | 0 <= k < |s.channels| :: s.channels[k].closed <==>
      (s.closer.Closing? && k < s.closer.next) || s.closer.Draining? || s.closer.Completed?
  }

  ghost predicate Inv<T>(s: State<T>) {
    && !s.panicked
    && |s.channels| == STREAMS
    && s.waitGroup == Inside(s.publishers)
    && (forall p | 0 <= p < |s.publishers| :: s.publishers[p].Selecting? ==> s.publishers[p].stream < STREAMS)
    && (s.closer.Closing? || s.closer.Draining? || s.closer.Completed? ==> s.waitGroup == 0)
    && (s.closer.Closing? ==> s.closer.next <= STREAMS)
    && (s.closer.Draining? ==> s.closer.next <= STREAMS)
    && ClosedInOrder(s)
    && (forall k | 0 <= k < |s.channels| :: Conserved(s.channels[k]))
  }

  lemma {:induction false} InsideUpdate<T>(publishers: seq<Publisher<T>>, p: nat, q: Publisher<T>)
    requires p < |publishers|
    ensures Inside(publishers[p := q]) ==
              Inside(publishers) - (if publishers[p].Outside? then 0 else 1) + (if q.Outside? then 0 else 1)
  {
    if p > 0 {
      assert publishers[p := q][1..] == publishers[1..][p - 1 := q];
      InsideUpdate(publishers[1..], p - 1, q);
    } else {
      assert publishers[p := q][1..] == publishers[1..];
    }
  }

  lemma {:induction false} InsideZero<T>(publishers: seq<Publisher<T>>)
    ensures Inside(publishers) == 0 <==> forall p | 0 <= p < |publishers| :: publishers[p].Outside?
  {
    if publishers != [] {
      InsideZero(publishers[1..]);
      assert forall p | 0 < p < |publishers| :: publishers[p] == publishers[1..][p - 1];
    }
  }

  lemma TakeConserves<T>(ch: Channel<T>, who: Taker)
    requires ch.buffer != [] && Conserved(ch)
    ensures Conserved(Take(ch, who))
  {
    assert Messages(Take(ch, who).taken) == Messages(ch.taken) + [ch.buffer[0]];
  }

  lemma PutConserves<T>(ch: Channel<T>, m: T)
    requires Conserved(ch) && |ch.buffer| < BUFFER_SIZE
    ensures Conserved(Put(ch, m))
  {
  }

  lemma PublisherStepKeepsInv<T>(s: State<T>, e: Event<T>)
    requires Inv(s) && Enabled(s, e) && (e.Enter? || e.Send? || e.GiveUp? || e.SeeDone? || e.Leave?)
    ensures Inv(Apply(s, e))
  {
    InsideUpdate(s.publishers, e.p, Apply(s, e).publishers[e.p]);
    InsideZero(s.publishers);
    if e.Send? {
      PutConserves(s.channels[s.publishers[e.p].stream], s.publishers[e.p].msg);
    }
  }

  lemma StepKeepsInv<T>(s: State<T>, e: Event<T>)
    requires Inv(s) && Enabled(s, e)
    ensures Inv(Apply(s, e))
  {
    match e
    case Receive(stream) => TakeConserves(s.channels[stream], Consumer);
    case DrainOne => TakeConserves(s.channels[s.closer.next], Drain);
    case RaiseFlag =>
    case CloseDone =>
    case WaitOver =>
    case CloseNext =>
    case DrainNext =>
    case _ => PublisherStepKeepsInv(s, e);
  }

  // In every interleaving: nobody sends on a closed stream or closes one twice, the wait-group counts exactly
  // the publishers inside, and every stream hands on what it accepted, first in first out.
  lemma {:induction false} RunKeepsInv<T>(s: State<T>, events: seq<Event<T>>)
    requires Inv(s) && IsRun(s, events)
    ensures Inv(After(s, events))
    decreases |events|
  {
    if events != [] {
      StepKeepsInv(s, events[0]);
      RunKeepsInv(Apply(s, events[0]), events[1..]);
    }
  }

  lemma {:induction false} AllOutside<T>(publishers: seq<Publisher<T>>)
    requires forall p | 0 <= p < |publishers| :: publishers[p].Outside?
    ensures Inside(publishers) == 0
  {
    InsideZero(publishers);
  }

  lemma NewBusInv<T>(publishers: nat)
    ensures Inv(NewBus<T>(publishers))
  {
    AllOutside(NewBus<T>(publishers).publishers);
  }

  lemma NothingLost<T>(publishers: nat, events: seq<Event<T>>, k: nat)
    requires k < STREAMS && IsRun(NewBus<T>(publishers), events)
    ensures var s := After(NewBus<T>(publishers), events);
            && !s.panicked
            && k < |s.channels|
            && s.channels[k].accepted == Messages(s.channels[k].taken) + s.channels[k].buffer
            && (s.closer.Completed? ==> s.channels[k].accepted == Messages(s.channels[k].taken))
  {
    NewBusInv<T>(publishers);
    RunKeepsInv(NewBus<T>(publishers), events);
    RunDrains(NewBus<T>(publishers), events);
  }

  // Until Close raises its flag a publisher outside gets its message into every stream that has room, behind what was
  // accepted before; afterwards it does not get in.
  lemma PublishesWhileOpen<T>(s: State<T>, p: nat, stream: nat, m: T)
    requires Inv(s) && p < |s.publishers| && s.publishers[p].Outside? && stream < 3
    ensures Enabled(s, Enter(p, stream, m)) <==> s.closer.Open?
    ensures s.closer.Open? && |s.channels[stream].buffer| < 64 ==>
              var run := [Enter(p, stream, m), Send(p), Leave(p)];
              && IsRun(s, run)
              && var ch := s.channels[stream];
              After(s, run) ==
                s.(channels := s.channels[stream := ch.(buffer := ch.buffer + [m], accepted := ch.accepted + [m])])
  {
    if s.closer.Open? && |s.channels[stream].buffer| < 64 {
      var s1 := Apply(s, Enter(p, stream, m));
      var s2 := Apply(s1, Send(p));
      var s3 := Apply(s2, Leave(p));
      assert s3.publishers == s.publishers;
      var run := [Enter(p, stream, m), Send(p), Leave(p)];
      var two: seq<Event<T>>, one: seq<Event<T>> := [Send(p), Leave(p)], [Leave(p)];
      assert run[1..] == two && two[1..] == one && one[1..] == [];
      assert After(s2, one) == s3 && After(s1, two) == s3;
    }
  }

  // A consumer gets the oldest buffered message of a stream whenever there is one, also during the shutdown.
  lemma ReceivesOldest<T>(s: State<T>, stream: nat)
    requires Inv(s) && stream < 3
    ensures Enabled(s, Receive(stream)) <==> s.channels[stream].buffer != []
    ensures s.channels[stream].buffer != [] ==>
              var ch, ch' := s.channels[stream], Apply(s, Receive(stream)).channels[stream];
              ch'.buffer == ch.buffer[1..] && ch'.taken == ch.taken + [(ch.buffer[0], Consumer)]
  {
  }

  // Behind the drain nothing is buffered any more.
  ghost predicate Drained<T>(s: State<T>) {
    forall k | 0 <= k < |s.channels| ::
      s.closer.Completed? || (s.closer.Draining? && k < s.closer.next) ==> s.channels[k].buffer == []
  }

  lemma StepDrains<T>(s: State<T>, e: Event<T>)
    requires Inv(s) && Drained(s) && Enabled(s, e)
    ensures Drained(Apply(s, e))
  {
    InsideZero(s.publishers);
  }

  lemma {:induction false} RunDrains<T>(s: State<T>, events: seq<Event<T>>)
    requires Inv(s) && Drained(s) && IsRun(s, events)
    ensures Drained(After(s, events))
    decreases |events|
  {
    if events != [] {
      StepKeepsInv(s, events[0]);
      StepDrains(s, events[0]);
      RunDrains(Apply(s, events[0]), events[1..]);
    }
  }

  // ----- Close completes

  function PublisherWork<T>(publishers: seq<Publisher<T>>): nat {
    if publishers == [] then 0
    else
      (match publishers[0] case Outside => 0 case Selecting(_, _) => 3 case Leaving => 1)
      + PublisherWork(publishers[1..])
  }

  function Buffered<T>(channels: seq<Channel<T>>): nat {
    if channels == [] then 0 else |channels[0].buffer| + Buffered(channels[1..])
  }

  function CloserWork(c: Closer): int {
    match c
    case Open => 2 * STREAMS + 6
    case FlagRaised => 2 * STREAMS + 5
    case Waiting => 2 * STREAMS + 4
    case Closing(k) => 2 * STREAMS + 3 - k
    case Draining(k) => STREAMS + 1 - k
    case Completed => 0
  }

  // A bound on what is left to do once the flag is raised.
  function Work<T>(s: State<T>): int {
    PublisherWork(s.publishers) + Buffered(s.channels) + CloserWork(s.closer)
  }

  function WorkOf<T>(p: Publisher<T>): nat {
    match p case Outside => 0 case Selecting(_, _) => 3 case Leaving => 1
  }

  lemma {:induction false} PublisherWorkUpdate<T>(publishers: seq<Publisher<T>>, p: nat, q: Publisher<T>)
    requires p < |publishers|
    ensures PublisherWork(publishers[p := q]) == PublisherWork(publishers) - WorkOf(publishers[p]) + WorkOf(q)
  {
    if p > 0 {
      assert publishers[p := q][1..] == publishers[1..][p - 1 := q];
      PublisherWorkUpdate(publishers[1..], p - 1, q);
    } else {
      assert publishers[p := q][1..] == publishers[1..];
    }
  }

  lemma {:induction false} BufferedUpdate<T>(channels: seq<Channel<T>>, k: nat, ch: Channel<T>)
    requires k < |channels|
    ensures Buffered(channels[k := ch]) == Buffered(channels) - |channels[k].buffer| + |ch.buffer|
  {
    if k > 0 {
      assert channels[k := ch][1..] == channels[1..][k - 1 := ch];
      BufferedUpdate(channels[1..], k - 1, ch);
    } else {
      assert channels[k := ch][1..] == channels[1..];
    }
  }

  // Once the flag is raised, every step of anybody uses up some of the work left, and nobody enters.
  lemma StepWorks<T>(s: State<T>, e: Event<T>)
    requires Inv(s) && ClosedFlag(s.closer) && Enabled(s, e)
    ensures Work(Apply(s, e)) < Work(s) && ClosedFlag(Apply(s, e).closer)
  {
    StepKeepsInv(s, e);
    var s' := Apply(s, e);
    match e
    case Enter(_, _, _) =>
    case Send(p) =>
      var stream := s.publishers[p].stream;
      PublisherWorkUpdate(s.publishers, p, Leaving);
      BufferedUpdate(s.channels, stream, s'.channels[stream]);
    case GiveUp(p) => PublisherWorkUpdate(s.publishers, p, Leaving);
    case SeeDone(p) => PublisherWorkUpdate(s.publishers, p, Leaving);
    case Leave(p) => PublisherWorkUpdate(s.publishers, p, Outside);
    case Receive(stream) => BufferedUpdate(s.channels, stream, s'.channels[stream]);
    case DrainOne => BufferedUpdate(s.channels, s.closer.next, s'.channels[s.closer.next]);
    case CloseNext =>
      if s.closer.next < |s.channels| {
        BufferedUpdate(s.channels, s.closer.next, s'.channels[s.closer.next]);
      }
    case _ =>
  }

  // Until Close has completed, some publisher or Close itself can go on, without the help of any consumer: every
  // publisher inside has an exit.
  lemma CloseNeverStuck<T>(s: State<T>) returns (e: Event<T>)
    requires Inv(s) && ClosedFlag(s.closer) && !s.closer.Completed?
    ensures Enabled(s, e) && !e.Receive?
  {
    match s.closer
    case FlagRaised => e := CloseDone;
    case Waiting =>
      if s.waitGroup == 0 {
        e := WaitOver;
      } else {
        InsideZero(s.publishers);
        var p: nat :| p < |s.publishers| && !s.publishers[p].Outside?;
        e := if s.publishers[p].Leaving? then Leave(p) else SeeDone(p);
      }
    case Closing(_) => e := CloseNext;
    case Draining(k) =>
      e := if k < |s.channels| && s.channels[k].buffer != [] then DrainOne else DrainNext;
  }

  // Close always completes: behind the flag no run is longer than the work left, and a run that cannot be
  // continued has completed.
  lemma {:induction false} CloseCompletes<T>(s: State<T>, events: seq<Event<T>>)
    requires Inv(s) && ClosedFlag(s.closer) && IsRun(s, events)
    ensures |events| <= Work(s)
    ensures (forall e :: !Enabled(After(s, events), e)) ==> After(s, events).closer.Completed?
    decreases |events|
  {
    if events != [] {
      StepKeepsInv(s, events[0]);
      StepWorks(s, events[0]);
      CloseCompletes(Apply(s, events[0]), events[1..]);
    } else if !s.closer.Completed? {
      var e := CloseNeverStuck(s);
    }
    WorkNonNegative(After(s, events));
    RunKeepsInv(s, events);
  }

  lemma WorkNonNegative<T>(s: State<T>)
    ensures s.closer.Closing? || s.closer.Draining? ==> s.closer.next <= STREAMS ==> Work(s) >= 0
    ensures !s.closer.Closing? && !s.closer.Draining? ==> Work(s) >= 0
  {
  }
}
