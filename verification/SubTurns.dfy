/**
 Sub-turns and their concurrency tokens, as a state machine over a forest of turns. A spawn takes a token of its
 parent's semaphore, is checked for depth, takes a slot of the pool of its depth, runs, gives both back, and, when
 it is asynchronous, delivers its result to the parent. The wait for a token can time out at any moment; the delivery
 cannot.
 */
module SubTurns {

  datatype Config = Config(
    maxDepth: nat,
    maxConcurrent: nat,         // capacity of every sub-turn's semaphore
    maxConcurrentGlobal: nat,   // capacity of the pool of every depth level
    resultCapacity: nat)        // capacity of a sub-turn's channel of pending results

  predicate ValidConfig(c: Config) {
    c.maxConcurrent >= 1 && c.maxConcurrentGlobal >= 1
  }

  datatype Phase =
    | WantSem      // blocked on the parent's semaphore
    | WantSlot     // past the semaphore: depth check, then blocked on the pool
    | HasSlot      // past the pool, configuration not yet validated
    | Running      // the turn loop runs
    | Ran          // the turn loop returned
    | SemReleased  // the semaphore is released, the slot is not
    | Delivering   // asynchronous, both tokens released
    | Panicked     // the turn loop panicked: the result is delivered before the tokens are released
    | Unwinding    // the deferred releases are still to run
    | Done
    | Rejected     // left before the turn loop, with an error

  datatype Turn = Turn(
    parent: int,     // -1 for a root turn
    depth: nat,
    isAsync: bool,
    phase: Phase,
    sync: int,       // the synchronous child its goroutine is blocked on, or -1
    results: nat,    // buffered in its channel of pending results
    aborted: bool)   // finished by a hard abort

  // `sems[i]` counts the tokens in the semaphore of turn i, `pools[d]` those in the pool of level d.
  datatype State = State(turns: seq<Turn>, sems: seq<int>, pools: seq<int>)

  datatype Event =
    | StartRoot
    | Spawn(p: nat, isAsync: bool)
    | Abort(p: nat)
    | Panic(i: nat)
    | AcquireSem(i: nat)
    | RejectDepth(i: nat)
    | TimeOut(i: nat)      // the wait for a token ends without one, by its timeout or with the parent's context
    | AcquireSlot(i: nat)
    | RejectConfig(i: nat)
    | Start(i: nat)
    | Finish(i: nat)
    | ReleaseSem(i: nat)
    | ReleaseSlot(i: nat)
    | Deliver(i: nat)
    | PanicRelease(i: nat)
    | Poll(p: nat)

  // The steps by which what is there goes on; the others bring in something new.
  predicate IsAdvance(e: Event) {
    !e.StartRoot? && !e.Spawn? && !e.Abort? && !e.Panic?
  }

  predicate Finished(ph: Phase) {
    ph.Done? || ph.Rejected?
  }

  predicate HasStarted(ph: Phase) {
    !ph.WantSem? && !ph.WantSlot? && !ph.HasSlot? && !ph.Rejected?
  }

  predicate SemPhase(ph: Phase) {
    ph.WantSlot? || ph.HasSlot? || ph.Running? || ph.Ran? || ph.Panicked? || ph.Unwinding?
  }

  predicate SlotPhase(ph: Phase) {
    ph.HasSlot? || ph.Running? || ph.Ran? || ph.SemReleased? || ph.Panicked? || ph.Unwinding?
  }

  predicate Shape(c: Config, s: State) {
    && |s.sems| == |s.turns|
    && |s.pools| == c.maxDepth + 1
    && forall i | 0 <= i < |s.turns| :: IsRoot(s, i) || IsSpawn(c, s, i)
  }

  predicate IsRoot(s: State, i: nat)
    requires i < |s.turns|
  {
    s.turns[i].parent == -1 && s.turns[i].depth == 0 && (s.turns[i].phase.Running? || s.turns[i].phase.Done?)
  }

  predicate IsSpawn(c: Config, s: State, i: nat)
    requires i < |s.turns|
  {
    var t := s.turns[i];
    && 0 <= t.parent < i
    && t.depth == s.turns[t.parent].depth + 1
    && t.depth <= c.maxDepth + 1
    && (!t.phase.WantSem? && !t.phase.WantSlot? && !t.phase.Rejected? ==> t.depth <= c.maxDepth)
  }

  // A root turn has neither a semaphore nor a channel of pending results.
  predicate HasTokens(s: State, p: int) {
    0 <= p < |s.turns| && s.turns[p].parent >= 0
  }

  predicate At(c: Config, s: State, i: nat, ph: Phase) {
    i < |s.turns| && IsSpawn(c, s, i) && s.turns[i].phase == ph
  }

  // Nothing keeps the result from being handed to the parent, or from being given up.
  predicate CanDeliver(c: Config, s: State, p: int)
    requires 0 <= p < |s.turns|
  {
    !HasTokens(s, p) || s.turns[p].aborted || s.turns[p].results < c.resultCapacity
  }

  predicate Enabled(c: Config, s: State, e: Event)
    requires Shape(c, s)
  {
    match e
    case StartRoot => true
    case Spawn(p, isAsync) =>
      && p < |s.turns| && HasStarted(s.turns[p].phase)
      && (!isAsync ==> s.turns[p].phase.Running? && s.turns[p].sync == -1)
    case Abort(p) => p < |s.turns| && s.turns[p].phase.Running?   // only then it is registered as active
    case Panic(i) => At(c, s, i, Running) && s.turns[i].sync == -1
    case AcquireSem(i) => At(c, s, i, WantSem) && s.sems[s.turns[i].parent] < c.maxConcurrent
    case RejectDepth(i) => At(c, s, i, WantSlot) && s.turns[s.turns[i].parent].depth >= c.maxDepth
    case TimeOut(i) =>
      At(c, s, i, WantSem) || (At(c, s, i, WantSlot) && s.turns[s.turns[i].parent].depth < c.maxDepth)
    case AcquireSlot(i) =>
      && At(c, s, i, WantSlot) && s.turns[s.turns[i].parent].depth < c.maxDepth
      && s.pools[s.turns[i].depth] < c.maxConcurrentGlobal
    case RejectConfig(i) => At(c, s, i, HasSlot)
    case Start(i) => At(c, s, i, HasSlot)
    case Finish(i) => i < |s.turns| && s.turns[i].phase.Running? && s.turns[i].sync == -1
    case ReleaseSem(i) => At(c, s, i, Ran)
    case ReleaseSlot(i) => At(c, s, i, SemReleased)
    case Deliver(i) => (At(c, s, i, Delivering) || At(c, s, i, Panicked)) && CanDeliver(c, s, s.turns[i].parent)
    case PanicRelease(i) => At(c, s, i, Unwinding)
    case Poll(p) => At(c, s, p, Running) && s.turns[p].sync == -1 && s.turns[p].results > 0
  }

  function SetPhase(s: State, i: nat, ph: Phase): State
    requires i < |s.turns|
  {
    s.(turns := s.turns[i := s.turns[i].(phase := ph)])
  }

  function AddSem(s: State, p: int, n: int): State
    requires 0 <= p < |s.turns| == |s.sems|
  {
    if HasTokens(s, p) then s.(sems := s.sems[p := s.sems[p] + n]) else s
  }

  function AddSlot(s: State, d: nat, n: int): State
    requires d < |s.pools|
  {
    s.(pools := s.pools[d := s.pools[d] + n])
  }

  // The spawn call returns: a parent that waited for it goes on.
  function Return(s: State, i: nat, ph: Phase): State
    requires i < |s.turns| && 0 <= s.turns[i].parent < i
  {
    var p := s.turns[i].parent;
    var s' := SetPhase(s, i, ph);
    if s.turns[p].sync == i then s'.(turns := s'.turns[p := s'.turns[p].(sync := -1)]) else s'
  }

  function PutResult(c: Config, s: State, p: int): State
    requires 0 <= p < |s.turns|
  {
    if HasTokens(s, p) && !s.turns[p].aborted
    then s.(turns := s.turns[p := s.turns[p].(results := s.turns[p].results + 1)])
    else s
  }

  function Apply(c: Config, s: State, e: Event): State
    requires Shape(c, s) && Enabled(c, s, e)
  {
    match e
    case StartRoot =>
      State(s.turns + [Turn(-1, 0, false, Running, -1, 0, false)], s.sems + [0], s.pools)
    case Spawn(p, isAsync) =>
      var child := Turn(p, s.turns[p].depth + 1, isAsync, if HasTokens(s, p) then WantSem else WantSlot, -1, 0, false);
      var turns := if isAsync then s.turns else s.turns[p := s.turns[p].(sync := |s.turns|)];
      State(turns + [child], s.sems + [0], s.pools)
    case Abort(p) => s.(turns := s.turns[p := s.turns[p].(aborted := true)])
    case Panic(i) => SetPhase(s, i, if s.turns[i].isAsync then Panicked else Unwinding)
    case AcquireSem(i) => SetPhase(AddSem(s, s.turns[i].parent, 1), i, WantSlot)
    case RejectDepth(i) => Return(AddSem(s, s.turns[i].parent, -1), i, Rejected)
    case TimeOut(i) =>
      Return(if s.turns[i].phase.WantSem? then s else AddSem(s, s.turns[i].parent, -1), i, Rejected)
    case AcquireSlot(i) => SetPhase(AddSlot(s, s.turns[i].depth, 1), i, HasSlot)
    case RejectConfig(i) => Return(AddSem(AddSlot(s, s.turns[i].depth, -1), s.turns[i].parent, -1), i, Rejected)
    case Start(i) => SetPhase(s, i, Running)
    case Finish(i) => SetPhase(s, i, if s.turns[i].parent == -1 then Done else Ran)
    case ReleaseSem(i) => SetPhase(AddSem(s, s.turns[i].parent, -1), i, SemReleased)
    case ReleaseSlot(i) =>
      var s' := AddSlot(s, s.turns[i].depth, -1);
      if s.turns[i].isAsync then SetPhase(s', i, Delivering) else Return(s', i, Done)
    case Deliver(i) =>
      var s' := PutResult(c, s, s.turns[i].parent);
      if s.turns[i].phase.Panicked? then SetPhase(s', i, Unwinding) else Return(s', i, Done)
    case PanicRelease(i) => Return(AddSem(AddSlot(s, s.turns[i].depth, -1), s.turns[i].parent, -1), i, Done)
    case Poll(p) => s.(turns := s.turns[p := s.turns[p].(results := s.turns[p].results - 1)])
  }

  // ----- the invariant

  function SemHolders(turns: seq<Turn>, p: int): nat {
    if turns == [] then 0
    else
      var n := |turns| - 1;
      SemHolders(turns[..n], p) + (if turns[n].parent == p && SemPhase(turns[n].phase) then 1 else 0)
  }

  function SlotHolders(turns: seq<Turn>, d: nat): nat {
    if turns == [] then 0
    else
      var n := |turns| - 1;
      SlotHolders(turns[..n], d)
      + (if turns[n].parent >= 0 && turns[n].depth == d && SlotPhase(turns[n].phase) then 1 else 0)
  }

  // Every token in a semaphore or pool belongs to exactly one spawn between acquire and release.
  ghost predicate Accounted(c: Config, s: State)
    requires Shape(c, s)
  {
    && (forall p | 0 <= p < |s.turns| && HasTokens(s, p) ::
          s.sems[p] == SemHolders(s.turns, p) && s.sems[p] <= c.maxConcurrent)
    && (forall d | 0 <= d <= c.maxDepth ::
          s.pools[d] == SlotHolders(s.turns, d) && s.pools[d] <= c.maxConcurrentGlobal)
  }

  ghost predicate Waits(s: State, p: nat)
    requires p < |s.turns|
  {
    var t := s.turns[p];
    && -1 <= t.sync < |s.turns|
    && (t.sync >= 0 ==>
          && t.phase.Running?
          && s.turns[t.sync].parent == p
          && !s.turns[t.sync].isAsync
          && !Finished(s.turns[t.sync].phase))
    && (!t.isAsync ==> !t.phase.Delivering? && !t.phase.Panicked?)
    && (t.parent >= 0 ==> t.parent < |s.turns| && HasStarted(s.turns[t.parent].phase))
    && (t.phase.WantSem? ==> HasTokens(s, t.parent))
  }

  ghost predicate Inv(c: Config, s: State) {
    && Shape(c, s)
    && Accounted(c, s)
    && (forall p | 0 <= p < |s.turns| :: Waits(s, p))
    && (forall p | 0 <= p < |s.turns| :: s.turns[p].results <= c.resultCapacity)
  }

  // The turns after a step that changes the phase of turn i to ph, and besides only what tokens do not depend on.
  ghost predicate Moved(turns: seq<Turn>, turns': seq<Turn>, i: nat, ph: Phase) {
    && |turns'| == |turns|
    && forall k | 0 <= k < |turns| ::
         && turns'[k].parent == turns[k].parent
         && turns'[k].depth == turns[k].depth
         && turns'[k].phase == if k == i then ph else turns[k].phase
  }

  function Bit(b: bool): int {
    if b then 1 else 0
  }

  lemma {:induction false} SemHoldersMoved(turns: seq<Turn>, turns': seq<Turn>, i: nat, ph: Phase, p: int)
    requires Moved(turns, turns', i, ph)
    ensures SemHolders(turns', p) == SemHolders(turns, p)
              + (if i < |turns| && turns[i].parent == p then Bit(SemPhase(ph)) - Bit(SemPhase(turns[i].phase)) else 0)
    decreases |turns|
  {
    if turns != [] {
      SemHoldersMoved(turns[..|turns| - 1], turns'[..|turns| - 1], i, ph, p);
    }
  }

  lemma {:induction false} SlotHoldersMoved(turns: seq<Turn>, turns': seq<Turn>, i: nat, ph: Phase, d: nat)
    requires Moved(turns, turns', i, ph)
    ensures SlotHolders(turns', d) == SlotHolders(turns, d)
              + (if i < |turns| && turns[i].parent >= 0 && turns[i].depth == d
                 then Bit(SlotPhase(ph)) - Bit(SlotPhase(turns[i].phase)) else 0)
    decreases |turns|
  {
    if turns != [] {
      SlotHoldersMoved(turns[..|turns| - 1], turns'[..|turns| - 1], i, ph, d);
    }
  }

  lemma {:induction false} SemHolder(turns: seq<Turn>, p: int) returns (j: nat)
    requires SemHolders(turns, p) > 0
    ensures j < |turns| && turns[j].parent == p && SemPhase(turns[j].phase)
  {
    var n := |turns| - 1;
    if turns[n].parent == p && SemPhase(turns[n].phase) {
      return n;
    }
    j := SemHolder(turns[..n], p);
  }

  lemma {:induction false} SlotHolder(turns: seq<Turn>, d: nat) returns (j: nat)
    requires SlotHolders(turns, d) > 0
    ensures j < |turns| && turns[j].parent >= 0 && turns[j].depth == d && SlotPhase(turns[j].phase)
  {
    var n := |turns| - 1;
    if turns[n].parent >= 0 && turns[n].depth == d && SlotPhase(turns[n].phase) {
      return n;
    }
    j := SlotHolder(turns[..n], d);
  }

  lemma {:induction false} NoChildrenYet(turns: seq<Turn>, p: int)
    requires forall i | 0 <= i < |turns| :: turns[i].parent != p
    ensures SemHolders(turns, p) == 0
  {
    if turns != [] {
      NoChildrenYet(turns[..|turns| - 1], p);
    }
  }

  // ----- every step keeps the invariant

  // The turn a step is about, and the phase it puts it into.
  function Subject(e: Event): nat
    requires !e.StartRoot? && !e.Spawn?
  {
    if e.Abort? || e.Poll? then e.p else e.i
  }

  function NextPhase(t: Turn, e: Event): Phase
    requires !e.StartRoot? && !e.Spawn?
  {
    match e
    case Panic(_) => if t.isAsync then Panicked else Unwinding
    case AcquireSem(_) => WantSlot
    case RejectDepth(_) => Rejected
    case TimeOut(_) => Rejected
    case AcquireSlot(_) => HasSlot
    case RejectConfig(_) => Rejected
    case Start(_) => Running
    case Finish(_) => if t.parent == -1 then Done else Ran
    case ReleaseSem(_) => SemReleased
    case ReleaseSlot(_) => if t.isAsync then Delivering else Done
    case Deliver(_) => if t.phase.Panicked? then Unwinding else Done
    case PanicRelease(_) => Done
    case _ => t.phase
  }

  // The tokens change by the difference that the phases make.
  ghost predicate TokensMoved(c: Config, s: State, s': State, i: nat, ph: Phase)
    requires Shape(c, s) && i < |s.turns|
  {
    var t := s.turns[i];
    var sem := Bit(SemPhase(ph)) - Bit(SemPhase(t.phase));
    var slot := Bit(SlotPhase(ph)) - Bit(SlotPhase(t.phase));
    && s'.sems == (if t.parent >= 0 && HasTokens(s, t.parent)
                   then s.sems[t.parent := s.sems[t.parent] + sem] else s.sems)
    && (HasTokens(s, t.parent) && sem > 0 ==> s.sems[t.parent] < c.maxConcurrent)
    && (t.parent >= 0 && slot != 0 ==> t.depth <= c.maxDepth)
    && (t.parent >= 0 && slot > 0 ==> s.pools[t.depth] < c.maxConcurrentGlobal)
    && s'.pools == (if t.parent >= 0 && t.depth <= c.maxDepth
                    then s.pools[t.depth := s.pools[t.depth] + slot] else s.pools)
  }

  lemma ReturnMoves(s: State, i: nat, ph: Phase)
    requires i < |s.turns| && 0 <= s.turns[i].parent < i
    ensures Moved(s.turns, Return(s, i, ph).turns, i, ph)
    ensures Return(s, i, ph).sems == s.sems && Return(s, i, ph).pools == s.pools
  {
  }

  lemma PutResultMoves(c: Config, s: State, p: int, i: nat)
    requires 0 <= p < |s.turns| && i < |s.turns|
    ensures Moved(s.turns, PutResult(c, s, p).turns, i, s.turns[i].phase)
    ensures PutResult(c, s, p).sems == s.sems && PutResult(c, s, p).pools == s.pools
  {
  }

  ghost predicate StepIsMove(c: Config, s: State, e: Event)
    requires Shape(c, s) && Enabled(c, s, e) && !e.StartRoot? && !e.Spawn?
  {
    var s' := Apply(c, s, e);
    && Subject(e) < |s.turns|
    && Moved(s.turns, s'.turns, Subject(e), NextPhase(s.turns[Subject(e)], e))
    && |s'.sems| == |s.sems| && |s'.pools| == |s.pools|
  }

  predicate Returns(e: Event) {
    e.RejectDepth? || e.TimeOut? || e.RejectConfig? || e.ReleaseSlot? || e.PanicRelease?
  }

  lemma PlainStepMoves(c: Config, s: State, e: Event)
    requires Shape(c, s) && Enabled(c, s, e) && !e.StartRoot? && !e.Spawn? && !Returns(e) && !e.Deliver?
    ensures StepIsMove(c, s, e)
  {
  }

  lemma ReturnStepMoves(c: Config, s: State, e: Event)
    requires Shape(c, s) && Enabled(c, s, e) && Returns(e)
    ensures StepIsMove(c, s, e)
  {
    if e.TimeOut? { TimeOutMoves(c, s, e); } else { TokenStepMoves(c, s, e); }
  }

  lemma TokenStepMoves(c: Config, s: State, e: Event)
    requires Shape(c, s) && Enabled(c, s, e) && Returns(e) && !e.TimeOut?
    ensures StepIsMove(c, s, e)
  {
    hide Return;
    var i, p := e.i, s.turns[e.i].parent;
    match e
    case RejectDepth(_) => ReturnMoves(AddSem(s, p, -1), i, Rejected);
    case RejectConfig(_) => ReturnMoves(AddSem(AddSlot(s, s.turns[i].depth, -1), p, -1), i, Rejected);
    case ReleaseSlot(_) => ReturnMoves(AddSlot(s, s.turns[i].depth, -1), i, Done);
    case PanicRelease(_) => ReturnMoves(AddSem(AddSlot(s, s.turns[i].depth, -1), p, -1), i, Done);
  }

  lemma TimeOutMoves(c: Config, s: State, e: Event)
    requires Shape(c, s) && Enabled(c, s, e) && e.TimeOut?
    ensures StepIsMove(c, s, e)
  {
    hide Return;
    ReturnMoves(s, e.i, Rejected);
    ReturnMoves(AddSem(s, s.turns[e.i].parent, -1), e.i, Rejected);
  }

  lemma DeliverMoves(c: Config, s: State, e: Event)
    requires Shape(c, s) && Enabled(c, s, e) && e.Deliver?
    ensures StepIsMove(c, s, e)
  {
    hide Return, PutResult;
    var p := s.turns[e.i].parent;
    PutResultMoves(c, s, p, e.i);
    ReturnMoves(PutResult(c, s, p), e.i, Done);
  }

  lemma StepMoves(c: Config, s: State, e: Event)
    requires Shape(c, s) && Enabled(c, s, e) && !e.StartRoot? && !e.Spawn?
    ensures StepIsMove(c, s, e)
  {
    if Returns(e) {
      ReturnStepMoves(c, s, e);
    } else if e.Deliver? {
      DeliverMoves(c, s, e);
    } else {
      PlainStepMoves(c, s, e);
    }
  }

  lemma StepMovesTokens(c: Config, s: State, e: Event)
    requires Shape(c, s) && Enabled(c, s, e) && !e.StartRoot? && !e.Spawn?
    ensures Subject(e) < |s.turns|
    ensures TokensMoved(c, s, Apply(c, s, e), Subject(e), NextPhase(s.turns[Subject(e)], e))
  {
    if Returns(e) {
      if e.TimeOut? { TimeOutTokens(c, s, e); } else { ReturnStepTokens(c, s, e); }
    } else if e.Deliver? {
      DeliverTokens(c, s, e);
    } else {
      PlainStepTokens(c, s, e);
    }
  }

  lemma PlainStepTokens(c: Config, s: State, e: Event)
    requires Shape(c, s) && Enabled(c, s, e) && !e.StartRoot? && !e.Spawn? && !Returns(e) && !e.Deliver?
    ensures Subject(e) < |s.turns|
    ensures TokensMoved(c, s, Apply(c, s, e), Subject(e), NextPhase(s.turns[Subject(e)], e))
  {
    assert IsRoot(s, Subject(e)) || IsSpawn(c, s, Subject(e));
  }

  lemma DeliverTokens(c: Config, s: State, e: Event)
    requires Shape(c, s) && Enabled(c, s, e) && e.Deliver?
    ensures TokensMoved(c, s, Apply(c, s, e), e.i, NextPhase(s.turns[e.i], e))
  {
    hide Return, PutResult;
    PutResultMoves(c, s, s.turns[e.i].parent, e.i);
    ReturnMoves(PutResult(c, s, s.turns[e.i].parent), e.i, Done);
  }

  lemma ReturnStepTokens(c: Config, s: State, e: Event)
    requires Shape(c, s) && Enabled(c, s, e) && Returns(e) && !e.TimeOut?
    ensures TokensMoved(c, s, Apply(c, s, e), e.i, NextPhase(s.turns[e.i], e))
  {
    hide Return;
    var i, p := e.i, s.turns[e.i].parent;
    match e
    case RejectDepth(_) => ReturnMoves(AddSem(s, p, -1), i, Rejected);
    case RejectConfig(_) => ReturnMoves(AddSem(AddSlot(s, s.turns[i].depth, -1), p, -1), i, Rejected);
    case ReleaseSlot(_) => ReturnMoves(AddSlot(s, s.turns[i].depth, -1), i, Done);
    case PanicRelease(_) => ReturnMoves(AddSem(AddSlot(s, s.turns[i].depth, -1), p, -1), i, Done);
  }

  lemma TimeOutTokens(c: Config, s: State, e: Event)
    requires Shape(c, s) && Enabled(c, s, e) && e.TimeOut?
    ensures TokensMoved(c, s, Apply(c, s, e), e.i, Rejected)
  {
    hide Return;
    ReturnMoves(s, e.i, Rejected);
    ReturnMoves(AddSem(s, s.turns[e.i].parent, -1), e.i, Rejected);
  }

  lemma MoveKeepsShape(c: Config, s: State, s': State, i: nat, ph: Phase)
    requires Shape(c, s) && i < |s.turns| && Moved(s.turns, s'.turns, i, ph)
    requires |s'.sems| == |s.sems| && |s'.pools| == |s.pools|
    requires s.turns[i].parent < 0 ==> ph.Running? || ph.Done?
    requires s.turns[i].parent >= 0 && !ph.WantSem? && !ph.WantSlot? && !ph.Rejected? ==> s.turns[i].depth <= c.maxDepth
    ensures Shape(c, s')
  {
    forall k | 0 <= k < |s'.turns|
      ensures IsRoot(s', k) || IsSpawn(c, s', k)
    {
      assert IsRoot(s, k) || IsSpawn(c, s, k);
    }
  }

  lemma MoveKeepsAccounts(c: Config, s: State, s': State, i: nat, ph: Phase)
    requires Shape(c, s) && Accounted(c, s) && Shape(c, s') && i < |s.turns|
    requires Moved(s.turns, s'.turns, i, ph) && TokensMoved(c, s, s', i, ph)
    ensures Accounted(c, s')
  {
    assert IsRoot(s, i) || IsSpawn(c, s, i);
    forall p | 0 <= p < |s'.turns| && HasTokens(s', p)
      ensures s'.sems[p] == SemHolders(s'.turns, p) && s'.sems[p] <= c.maxConcurrent
    {
      assert HasTokens(s, p);
      SemHoldersMoved(s.turns, s'.turns, i, ph, p);
    }
    forall d | 0 <= d <= c.maxDepth
      ensures s'.pools[d] == SlotHolders(s'.turns, d) && s'.pools[d] <= c.maxConcurrentGlobal
    {
      SlotHoldersMoved(s.turns, s'.turns, i, ph, d);
    }
  }

  lemma StepKeepsTokens(c: Config, s: State, e: Event)
    requires Inv(c, s) && Enabled(c, s, e) && !e.StartRoot? && !e.Spawn?
    ensures Shape(c, Apply(c, s, e)) && Accounted(c, Apply(c, s, e))
  {
    hide Apply;
    StepMoves(c, s, e);
    StepMovesTokens(c, s, e);
    var i := Subject(e);
    var ph := NextPhase(s.turns[i], e);
    assert IsRoot(s, i) || IsSpawn(c, s, i);
    if e.AcquireSlot? { assert IsRoot(s, s.turns[i].parent) || IsSpawn(c, s, s.turns[i].parent); }
    MoveKeepsShape(c, s, Apply(c, s, e), i, ph);
    MoveKeepsAccounts(c, s, Apply(c, s, e), i, ph);
  }

  // Whoever waited for a spawn that is finished now goes on; nobody else does.
  ghost predicate SyncMoved(turns: seq<Turn>, turns': seq<Turn>, i: nat, ph: Phase) {
    && |turns'| == |turns|
    && forall k | 0 <= k < |turns| ::
         && turns'[k].isAsync == turns[k].isAsync
         && turns'[k].sync == if Finished(ph) && turns[k].sync == i then -1 else turns[k].sync
  }

  ghost predicate AllWait(s: State) {
    forall p | 0 <= p < |s.turns| :: Waits(s, p)
  }

  ghost predicate ResultsFit(c: Config, s: State) {
    forall p | 0 <= p < |s.turns| :: s.turns[p].results <= c.resultCapacity
  }

  // Only the parent can wait for a spawn.
  lemma OnlyParentWaits(s: State, i: nat, k: nat)
    requires AllWait(s) && i < |s.turns| && k < |s.turns| && s.turns[k].sync == i
    ensures k == s.turns[i].parent
  {
    assert Waits(s, k);
  }

  lemma ReturnSyncMoved(s: State, r: State, i: nat, ph: Phase)
    requires AllWait(s) && i < |s.turns| && 0 <= s.turns[i].parent < i && Finished(ph)
    requires |r.turns| == |s.turns|
    requires forall k | 0 <= k < |s.turns| ::
               r.turns[k].isAsync == s.turns[k].isAsync && r.turns[k].sync == s.turns[k].sync
               && r.turns[k].parent == s.turns[k].parent
    ensures SyncMoved(s.turns, Return(r, i, ph).turns, i, ph)
  {
    forall k: nat | k < |s.turns| && s.turns[k].sync == i
      ensures k == s.turns[i].parent
    {
      OnlyParentWaits(s, i, k);
    }
  }

  lemma StepSyncMoved(c: Config, s: State, e: Event)
    requires Inv(c, s) && Enabled(c, s, e) && !e.StartRoot? && !e.Spawn?
    ensures Subject(e) < |s.turns|
    ensures SyncMoved(s.turns, Apply(c, s, e).turns, Subject(e), NextPhase(s.turns[Subject(e)], e))
  {
    hide Apply, SyncMoved;
    if Returns(e) {
      ReturnStepSync(c, s, e);
    } else if e.Deliver? {
      DeliverSync(c, s, e);
    } else {
      PlainStepSync(c, s, e);
    }
  }

  lemma DeliverSync(c: Config, s: State, e: Event)
    requires Inv(c, s) && Enabled(c, s, e) && e.Deliver?
    ensures SyncMoved(s.turns, Apply(c, s, e).turns, e.i, NextPhase(s.turns[e.i], e))
  {
    hide Return, Accounted;
    ReturnSyncMoved(s, PutResult(c, s, s.turns[e.i].parent), e.i, Done);
  }

  // No step but a return finishes a turn somebody waits for.
  lemma PlainStepSync(c: Config, s: State, e: Event)
    requires Shape(c, s) && AllWait(s) && Enabled(c, s, e) && !e.StartRoot? && !e.Spawn? && !Returns(e) && !e.Deliver?
    ensures Subject(e) < |s.turns|
    ensures SyncMoved(s.turns, Apply(c, s, e).turns, Subject(e), NextPhase(s.turns[Subject(e)], e))
  {
    var i := Subject(e);
    forall k: nat | k < |s.turns| && s.turns[k].sync == i
      ensures k == s.turns[i].parent && !Finished(s.turns[i].phase)
    {
      assert Waits(s, k);
    }
  }

  lemma ReturnStepSync(c: Config, s: State, e: Event)
    requires Inv(c, s) && Enabled(c, s, e) && Returns(e)
    ensures SyncMoved(s.turns, Apply(c, s, e).turns, e.i, NextPhase(s.turns[e.i], e))
  {
    hide Return;
    var i, p := e.i, s.turns[e.i].parent;
    match e
    case RejectDepth(_) => ReturnSyncMoved(s, AddSem(s, p, -1), i, Rejected);
    case TimeOut(_) =>
      ReturnSyncMoved(s, s, i, Rejected);
      ReturnSyncMoved(s, AddSem(s, p, -1), i, Rejected);
    case RejectConfig(_) => ReturnSyncMoved(s, AddSem(AddSlot(s, s.turns[i].depth, -1), p, -1), i, Rejected);
    case ReleaseSlot(_) => ReturnSyncMoved(s, AddSlot(s, s.turns[i].depth, -1), i, Done);
    case PanicRelease(_) => ReturnSyncMoved(s, AddSem(AddSlot(s, s.turns[i].depth, -1), p, -1), i, Done);
  }

  lemma MoveKeepsWaits(s: State, s': State, i: nat, ph: Phase)
    requires AllWait(s) && i < |s.turns|
    requires Moved(s.turns, s'.turns, i, ph) && SyncMoved(s.turns, s'.turns, i, ph)
    requires s.turns[i].sync >= 0 ==> ph == s.turns[i].phase
    requires ph.Delivering? || ph.Panicked? ==> s.turns[i].isAsync
    requires HasStarted(s.turns[i].phase) ==> HasStarted(ph)
    requires ph.WantSem? ==> s.turns[i].phase.WantSem?
    ensures AllWait(s')
  {
    forall p: nat | p < |s'.turns|
      ensures Waits(s', p)
    {
      assert Waits(s, p);
    }
  }

  lemma ReturnResults(s: State, i: nat, ph: Phase)
    requires i < |s.turns| && 0 <= s.turns[i].parent < i
    ensures |Return(s, i, ph).turns| == |s.turns|
    ensures forall k | 0 <= k < |s.turns| ::
              Return(s, i, ph).turns[k].results == s.turns[k].results
              && Return(s, i, ph).turns[k].aborted == s.turns[k].aborted
  {
  }

  lemma ReturnStepResults(c: Config, s: State, e: Event)
    requires Inv(c, s) && Enabled(c, s, e) && Returns(e)
    ensures ResultsFit(c, Apply(c, s, e))
  {
    hide Return, Accounted, Waits;
    var i, p := e.i, s.turns[e.i].parent;
    match e
    case RejectDepth(_) => ReturnResults(AddSem(s, p, -1), i, Rejected);
    case TimeOut(_) =>
      ReturnResults(s, i, Rejected);
      ReturnResults(AddSem(s, p, -1), i, Rejected);
    case RejectConfig(_) => ReturnResults(AddSem(AddSlot(s, s.turns[i].depth, -1), p, -1), i, Rejected);
    case ReleaseSlot(_) => ReturnResults(AddSlot(s, s.turns[i].depth, -1), i, Done);
    case PanicRelease(_) => ReturnResults(AddSem(AddSlot(s, s.turns[i].depth, -1), p, -1), i, Done);
  }

  lemma PutResultFits(c: Config, s: State, p: int)
    requires 0 <= p < |s.turns| && ResultsFit(c, s) && CanDeliver(c, s, p)
    ensures ResultsFit(c, PutResult(c, s, p))
  {
  }

  lemma DeliverResults(c: Config, s: State, e: Event)
    requires Inv(c, s) && Enabled(c, s, e) && e.Deliver?
    ensures ResultsFit(c, Apply(c, s, e))
  {
    hide Return, PutResult, Accounted, Waits, CanDeliver;
    var i, p := e.i, s.turns[e.i].parent;
    PutResultFits(c, s, p);
    PutResultMoves(c, s, p, i);
    ReturnResults(PutResult(c, s, p), i, Done);
  }

  lemma PlainStepResults(c: Config, s: State, e: Event)
    requires Inv(c, s) && Enabled(c, s, e) && !e.StartRoot? && !e.Spawn? && !Returns(e) && !e.Deliver?
    ensures ResultsFit(c, Apply(c, s, e))
  {
    hide Accounted, Waits;
  }

  lemma StepKeepsResults(c: Config, s: State, e: Event)
    requires Inv(c, s) && Enabled(c, s, e) && !e.StartRoot? && !e.Spawn?
    ensures ResultsFit(c, Apply(c, s, e))
  {
    hide Apply, Inv, Enabled, ResultsFit;
    if Returns(e) {
      ReturnStepResults(c, s, e);
    } else if e.Deliver? {
      DeliverResults(c, s, e);
    } else {
      PlainStepResults(c, s, e);
    }
  }

  lemma MoveKeepsInv(c: Config, s: State, e: Event)
    requires Inv(c, s) && Enabled(c, s, e) && !e.StartRoot? && !e.Spawn?
    ensures Inv(c, Apply(c, s, e))
  {
    hide Apply;
    var i := Subject(e);
    StepMoves(c, s, e);
    StepSyncMoved(c, s, e);
    StepKeepsTokens(c, s, e);
    StepKeepsResults(c, s, e);
    assert Waits(s, i);
    MoveKeepsWaits(s, Apply(c, s, e), i, NextPhase(s.turns[i], e));
  }

  // ----- new turns

  lemma HoldersSnoc(turns: seq<Turn>, t: Turn, p: int, d: nat)
    ensures SemHolders(turns + [t], p) == SemHolders(turns, p) + Bit(t.parent == p && SemPhase(t.phase))
    ensures SlotHolders(turns + [t], d) ==
              SlotHolders(turns, d) + Bit(t.parent >= 0 && t.depth == d && SlotPhase(t.phase))
  {
    assert (turns + [t])[..|turns|] == turns;
  }

  lemma GrowKeepsAccounts(c: Config, s: State, turns: seq<Turn>, t: Turn)
    requires Shape(c, s) && Accounted(c, s) && Moved(s.turns, turns, |turns|, Done)
    requires Shape(c, State(turns + [t], s.sems + [0], s.pools))
    requires !SlotPhase(t.phase) || t.parent < 0
    requires SemPhase(t.phase) && t.parent >= 0 ==> t.parent < |s.turns| && s.turns[t.parent].parent < 0
    ensures Accounted(c, State(turns + [t], s.sems + [0], s.pools))
  {
    var s' := State(turns + [t], s.sems + [0], s.pools);
    forall p | 0 <= p < |s'.turns| && HasTokens(s', p)
      ensures s'.sems[p] == SemHolders(s'.turns, p) && s'.sems[p] <= c.maxConcurrent
    {
      HoldersSnoc(turns, t, p, 0);
      SemHoldersMoved(s.turns, turns, |turns|, Done, p);
      if p == |turns| {
        forall i | 0 <= i < |s.turns|
          ensures s.turns[i].parent != p
        {
          assert IsRoot(s, i) || IsSpawn(c, s, i);
        }
        NoChildrenYet(s.turns, p);
      } else {
        assert HasTokens(s, p);
      }
    }
    forall d | 0 <= d <= c.maxDepth
      ensures s'.pools[d] == SlotHolders(s'.turns, d) && s'.pools[d] <= c.maxConcurrentGlobal
    {
      HoldersSnoc(turns, t, 0, d);
      SlotHoldersMoved(s.turns, turns, |turns|, Done, d);
    }
  }

  lemma NewTurnShape(c: Config, s: State, e: Event)
    requires Inv(c, s) && Enabled(c, s, e) && (e.StartRoot? || e.Spawn?)
    ensures Shape(c, Apply(c, s, e))
  {
    var s' := Apply(c, s, e);
    forall i | 0 <= i < |s'.turns|
      ensures IsRoot(s', i) || IsSpawn(c, s', i)
    {
      if i < |s.turns| {
        assert IsRoot(s, i) || IsSpawn(c, s, i);
      } else if e.Spawn? {
        assert IsRoot(s, e.p) || IsSpawn(c, s, e.p);
      }
    }
  }

  lemma NewTurnWaits(c: Config, s: State, e: Event)
    requires Inv(c, s) && Enabled(c, s, e) && (e.StartRoot? || e.Spawn?)
    ensures AllWait(Apply(c, s, e)) && ResultsFit(c, Apply(c, s, e))
  {
    var s' := Apply(c, s, e);
    forall p: nat | p < |s'.turns|
      ensures Waits(s', p)
    {
      if p < |s.turns| { assert Waits(s, p); }
    }
  }

  lemma StepKeepsInv(c: Config, s: State, e: Event)
    requires Inv(c, s) && Enabled(c, s, e)
    ensures Inv(c, Apply(c, s, e))
  {
    if e.StartRoot? || e.Spawn? {
      NewTurnShape(c, s, e);
      NewTurnWaits(c, s, e);
      var s' := Apply(c, s, e);
      var n := |s.turns|;
      assert s'.turns == s'.turns[..n] + [s'.turns[n]];
      GrowKeepsAccounts(c, s, s'.turns[..n], s'.turns[n]);
    } else {
      MoveKeepsInv(c, s, e);
    }
  }

  function Empty(c: Config): State {
    State([], [], seq(c.maxDepth + 1, _ => 0))
  }

  lemma EmptyInv(c: Config)
    ensures Inv(c, Empty(c))
  {
  }

  ghost predicate IsRun(c: Config, s: State, events: seq<Event>)
    decreases |events|
  {
    events == [] || (Shape(c, s) && Enabled(c, s, events[0]) && IsRun(c, Apply(c, s, events[0]), events[1..]))
  }

  ghost function After(c: Config, s: State, events: seq<Event>): State
    requires IsRun(c, s, events)
    decreases |events|
  {
    if events == [] then s else After(c, Apply(c, s, events[0]), events[1..])
  }

  // In every reachable state, with panics and aborts, every semaphore and pool holds exactly one token for every
  // spawn between acquire and release, never more than its capacity.
  lemma {:induction false} TokensAccounted(c: Config, s: State, events: seq<Event>)
    requires Inv(c, s) && IsRun(c, s, events)
    ensures Inv(c, After(c, s, events))
    decreases |events|
  {
    if events != [] {
      StepKeepsInv(c, s, events[0]);
      TokensAccounted(c, Apply(c, s, events[0]), events[1..]);
    }
  }

  // ----- no deadlock

  // A delivery that nobody will take: the channel is full, the parent's loop has ended, and since only a hard
  // abort marks a turn finished, nothing ever gives it up. A panicked turn delivers before it releases its tokens, so
  // it keeps them.
  predicate Leaked(c: Config, s: State, i: nat)
    requires Shape(c, s) && i < |s.turns|
  {
    && (At(c, s, i, Delivering) || At(c, s, i, Panicked))
    && !CanDeliver(c, s, s.turns[i].parent)
    && Over(s.turns[s.turns[i].parent].phase)
  }

  // The turn loop has run and returned.
  predicate Over(ph: Phase) {
    HasStarted(ph) && !ph.Running?
  }

  ghost predicate Settled(c: Config, s: State)
    requires Shape(c, s)
  {
    forall i | 0 <= i < |s.turns| :: Finished(s.turns[i].phase) || Leaked(c, s, i)
  }

  ghost predicate NoPanics(s: State) {
    forall i | 0 <= i < |s.turns| :: !s.turns[i].phase.Panicked?
  }

  // Every panicked spawn finds room for its result.
  ghost predicate PanicsDeliver(c: Config, s: State)
    requires Shape(c, s)
  {
    forall i: nat | i < |s.turns| && At(c, s, i, Panicked) :: CanDeliver(c, s, s.turns[i].parent)
  }

  // The children of a root turn always deliver: it has no channel that could be full.
  lemma ShallowPanicsDeliver(c: Config, s: State)
    requires Inv(c, s) && c.maxDepth <= 1
    ensures PanicsDeliver(c, s)
  {
    forall i: nat | i < |s.turns| && At(c, s, i, Panicked)
      ensures CanDeliver(c, s, s.turns[i].parent)
    {
      assert IsRoot(s, s.turns[i].parent) || IsSpawn(c, s, s.turns[i].parent);
    }
  }

  ghost predicate CanAdvance(c: Config, s: State)
    requires Shape(c, s)
  {
    exists e :: IsAdvance(e) && Enabled(c, s, e)
  }

  // Nobody has to wait for a timeout.
  ghost predicate CanGoOn(c: Config, s: State)
    requires Shape(c, s)
  {
    exists e :: IsAdvance(e) && !e.TimeOut? && Enabled(c, s, e)
  }

  // Some step of the turn, or of the child it waits for, is enabled: there is always the timeout.
  lemma {:induction false} FindExit(c: Config, s: State, i: nat) returns (e: Event)
    requires Inv(c, s) && i < |s.turns|
    requires var ph := s.turns[i].phase; !Finished(ph) && !ph.Delivering? && !ph.Panicked?
    ensures IsAdvance(e) && Enabled(c, s, e)
    decreases |s.turns| - i
  {
    var t := s.turns[i];
    assert IsRoot(s, i) || IsSpawn(c, s, i);
    match t.phase
    case WantSem => e := TimeOut(i);
    case WantSlot => e := if s.turns[t.parent].depth >= c.maxDepth then RejectDepth(i) else TimeOut(i);
    case HasSlot => e := Start(i);
    case Running =>
      assert Waits(s, i);
      if t.sync == -1 {
        e := Finish(i);
      } else {
        assert Waits(s, t.sync) && (IsRoot(s, t.sync) || IsSpawn(c, s, t.sync));
        e := FindExit(c, s, t.sync);
      }
    case Ran => e := ReleaseSem(i);
    case SemReleased => e := ReleaseSlot(i);
    case Unwinding => e := PanicRelease(i);
  }

  function Rank(ph: Phase): nat {
    if ph.WantSem? then 2 else if ph.WantSlot? then 1 else 0
  }

  // Whatever a spawn waits for lies deeper, or is a token whose holder has one reason less to wait: following the
  // waits leads to a step that is enabled.
  lemma {:induction false} FindStep(c: Config, s: State, i: nat) returns (e: Event)
    requires ValidConfig(c) && Inv(c, s) && PanicsDeliver(c, s)
    requires i < |s.turns| && !Finished(s.turns[i].phase) && !s.turns[i].phase.Delivering?
    ensures IsAdvance(e) && !e.TimeOut? && Enabled(c, s, e)
    decreases c.maxDepth + 1 - s.turns[i].depth, Rank(s.turns[i].phase)
  {
    var t := s.turns[i];
    assert IsRoot(s, i) || IsSpawn(c, s, i);
    assert Waits(s, i);
    match t.phase
    case WantSem =>
      if s.sems[t.parent] < c.maxConcurrent {
        e := AcquireSem(i);
      } else {
        var j := SemHolder(s.turns, t.parent);
        assert IsSpawn(c, s, j) by { assert IsRoot(s, j) || IsSpawn(c, s, j); }
        e := FindStep(c, s, j);
      }
    case WantSlot =>
      if s.turns[t.parent].depth >= c.maxDepth {
        e := RejectDepth(i);
      } else if s.pools[t.depth] < c.maxConcurrentGlobal {
        e := AcquireSlot(i);
      } else {
        var j := SlotHolder(s.turns, t.depth);
        e := FindStep(c, s, j);
      }
    case HasSlot => e := Start(i);
    case Running =>
      if t.sync == -1 {
        e := Finish(i);
      } else {
        assert Waits(s, t.sync);
        assert IsSpawn(c, s, t.sync) by { assert IsRoot(s, t.sync) || IsSpawn(c, s, t.sync); }
        e := FindStep(c, s, t.sync);
      }
    case Ran => e := ReleaseSem(i);
    case SemReleased => e := ReleaseSlot(i);
    case Panicked =>
      assert At(c, s, i, Panicked);
      e := Deliver(i);
    case Unwinding => e := PanicRelease(i);
  }

  // Where no step is left every turn has finished or leaks its delivery, and the other way round: timeouts and panics
  // included, nobody waits for good but for a delivery.
  lemma StuckIffSettled(c: Config, s: State)
    requires Inv(c, s)
    ensures !CanAdvance(c, s) <==> Settled(c, s)
  {
    if !CanAdvance(c, s) {
      forall i: nat | i < |s.turns| && !Finished(s.turns[i].phase)
        ensures Leaked(c, s, i)
      {
        if !s.turns[i].phase.Delivering? && !s.turns[i].phase.Panicked? {
          var e := FindExit(c, s, i);
        } else {
          BlockedLeaks(c, s, i);
        }
      }
    }
    if Settled(c, s) {
      SettledIsStuck(c, s);
    }
  }

  lemma BlockedLeaks(c: Config, s: State, i: nat)
    requires Inv(c, s) && !CanAdvance(c, s)
    requires i < |s.turns| && (s.turns[i].phase.Delivering? || s.turns[i].phase.Panicked?)
    ensures Leaked(c, s, i)
  {
    assert IsRoot(s, i) || IsSpawn(c, s, i);
    assert !Enabled(c, s, Deliver(i));
    var p := s.turns[i].parent;
    assert Waits(s, i);
    if s.turns[p].phase.Running? {
      var e := FindExit(c, s, p);
    }
  }

  lemma SettledIsStuck(c: Config, s: State)
    requires Shape(c, s) && Settled(c, s)
    ensures !CanAdvance(c, s)
  {
    forall e | IsAdvance(e)
      ensures !Enabled(c, s, e)
    {
      var i := Subject(e);
      assert i < |s.turns| ==> Finished(s.turns[i].phase) || Leaked(c, s, i);
    }
  }

  // Deadlock freedom: unless a panicked spawn finds its parent's channel full, the same holds without any timeout.
  lemma NoTimeoutNeeded(c: Config, s: State)
    requires ValidConfig(c) && Inv(c, s) && PanicsDeliver(c, s)
    ensures !CanGoOn(c, s) <==> Settled(c, s)
  {
    if !CanGoOn(c, s) {
      if CanAdvance(c, s) {
        var e :| IsAdvance(e) && Enabled(c, s, e);
        var e' := FindStep(c, s, e.i);
      }
      StuckIffSettled(c, s);
    }
    if Settled(c, s) {
      SettledIsStuck(c, s);
    }
  }

  // ----- the steps that are left come to an end

  function PhaseWork(ph: Phase): nat {
    match ph
    case WantSem => 9
    case WantSlot => 8
    case HasSlot => 7
    case Running => 6
    case Ran => 5
    case SemReleased => 4
    case Panicked => 3
    case Delivering => 2
    case Unwinding => 1
    case _ => 0
  }

  function Work(turns: seq<Turn>): nat {
    if turns == [] then 0
    else
      var n := |turns| - 1;
      Work(turns[..n]) + PhaseWork(turns[n].phase) + turns[n].results
  }

  lemma {:induction false} WorkUpdate(turns: seq<Turn>, i: nat, t: Turn)
    requires i < |turns|
    ensures Work(turns[i := t]) ==
              Work(turns) - PhaseWork(turns[i].phase) - turns[i].results + PhaseWork(t.phase) + t.results
  {
    var n := |turns| - 1;
    if i == n {
      assert turns[i := t][..n] == turns[..n];
    } else {
      assert turns[i := t][..n] == turns[..n][i := t];
      WorkUpdate(turns[..n], i, t);
    }
  }

  lemma SetPhaseWork(s: State, i: nat, ph: Phase)
    requires i < |s.turns|
    ensures Work(SetPhase(s, i, ph).turns) == Work(s.turns) - PhaseWork(s.turns[i].phase) + PhaseWork(ph)
  {
    WorkUpdate(s.turns, i, s.turns[i].(phase := ph));
  }

  lemma ReturnWork(s: State, i: nat, ph: Phase)
    requires i < |s.turns| && 0 <= s.turns[i].parent < i
    ensures Work(Return(s, i, ph).turns) == Work(s.turns) - PhaseWork(s.turns[i].phase) + PhaseWork(ph)
  {
    SetPhaseWork(s, i, ph);
    var p := s.turns[i].parent;
    var s' := SetPhase(s, i, ph);
    WorkUpdate(s'.turns, p, s'.turns[p].(sync := -1));
  }

  lemma PutResultWork(c: Config, s: State, p: int)
    requires 0 <= p < |s.turns|
    ensures Work(PutResult(c, s, p).turns) <= Work(s.turns) + 1
  {
    WorkUpdate(s.turns, p, s.turns[p].(results := s.turns[p].results + 1));
  }

  lemma ReturnStepWorks(c: Config, s: State, e: Event)
    requires Inv(c, s) && Enabled(c, s, e) && Returns(e)
    ensures Work(Apply(c, s, e).turns) < Work(s.turns)
  {
    hide Return, Work;
    var i, p := e.i, s.turns[e.i].parent;
    match e
    case RejectDepth(_) => ReturnWork(AddSem(s, p, -1), i, Rejected);
    case TimeOut(_) =>
      ReturnWork(s, i, Rejected);
      ReturnWork(AddSem(s, p, -1), i, Rejected);
    case RejectConfig(_) => ReturnWork(AddSem(AddSlot(s, s.turns[i].depth, -1), p, -1), i, Rejected);
    case ReleaseSlot(_) =>
      ReturnWork(AddSlot(s, s.turns[i].depth, -1), i, Done);
      SetPhaseWork(AddSlot(s, s.turns[i].depth, -1), i, Delivering);
    case PanicRelease(_) => ReturnWork(AddSem(AddSlot(s, s.turns[i].depth, -1), p, -1), i, Done);
  }

  lemma DeliverWorks(c: Config, s: State, e: Event)
    requires Inv(c, s) && Enabled(c, s, e) && e.Deliver?
    ensures Work(Apply(c, s, e).turns) < Work(s.turns)
  {
    hide Return, Work, PutResult, SetPhase;
    var i, p := e.i, s.turns[e.i].parent;
    PutResultMoves(c, s, p, i);
    PutResultWork(c, s, p);
    SetPhaseWork(PutResult(c, s, p), i, Unwinding);
    ReturnWork(PutResult(c, s, p), i, Done);
  }

  // Every such step uses up some of the work that is left.
  lemma AdvanceWorks(c: Config, s: State, e: Event)
    requires Inv(c, s) && Enabled(c, s, e) && IsAdvance(e)
    ensures Work(Apply(c, s, e).turns) < Work(s.turns)
  {
    hide Return, Work;
    if Returns(e) {
      ReturnStepWorks(c, s, e);
    } else if e.Deliver? {
      DeliverWorks(c, s, e);
    } else {
      var i := Subject(e);
      var t := Apply(c, s, e).turns[i];
      WorkUpdate(s.turns, i, t);
    }
  }

  ghost predicate AllAdvance(events: seq<Event>) {
    forall k | 0 <= k < |events| :: IsAdvance(events[k])
  }

  lemma StepKeepsNoPanics(c: Config, s: State, e: Event)
    requires Inv(c, s) && NoPanics(s) && Enabled(c, s, e) && !e.Panic?
    ensures NoPanics(Apply(c, s, e))
  {
    if e.StartRoot? || e.Spawn? {
    } else {
      hide Apply;
      StepMoves(c, s, e);
      assert !s.turns[Subject(e)].phase.Panicked?;
    }
  }

  // When no turn starts, spawns, aborts or panics any more, every schedule of the steps that are left is finite, and
  // where it cannot be continued every turn has finished or leaks its delivery. Without a panic, or when sub-turns
  // have no sub-turns of their own, no timeout is needed for that.
  lemma {:induction false} EverythingDrains(c: Config, s: State, events: seq<Event>)
    requires ValidConfig(c) && Inv(c, s) && IsRun(c, s, events) && AllAdvance(events)
    ensures |events| <= Work(s.turns)
    ensures var end := After(c, s, events);
            && Inv(c, end)
            && (!CanAdvance(c, end) ==> Settled(c, end))
            && (NoPanics(s) || c.maxDepth <= 1 ==> (!CanGoOn(c, end) ==> Settled(c, end)))
    decreases |events|
  {
    if events == [] {
      StuckIffSettled(c, s);
      if NoPanics(s) || c.maxDepth <= 1 {
        if c.maxDepth <= 1 { ShallowPanicsDeliver(c, s); }
        NoTimeoutNeeded(c, s);
      }
    } else {
      var s' := Apply(c, s, events[0]);
      StepKeepsInv(c, s, events[0]);
      if NoPanics(s) { StepKeepsNoPanics(c, s, events[0]); }
      AdvanceWorks(c, s, events[0]);
      assert AllAdvance(events[1..]);
      EverythingDrains(c, s', events[1..]);
    }
  }

  // ----- reachable states

  ghost predicate Reachable(c: Config, s: State) {
    exists events :: IsRun(c, Empty(c), events) && After(c, Empty(c), events) == s
  }

  lemma {:induction false} RunSnoc(c: Config, s: State, events: seq<Event>, e: Event)
    requires IsRun(c, s, events) && Shape(c, After(c, s, events)) && Enabled(c, After(c, s, events), e)
    ensures IsRun(c, s, events + [e]) && After(c, s, events + [e]) == Apply(c, After(c, s, events), e)
    decreases |events|
  {
    if events == [] {
      assert (events + [e])[1..] == [];
    } else {
      assert (events + [e])[1..] == events[1..] + [e];
      RunSnoc(c, Apply(c, s, events[0]), events[1..], e);
    }
  }

  lemma ReachableStep(c: Config, s: State, e: Event)
    requires Reachable(c, s) && Shape(c, s) && Enabled(c, s, e)
    ensures Reachable(c, Apply(c, s, e)) && Shape(c, Apply(c, s, e)) && Inv(c, Apply(c, s, e))
  {
    var events :| IsRun(c, Empty(c), events) && After(c, Empty(c), events) == s;
    RunSnoc(c, Empty(c), events, e);
    EmptyInv(c);
    TokensAccounted(c, Empty(c), events + [e]);
  }

  lemma InvShape(c: Config, s: State)
    requires Inv(c, s)
    ensures Shape(c, s)
  {
  }

  lemma ReachableInv(c: Config, s: State)
    requires Reachable(c, s)
    ensures Inv(c, s)
  {
    var events :| IsRun(c, Empty(c), events) && After(c, Empty(c), events) == s;
    EmptyInv(c);
    TokensAccounted(c, Empty(c), events);
  }

  // ----- deliveries that leak

  // The same turn, in the same phase.
  predicate SameHolder(t: Turn, t': Turn) {
    t'.parent == t.parent && t'.depth == t.depth && t'.phase == t.phase
  }

  // A hard abort lets every delivery to the turn through: nobody waits for it to take a result any more.
  lemma AbortUnblocks(c: Config, s: State, p: nat)
    requires Inv(c, s) && Enabled(c, s, Abort(p))
    ensures p < |Apply(c, s, Abort(p)).turns| && CanDeliver(c, Apply(c, s, Abort(p)), p)
    ensures forall i: nat | i < |s.turns| && s.turns[i].parent == p && At(c, s, i, Delivering) ::
              Shape(c, Apply(c, s, Abort(p))) && Enabled(c, Apply(c, s, Abort(p)), Deliver(i))
  {
    StepKeepsInv(c, s, Abort(p));
    InvShape(c, Apply(c, s, Abort(p)));
    forall i: nat | i < |s.turns| && s.turns[i].parent == p && At(c, s, i, Delivering)
      ensures At(c, Apply(c, s, Abort(p)), i, Delivering)
    {
      SpawnedShape(c, Apply(c, s, Abort(p)), i);
    }
  }

  // Once a delivery has leaked it stays so, whatever else happens: the channel is only read while the parent runs,
  // and only then can the parent be aborted.
  lemma LeakStays(c: Config, s: State, e: Event, i: nat)
    requires Inv(c, s) && Enabled(c, s, e) && i < |s.turns| && Leaked(c, s, i)
    ensures i < |Apply(c, s, e).turns| && Shape(c, Apply(c, s, e)) && Leaked(c, Apply(c, s, e), i)
    ensures SameHolder(s.turns[i], Apply(c, s, e).turns[i])
  {
    var s' := Apply(c, s, e);
    var p := s.turns[i].parent;
    StepKeepsInv(c, s, e);
    assert IsSpawn(c, s, i) && (IsRoot(s, p) || IsSpawn(c, s, p));
    if e.StartRoot? || e.Spawn? {
      assert s'.turns[i] == s.turns[i];
      SpawnLeavesOver(c, s, e, p);
      assert IsRoot(s', i) || IsSpawn(c, s', i);
    } else {
      hide Apply, Inv;
      InvShape(c, s);
      StepMoves(c, s, e);
      LeakNotDelivered(c, s, e, i);
      OverStays(s.turns[p], e, c, s, p);
      ChannelUntouched(c, s, e, p);
      InvShape(c, s');
      assert IsRoot(s', i) || IsSpawn(c, s', i);
    }
  }

  lemma SpawnLeavesOver(c: Config, s: State, e: Event, p: nat)
    requires Inv(c, s) && Enabled(c, s, e) && (e.StartRoot? || e.Spawn?) && p < |s.turns| && Over(s.turns[p].phase)
    ensures Apply(c, s, e).turns[p] == s.turns[p]
  {
  }

  lemma LeakNotDelivered(c: Config, s: State, e: Event, i: nat)
    requires Shape(c, s) && Enabled(c, s, e) && !e.StartRoot? && !e.Spawn? && i < |s.turns| && Leaked(c, s, i)
    ensures NextPhase(s.turns[Subject(e)], e) == s.turns[i].phase || Subject(e) != i
  {
  }

  lemma OverStays(t: Turn, e: Event, c: Config, s: State, p: nat)
    requires Shape(c, s) && Enabled(c, s, e) && !e.StartRoot? && !e.Spawn? && p < |s.turns| && t == s.turns[p]
    requires Over(t.phase)
    ensures Subject(e) == p ==> Over(NextPhase(t, e))
  {
  }

  predicate SameChannel(s: State, s': State, p: nat)
    requires p < |s.turns| && |s'.turns| == |s.turns|
  {
    s'.turns[p].results == s.turns[p].results && s'.turns[p].aborted == s.turns[p].aborted
  }

  // The results and the abort flag of a turn whose loop is over change by deliveries alone, and a full channel takes
  // none.
  lemma ChannelUntouched(c: Config, s: State, e: Event, p: nat)
    requires Shape(c, s) && Enabled(c, s, e) && !e.StartRoot? && !e.Spawn? && p < |s.turns|
    requires Over(s.turns[p].phase) && !CanDeliver(c, s, p)
    ensures |Apply(c, s, e).turns| == |s.turns| && SameChannel(s, Apply(c, s, e), p)
  {
    if Returns(e) {
      ReturnStepChannel(c, s, e, p);
    } else if e.Deliver? {
      DeliverChannel(c, s, e, p);
    } else {
      hide Shape;
    }
  }

  lemma ReturnStepChannel(c: Config, s: State, e: Event, p: nat)
    requires Shape(c, s) && Enabled(c, s, e) && Returns(e) && p < |s.turns|
    ensures |Apply(c, s, e).turns| == |s.turns| && SameChannel(s, Apply(c, s, e), p)
  {
    hide Return;
    var i, q := e.i, s.turns[e.i].parent;
    match e
    case RejectDepth(_) => ReturnResults(AddSem(s, q, -1), i, Rejected);
    case TimeOut(_) =>
      ReturnResults(s, i, Rejected);
      ReturnResults(AddSem(s, q, -1), i, Rejected);
    case RejectConfig(_) => ReturnResults(AddSem(AddSlot(s, s.turns[i].depth, -1), q, -1), i, Rejected);
    case ReleaseSlot(_) => ReturnResults(AddSlot(s, s.turns[i].depth, -1), i, Done);
    case PanicRelease(_) => ReturnResults(AddSem(AddSlot(s, s.turns[i].depth, -1), q, -1), i, Done);
  }

  lemma DeliverChannel(c: Config, s: State, e: Event, p: nat)
    requires Shape(c, s) && Enabled(c, s, e) && e.Deliver? && p < |s.turns| && !CanDeliver(c, s, p)
    ensures |Apply(c, s, e).turns| == |s.turns| && SameChannel(s, Apply(c, s, e), p)
  {
    hide Return;
    var i, q := e.i, s.turns[e.i].parent;
    assert q != p;
    ReturnResults(PutResult(c, s, q), i, Done);
  }

  lemma {:induction false} LeakIsForever(c: Config, s: State, events: seq<Event>, i: nat)
    requires Inv(c, s) && IsRun(c, s, events) && i < |s.turns| && Leaked(c, s, i)
    ensures var s' := After(c, s, events);
            i < |s'.turns| && Shape(c, s') && Leaked(c, s', i) && SameHolder(s.turns[i], s'.turns[i])
    decreases |events|
  {
    hide Leaked, Inv, Enabled, Apply;
    InvShape(c, s);
    if events != [] {
      LeakStays(c, s, events[0], i);
      StepKeepsInv(c, s, events[0]);
      LeakIsForever(c, Apply(c, s, events[0]), events[1..], i);
    }
  }

  // ----- what an allowed spawn can count on

  // A running turn that waits for nobody may spawn in either way, at any depth, and may be aborted or panic.
  lemma RunningTurnMay(c: Config, s: State, p: nat, isAsync: bool)
    requires Inv(c, s) && p < |s.turns| && s.turns[p].phase.Running? && s.turns[p].sync == -1
    ensures Enabled(c, s, Spawn(p, isAsync)) && Enabled(c, s, Abort(p)) && Enabled(c, s, Finish(p))
    ensures s.turns[p].parent >= 0 ==> Enabled(c, s, Panic(p))
    ensures s.turns[p].results > 0 && s.turns[p].parent >= 0 ==> Enabled(c, s, Poll(p))
  {
    assert IsRoot(s, p) || IsSpawn(c, s, p);
  }

  // A spawn waits for the semaphore of its parent exactly while all tokens are taken.
  lemma SemaphoreOpensIff(c: Config, s: State, i: nat)
    requires Inv(c, s) && At(c, s, i, WantSem)
    ensures Enabled(c, s, AcquireSem(i)) <==> s.sems[s.turns[i].parent] < c.maxConcurrent
    ensures Enabled(c, s, TimeOut(i))
  {
  }

  // A spawn past the semaphore is rejected for its depth exactly when it is one level deeper than allowed.
  lemma RejectedForDepthIff(c: Config, s: State, i: nat)
    requires Inv(c, s) && At(c, s, i, WantSlot)
    ensures Enabled(c, s, RejectDepth(i)) <==> s.turns[i].depth == c.maxDepth + 1
    ensures Enabled(c, s, AcquireSlot(i)) <==>
              s.turns[i].depth <= c.maxDepth && s.pools[s.turns[i].depth] < c.maxConcurrentGlobal
    ensures Enabled(c, s, TimeOut(i)) <==> s.turns[i].depth <= c.maxDepth
  {
  }

  // Over every run only spawns of that depth leave that way.
  lemma {:induction false} OnlyTooDeepIsRejected(c: Config, s: State, events: seq<Event>, k: nat)
    requires Inv(c, s) && IsRun(c, s, events) && k < |events| && events[k].RejectDepth?
    ensures var before := After(c, s, Prefix(c, s, events, k));
            events[k].i < |before.turns| && before.turns[events[k].i].depth == c.maxDepth + 1
    decreases |events|
  {
    if k == 0 {
      assert events[..0] == [];
    } else {
      var s' := Apply(c, s, events[0]);
      StepKeepsInv(c, s, events[0]);
      OnlyTooDeepIsRejected(c, s', events[1..], k - 1);
      assert Prefix(c, s, events, k)[1..] == Prefix(c, s', events[1..], k - 1);
    }
  }

  // The first k steps of a run are a run.
  ghost function Prefix(c: Config, s: State, events: seq<Event>, k: nat): (r: seq<Event>)
    requires IsRun(c, s, events) && k <= |events|
    ensures r == events[..k] && IsRun(c, s, r)
    decreases |events|
  {
    if k == 0 then []
    else
      var rest := Prefix(c, Apply(c, s, events[0]), events[1..], k - 1);
      assert events[..k] == [events[0]] + rest && ([events[0]] + rest)[1..] == rest;
      [events[0]] + rest
  }

  lemma SlotStep(c: Config, s: State, i: nat)
    requires Inv(c, s) && At(c, s, i, WantSlot)
    requires s.turns[i].depth <= c.maxDepth && s.pools[s.turns[i].depth] < c.maxConcurrentGlobal
    ensures Enabled(c, s, AcquireSlot(i))
    ensures var d, s' := s.turns[i].depth, Apply(c, s, AcquireSlot(i));
            && s' == State(s.turns[i := s.turns[i].(phase := HasSlot)], s.sems, s.pools[d := s.pools[d] + 1])
            && Inv(c, s') && At(c, s', i, HasSlot)
  {
    StepKeepsInv(c, s, AcquireSlot(i));
    hide Inv;
    InvShape(c, s);
    InvShape(c, Apply(c, s, AcquireSlot(i)));
    SpawnedShape(c, Apply(c, s, AcquireSlot(i)), i);
  }

  // With a free slot two steps make a spawn of an allowed depth run.
  lemma AllowedSpawnStarts(c: Config, s: State, i: nat)
    requires Inv(c, s) && At(c, s, i, WantSlot)
    requires s.turns[i].depth <= c.maxDepth && s.pools[s.turns[i].depth] < c.maxConcurrentGlobal
    ensures IsRun(c, s, [AcquireSlot(i), Start(i)])
    ensures var s' := After(c, s, [AcquireSlot(i), Start(i)]);
            && Inv(c, s') && i < |s'.turns| == |s.turns| && s'.turns[i] == s.turns[i].(phase := Running)
            && s'.sems == s.sems
            && s'.pools == s.pools[s.turns[i].depth := s.pools[s.turns[i].depth] + 1]
  {
    SlotStep(c, s, i);
    var s1 := Apply(c, s, AcquireSlot(i));
    StepKeepsInv(c, s1, Start(i));
    hide Inv;
    InvShape(c, s);
    InvShape(c, s1);
    assert [AcquireSlot(i), Start(i)][1..] == [Start(i)] && [Start(i)][1..] == [];
    assert IsRun(c, Apply(c, s1, Start(i)), []) && IsRun(c, s1, [Start(i)]);
    assert After(c, s1, [Start(i)]) == Apply(c, s1, Start(i));
  }

  // The deepest turn so far runs, and nothing deeper has taken a token.
  ghost predicate Deepest(c: Config, s: State, i: nat, d: nat) {
    && Reachable(c, s) && Inv(c, s) && i == |s.turns| - 1 && d <= c.maxDepth
    && |s.sems| == |s.turns| && |s.pools| == c.maxDepth + 1
    && s.turns[i].phase.Running? && s.turns[i].depth == d && s.sems[i] == 0
    && (d == 0 <==> s.turns[i].parent < 0)
    && forall k | d < k <= c.maxDepth :: s.pools[k] == 0
  }

  lemma RootRuns(c: Config) returns (s: State)
    ensures Deepest(c, s, 0, 0)
  {
    EmptyReachable(c);
    s := Empty(c);
    ReachableStep(c, s, StartRoot);
    s := Apply(c, s, StartRoot);
  }

  // A running turn spawns a child, which gets as far as the pool.
  lemma ChildWaits(c: Config, s: State, p: nat, d: nat) returns (s': State)
    requires ValidConfig(c) && Deepest(c, s, p, d)
    ensures Reachable(c, s') && Inv(c, s') && |s'.turns| == p + 2 && At(c, s', p + 1, WantSlot)
    ensures s'.turns[p + 1].depth == d + 1 && s'.turns[p + 1].parent == p
    ensures |s'.sems| == p + 2 && s'.sems[p + 1] == 0 && s'.pools == s.pools
  {
    hide Inv, Reachable;
    InvShape(c, s);
    ReachableStep(c, s, Spawn(p, true));
    s' := Apply(c, s, Spawn(p, true));
    SpawnedShape(c, s', p + 1);
    if d > 0 {
      ReachableStep(c, s', AcquireSem(p + 1));
      s' := Apply(c, s', AcquireSem(p + 1));
      SpawnedShape(c, s', p + 1);
    }
  }

  lemma ReachableRun2(c: Config, s: State, e: Event, e': Event)
    requires Reachable(c, s) && Inv(c, s) && IsRun(c, s, [e, e'])
    ensures Reachable(c, After(c, s, [e, e']))
  {
    InvShape(c, s);
    ReachableStep(c, s, e);
    assert [e, e'][1..] == [e'] && [e'][1..] == [];
    ReachableStep(c, Apply(c, s, e), e');
    assert After(c, Apply(c, s, e), [e']) == Apply(c, Apply(c, s, e), e');
  }

  // Sub-turns run at every depth that the configuration allows.
  lemma {:induction false} EveryDepthRuns(c: Config, d: nat) returns (s: State, i: nat)
    requires ValidConfig(c) && d <= c.maxDepth
    ensures Deepest(c, s, i, d)
    ensures d > 0 ==> At(c, s, i, Running)
  {
    if d == 0 {
      i := 0;
      s := RootRuns(c);
    } else {
      hide Inv, Reachable, Apply, Enabled, IsRun, After;
      var before, p := EveryDepthRuns(c, d - 1);
      var waiting := ChildWaits(c, before, p, d - 1);
      i := p + 1;
      AllowedSpawnStarts(c, waiting, i);
      ReachableRun2(c, waiting, AcquireSlot(i), Start(i));
      s := After(c, waiting, [AcquireSlot(i), Start(i)]);
      InvShape(c, s);
      SpawnedShape(c, s, i);
      SameLengths(c, s);
    }
  }

  // ----- tokens that are lost

  // The pool of the level is used up by panicked turns whose delivery has leaked.
  ghost predicate PoolLost(c: Config, s: State, d: nat)
    requires Shape(c, s)
  {
    && d <= c.maxDepth
    && s.pools[d] == c.maxConcurrentGlobal
    && forall i | 0 <= i < |s.turns| && HoldsSlot(s.turns[i], d) :: Leaked(c, s, i)
  }

  predicate HoldsSlot(t: Turn, d: nat) {
    t.parent >= 0 && t.depth == d && SlotPhase(t.phase)
  }

  // Every holder of a slot held it before, unless the step is about acquiring one.
  lemma HoldersBefore(c: Config, s: State, e: Event, i: nat, d: nat)
    requires Inv(c, s) && Enabled(c, s, e) && i < |Apply(c, s, e).turns| && HoldsSlot(Apply(c, s, e).turns[i], d)
    ensures i < |s.turns|
    ensures HoldsSlot(s.turns[i], d) || (e == AcquireSlot(i) && s.turns[i].depth == d)
  {
    if e.StartRoot? || e.Spawn? {
      InvShape(c, s);
      NewTurnIsEmpty(c, s, e);
      var turns := Apply(c, s, e).turns;
      assert HoldsSlot(turns[i], d) && (e.StartRoot? ==> turns[|s.turns|].parent == -1);
      assert i < |s.turns| ==> turns[i].depth == s.turns[i].depth;
    } else {
      InvShape(c, s);
      hide Apply, Inv;
      StepMoves(c, s, e);
    }
  }

  lemma PoolStepStays(c: Config, s: State, e: Event, d: nat)
    requires Inv(c, s) && PoolLost(c, s, d) && Enabled(c, s, e)
    ensures Inv(c, Apply(c, s, e)) && PoolLost(c, Apply(c, s, e), d)
  {
    hide Leaked, Apply, Accounted;
    InvShape(c, s);
    StepKeepsInv(c, s, e);
    var s' := Apply(c, s, e);
    InvShape(c, s');
    forall i: nat | i < |s'.turns| && HoldsSlot(s'.turns[i], d)
      ensures Leaked(c, s', i)
    {
      HoldersBefore(c, s, e, i, d);
      LeakStays(c, s, e, i);
    }
    PoolKept(c, s, e, d);
  }

  // Who has leaked keeps its slot, so the pool stays as full as it is.
  lemma PoolKept(c: Config, s: State, e: Event, d: nat)
    requires Inv(c, s) && PoolLost(c, s, d) && Enabled(c, s, e)
    ensures d < |Apply(c, s, e).pools| && Apply(c, s, e).pools[d] == s.pools[d]
  {
    InvShape(c, s);
    if e.StartRoot? || e.Spawn? {
      hide Inv, Leaked;
    } else {
      hide Apply, Inv, Leaked;
      StepMovesTokens(c, s, e);
      var i := Subject(e);
      if HoldsSlot(s.turns[i], d) {
        LeakNotDelivered(c, s, e, i);
      } else {
        AcquiresOnly(c, s, e);
      }
    }
  }

  lemma AcquiresOnly(c: Config, s: State, e: Event)
    requires Shape(c, s) && Enabled(c, s, e) && !e.StartRoot? && !e.Spawn?
    ensures Subject(e) < |s.turns|
    ensures SlotPhase(NextPhase(s.turns[Subject(e)], e)) ==> e.AcquireSlot? || SlotPhase(s.turns[Subject(e)].phase)
  {
  }

  // A lost pool stays lost under every run, and no spawn of its level ever gets past it again.
  lemma {:induction false} PoolStaysLost(c: Config, s: State, events: seq<Event>, d: nat)
    requires Inv(c, s) && IsRun(c, s, events) && PoolLost(c, s, d)
    ensures var s' := After(c, s, events);
            && Shape(c, s') && PoolLost(c, s', d)
            && forall i: nat | i < |s'.turns| && s'.turns[i].depth == d :: !Enabled(c, s', AcquireSlot(i))
    decreases |events|
  {
    hide Inv, Apply;
    InvShape(c, s);
    if events != [] {
      hide PoolLost;
      PoolStepStays(c, s, events[0], d);
      PoolStaysLost(c, Apply(c, s, events[0]), events[1..], d);
    }
  }

  // ----- how it comes to that

  function Root(ph: Phase): Turn {
    Turn(-1, 0, false, ph, -1, 0, false)
  }

  function Parent(p: nat, ph: Phase, n: nat): Turn {
    Turn(p, 1, true, ph, -1, n, false)
  }

  function Child(p: nat, ph: Phase): Turn {
    Turn(p, 2, true, ph, -1, 0, false)
  }

  ghost predicate Extends(b: State, s: State) {
    |b.turns| <= |s.turns| && forall i | 0 <= i < |b.turns| :: s.turns[i] == b.turns[i]
  }

  ghost predicate Base(c: Config, b: State) {
    Reachable(c, b) && Shape(c, b) && c.maxDepth >= 2 && b.pools[1] < c.maxConcurrentGlobal
  }

  // Behind a state b: root turn m runs, its child m + 1 runs and has n undelivered results, k children of that one
  // hold their tokens because they panicked, and every other turn is done.
  ghost predicate Filled(c: Config, b: State, s: State, n: nat, k: nat) {
    && Base(c, b) && Reachable(c, s) && Shape(c, s)
    && var m := |b.turns|;
    && m + 2 <= |s.turns| == |s.sems| && |s.pools| == c.maxDepth + 1
    && Extends(b, s)
    && s.turns[m] == Root(Running) && s.turns[m + 1] == Parent(m, Running, n)
    && s.sems[m + 1] == k && s.pools[2] == b.pools[2] + k && s.pools[1] == b.pools[1] + 1
    && forall i | m + 2 <= i < |s.turns| :: s.turns[i].phase.Done? || s.turns[i] == Child(m + 1, Panicked)
  }

  lemma EmptyReachable(c: Config)
    ensures Reachable(c, Empty(c)) && Shape(c, Empty(c))
  {
    assert IsRun(c, Empty(c), []) && After(c, Empty(c), []) == Empty(c);
  }

  lemma FirstChild(c: Config, b: State) returns (s: State)
    requires ValidConfig(c) && Base(c, b)
    ensures Filled(c, b, s, 0, 0)
  {
    hide Shape, Inv, Reachable;
    var m := |b.turns|;
    SameLengths(c, b);
    ReachableStep(c, b, StartRoot);
    s := Apply(c, b, StartRoot);
    ReachableStep(c, s, Spawn(m, true));
    s := Apply(c, s, Spawn(m, true));
    var turns := b.turns + [Root(Running)];
    assert s.turns == turns + [Parent(m, WantSlot, 0)];
    SpawnedShape(c, s, m + 1);
    ReachableStep(c, s, AcquireSlot(m + 1));
    s := Apply(c, s, AcquireSlot(m + 1));
    assert s.turns == turns + [Parent(m, HasSlot, 0)];
    SpawnedShape(c, s, m + 1);
    ReachableStep(c, s, Start(m + 1));
    s := Apply(c, s, Start(m + 1));
    assert s.turns == turns + [Parent(m, Running, 0)];
  }

  lemma SameLengths(c: Config, s: State)
    requires Shape(c, s)
    ensures |s.sems| == |s.turns| && |s.pools| == c.maxDepth + 1
  {
  }

  lemma SpawnedShape(c: Config, s: State, i: nat)
    requires Shape(c, s) && i < |s.turns| && s.turns[i].parent >= 0
    ensures IsSpawn(c, s, i)
  {
    assert IsRoot(s, i) || IsSpawn(c, s, i);
  }

  // Turn m + 1 spawns a child, which waits for the semaphore.
  lemma SpawnChild(c: Config, b: State, s: State, n: nat, k: nat) returns (s': State, i: nat)
    requires ValidConfig(c) && Filled(c, b, s, n, k)
    ensures i == |s.turns| && Reachable(c, s') && Shape(c, s')
    ensures s' == State(s.turns + [Child(|b.turns| + 1, WantSem)], s.sems + [0], s.pools)
  {
    hide Shape, Inv, Reachable, Extends;
    i := |s.turns|;
    ReachableStep(c, s, Spawn(|b.turns| + 1, true));
    s' := Apply(c, s, Spawn(|b.turns| + 1, true));
  }

  // One step that changes the phase of the last child, and its tokens.
  lemma ChildStep(c: Config, s: State, turns: seq<Turn>, p: nat, ph: Phase, e: Event, ph': Phase) returns (s': State)
    requires Reachable(c, s) && Shape(c, s) && Enabled(c, s, e)
    requires p < |turns| && s.turns == turns + [Child(p, ph)]
    requires e in {AcquireSem(|turns|), AcquireSlot(|turns|), Start(|turns|), Finish(|turns|), ReleaseSem(|turns|),
                   ReleaseSlot(|turns|), Panic(|turns|)}
    requires ph' == NextPhase(Child(p, ph), e)
    ensures Reachable(c, s') && Shape(c, s') && s' == Apply(c, s, e)
    ensures s'.turns == turns + [Child(p, ph')]
  {
    hide Shape, Inv, Reachable, Enabled;
    ReachableStep(c, s, e);
    s' := Apply(c, s, e);
  }

  // Turn m + 1 launches an asynchronous child i, which now runs.
  lemma Launch(c: Config, b: State, s: State, n: nat, k: nat) returns (s': State, i: nat)
    requires ValidConfig(c) && Filled(c, b, s, n, k)
    requires k < c.maxConcurrent && s.pools[2] < c.maxConcurrentGlobal
    ensures i == |s.turns| && Reachable(c, s') && Shape(c, s')
    ensures var p := |b.turns| + 1;
            s' == State(s.turns + [Child(p, Running)], s.sems[p := k + 1] + [0], s.pools[2 := s.pools[2] + 1])
  {
    hide Shape, Inv, Reachable, Extends;
    var p := |b.turns| + 1;
    s', i := SpawnChild(c, b, s, n, k);
    SpawnedShape(c, s', i);
    s' := ChildStep(c, s', s.turns, p, WantSem, AcquireSem(i), WantSlot);
    assert s'.sems == s.sems[p := k + 1] + [0];
    SpawnedShape(c, s', i);
    s' := ChildStep(c, s', s.turns, p, WantSlot, AcquireSlot(i), HasSlot);
    SpawnedShape(c, s', i);
    s' := ChildStep(c, s', s.turns, p, HasSlot, Start(i), Running);
  }

  // The child finishes, gives back its tokens, and is about to deliver.
  lemma LaunchToDelivery(c: Config, b: State, s: State, n: nat) returns (s': State, i: nat)
    requires ValidConfig(c) && Filled(c, b, s, n, 0) && b.pools[2] < c.maxConcurrentGlobal
    ensures i == |s.turns| && Reachable(c, s') && Shape(c, s')
    ensures s' == State(s.turns + [Child(|b.turns| + 1, Delivering)], s.sems + [0], s.pools)
  {
    hide Shape, Inv, Reachable, Extends;
    var p := |b.turns| + 1;
    s', i := Launch(c, b, s, n, 0);
    s' := ChildStep(c, s', s.turns, p, Running, Finish(i), Ran);
    SpawnedShape(c, s', i);
    s' := ChildStep(c, s', s.turns, p, Ran, ReleaseSem(i), SemReleased);
    assert s'.sems == s.sems + [0];
    SpawnedShape(c, s', i);
    s' := ChildStep(c, s', s.turns, p, SemReleased, ReleaseSlot(i), Delivering);
    assert s'.pools == s.pools;
  }

  lemma {:induction false} Fill(c: Config, b: State, n: nat) returns (s: State)
    requires ValidConfig(c) && Base(c, b) && b.pools[2] < c.maxConcurrentGlobal && n <= c.resultCapacity
    ensures Filled(c, b, s, n, 0)
  {
    if n == 0 {
      s := FirstChild(c, b);
    } else {
      hide Shape, Inv, Reachable;
      var before := Fill(c, b, n - 1);
      var i: nat;
      s, i := LaunchToDelivery(c, b, before, n - 1);
      SpawnedShape(c, s, i);
      ReachableStep(c, s, Deliver(i));
      s := Apply(c, s, Deliver(i));
    }
  }

  // The channel of turn m + 1 is full, and k of its children have panicked.
  lemma {:induction false} Crash(c: Config, b: State, k: nat) returns (s: State)
    requires ValidConfig(c) && Base(c, b) && b.pools[2] < c.maxConcurrentGlobal
    requires k <= c.maxConcurrent && b.pools[2] + k <= c.maxConcurrentGlobal
    ensures Filled(c, b, s, c.resultCapacity, k)
  {
    if k == 0 {
      s := Fill(c, b, c.resultCapacity);
    } else {
      hide Shape, Inv, Reachable;
      var before := Crash(c, b, k - 1);
      var i: nat;
      s, i := Launch(c, b, before, c.resultCapacity, k - 1);
      SpawnedShape(c, s, i);
      s := ChildStep(c, s, before.turns, |b.turns| + 1, Running, Panic(i), Panicked);
    }
  }

  // Child i is the last one of turn m + 1 and about to deliver, before or after it gave back its tokens, into the
  // full channel of that turn, which is in phase ph; every other turn is done, but for the root.
  ghost predicate Left(c: Config, b: State, s: State, i: nat, child: Phase, ph: Phase, root: Phase) {
    && Base(c, b) && Reachable(c, s) && Shape(c, s)
    && var m := |b.turns|;
    && m + 2 <= i == |s.turns| - 1 && |s.pools| == c.maxDepth + 1
    && Extends(b, s)
    && s.turns[m] == Root(root) && s.turns[m + 1] == Parent(m, ph, c.resultCapacity)
    && s.turns[i] == Child(m + 1, child)
    && s.pools[2] == b.pools[2] + Bit(SlotPhase(child)) && s.pools[1] == b.pools[1] + Bit(SlotPhase(ph))
    && forall j | m + 2 <= j < i :: s.turns[j].phase.Done?
  }

  lemma LeaveDelivery(c: Config, b: State, full: State) returns (s: State, i: nat)
    requires ValidConfig(c) && Filled(c, b, full, c.resultCapacity, 0) && b.pools[2] < c.maxConcurrentGlobal
    ensures Left(c, b, s, i, Delivering, Running, Running)
  {
    hide Shape, Inv, Reachable;
    s, i := LaunchToDelivery(c, b, full, c.resultCapacity);
    NoneCrashed(c, b, full);
  }

  lemma LeavePanic(c: Config, b: State, full: State) returns (s: State, i: nat)
    requires ValidConfig(c) && Filled(c, b, full, c.resultCapacity, 0) && b.pools[2] < c.maxConcurrentGlobal
    ensures Left(c, b, s, i, Panicked, Running, Running)
  {
    hide Shape, Inv, Reachable;
    s, i := Launch(c, b, full, c.resultCapacity, 0);
    SpawnedShape(c, s, i);
    s := ChildStep(c, s, full.turns, |b.turns| + 1, Running, Panic(i), Panicked);
    NoneCrashed(c, b, full);
  }

  lemma NoneCrashed(c: Config, b: State, s: State)
    requires Filled(c, b, s, c.resultCapacity, 0)
    ensures forall j | |b.turns| + 2 <= j < |s.turns| :: s.turns[j].phase.Done?
  {
    var p := |b.turns| + 1;
    ReachableInv(c, s);
    forall j | p + 1 <= j < |s.turns|
      ensures s.turns[j].phase.Done?
    {
      if s.turns[j] == Child(p, Panicked) {
        HolderCounts(s.turns, p, j);
        assert HasTokens(s, p);
      }
    }
  }

  lemma {:induction false} HolderCounts(turns: seq<Turn>, p: int, j: nat)
    requires j < |turns| && turns[j].parent == p && SemPhase(turns[j].phase)
    ensures SemHolders(turns, p) > 0
  {
    if j < |turns| - 1 {
      HolderCounts(turns[..|turns| - 1], p, j);
    }
  }

  // A child of a root turn holds no token of it and has nowhere to deliver.
  lemma ParentMoves(c: Config, s: State, m: nat, ph: Phase, n: nat, e: Event)
    requires Shape(c, s) && Enabled(c, s, e) && c.maxDepth >= 2
    requires m + 1 < |s.turns| && s.turns[m] == Root(Running) && s.turns[m + 1] == Parent(m, ph, n)
    requires e in {Finish(m + 1), ReleaseSem(m + 1), ReleaseSlot(m + 1), Deliver(m + 1)}
    requires !ph.Panicked?
    ensures var ph' := NextPhase(s.turns[m + 1], e);
            Apply(c, s, e) == State(s.turns[m + 1 := Parent(m, ph', n)], s.sems,
                                    s.pools[1 := s.pools[1] + Bit(SlotPhase(ph')) - Bit(SlotPhase(ph))])
  {
    var s' := Apply(c, s, e);
    var ph' := NextPhase(s.turns[m + 1], e);
    assert s'.turns == s.turns[m + 1 := Parent(m, ph', n)];
    assert s'.pools == s.pools[1 := s.pools[1] + Bit(SlotPhase(ph')) - Bit(SlotPhase(ph))];
  }

  lemma ParentStep(c: Config, b: State, s: State, i: nat, child: Phase, ph: Phase, e: Event) returns (s': State)
    requires Left(c, b, s, i, child, ph, Running) && Enabled(c, s, e)
    requires var p := |b.turns| + 1; e in {Finish(p), ReleaseSem(p), ReleaseSlot(p), Deliver(p)}
    requires !ph.Panicked?
    ensures Left(c, b, s', i, child, NextPhase(s.turns[|b.turns| + 1], e), Running)
  {
    hide Shape, Inv, Reachable, Enabled, Apply;
    ParentMoves(c, s, |b.turns|, ph, c.resultCapacity, e);
    ReachableStep(c, s, e);
    s' := Apply(c, s, e);
  }

  lemma ParentEnds(c: Config, b: State, left: State, i: nat, child: Phase) returns (s: State)
    requires Left(c, b, left, i, child, Running, Running)
    ensures Left(c, b, s, i, child, Done, Done)
  {
    hide Shape, Inv, Reachable, Extends;
    var m := |b.turns|;
    SpawnedShape(c, left, m + 1);
    s := ParentStep(c, b, left, i, child, Running, Finish(m + 1));
    SpawnedShape(c, s, m + 1);
    s := ParentStep(c, b, s, i, child, Ran, ReleaseSem(m + 1));
    SpawnedShape(c, s, m + 1);
    s := ParentStep(c, b, s, i, child, SemReleased, ReleaseSlot(m + 1));
    SpawnedShape(c, s, m + 1);
    s := ParentStep(c, b, s, i, child, Delivering, Deliver(m + 1));
    s := RootEnds(c, b, s, i, child);
  }

  lemma RootEnds(c: Config, b: State, left: State, i: nat, child: Phase) returns (s: State)
    requires Left(c, b, left, i, child, Done, Running)
    ensures Left(c, b, s, i, child, Done, Done)
  {
    hide Shape, Inv, Reachable;
    var m := |b.turns|;
    ReachableStep(c, left, Finish(m));
    s := Apply(c, left, Finish(m));
  }

  // What had leaked in b is still leaked.
  lemma StillLeaked(c: Config, b: State, s: State, i: nat)
    requires Shape(c, b) && Shape(c, s) && Extends(b, s) && i < |b.turns| && Leaked(c, b, i)
    ensures Leaked(c, s, i)
  {
    assert IsRoot(s, i) || IsSpawn(c, s, i);
  }

  lemma LeftSettled(c: Config, b: State, s: State, i: nat, child: Phase)
    requires Left(c, b, s, i, child, Done, Done) && Settled(c, b) && (child.Delivering? || child.Panicked?)
    ensures Settled(c, s) && Leaked(c, s, i)
  {
    hide Inv, Reachable;
    var m := |b.turns|;
    assert IsRoot(s, i) || IsSpawn(c, s, i);
    assert HasTokens(s, m + 1);
    forall j | 0 <= j < |s.turns|
      ensures Finished(s.turns[j].phase) || Leaked(c, s, j)
    {
      if j < m {
        if !Finished(b.turns[j].phase) { StillLeaked(c, b, s, j); }
      } else {
        assert j == m || j == m + 1 || j == i || m + 2 <= j < i;
      }
    }
  }

  lemma EmptyBase(c: Config)
    requires ValidConfig(c) && c.maxDepth >= 2
    ensures Base(c, Empty(c)) && Settled(c, Empty(c)) && Empty(c).pools[1] == Empty(c).pools[2] == 0
  {
    EmptyReachable(c);
  }

  // A turn that ends without a hard abort is never marked finished: a result that did not fit into its channel
  // is delivered to nobody.
  lemma DeliveryLeaks(c: Config) returns (s: State, i: nat)
    requires ValidConfig(c) && c.maxDepth >= 2
    ensures Reachable(c, s) && Inv(c, s)
    ensures Settled(c, s) && i < |s.turns| && Leaked(c, s, i) && s.turns[i].phase.Delivering?
  {
    hide Shape, Inv, Reachable, Filled, Settled, Base;
    var b := Empty(c);
    EmptyBase(c);
    var full := Fill(c, b, c.resultCapacity);
    s, i := LeaveDelivery(c, b, full);
    s := ParentEnds(c, b, s, i, Delivering);
    LeftSettled(c, b, s, i, Delivering);
    ReachableInv(c, s);
  }

  // One panicked child after the other takes a slot of the second level with it, until j are gone.
  lemma {:induction false} LoseSlots(c: Config, j: nat) returns (s: State)
    requires ValidConfig(c) && c.maxDepth >= 2 && j <= c.maxConcurrentGlobal
    ensures Base(c, s) && Settled(c, s) && s.pools[1] == 0 && s.pools[2] == j
  {
    if j == 0 {
      s := Empty(c);
      EmptyBase(c);
    } else {
      hide Shape, Inv, Reachable, Filled, Settled;
      var b := LoseSlots(c, j - 1);
      var full := Fill(c, b, c.resultCapacity);
      var i: nat;
      s, i := LeavePanic(c, b, full);
      s := ParentEnds(c, b, s, i, Panicked);
      LeftSettled(c, b, s, i, Panicked);
    }
  }

  lemma PoolCanBeLost(c: Config) returns (s: State)
    requires ValidConfig(c) && c.maxDepth >= 2
    ensures Reachable(c, s) && Inv(c, s) && Settled(c, s) && PoolLost(c, s, 2)
  {
    s := LoseSlots(c, c.maxConcurrentGlobal);
    ReachableInv(c, s);
  }

  lemma ShallowNeverLeaks(c: Config, s: State, i: nat)
    requires Inv(c, s) && c.maxDepth <= 1 && i < |s.turns|
    ensures !Leaked(c, s, i)
  {
    if At(c, s, i, Delivering) || At(c, s, i, Panicked) {
      var p := s.turns[i].parent;
      assert IsRoot(s, p) || IsSpawn(c, s, p);
    }
  }

  // Deliveries can leak exactly when sub-turns can have sub-turns of their own.
  lemma LeakIff(c: Config)
    requires ValidConfig(c)
    ensures (exists s, i: nat :: Reachable(c, s) && Shape(c, s) && i < |s.turns| && Leaked(c, s, i)) <==>
              c.maxDepth >= 2
  {
    hide Shape, Inv, Reachable, Leaked;
    if c.maxDepth >= 2 {
      var s, i := DeliveryLeaks(c);
      InvShape(c, s);
    } else {
      forall s, i: nat | Reachable(c, s) && Shape(c, s) && i < |s.turns|
        ensures !Leaked(c, s, i)
      {
        ReachableInv(c, s);
        ShallowNeverLeaks(c, s, i);
      }
    }
  }

  // Under the same condition a whole pool of the process can be lost for good.
  lemma PoolLossIff(c: Config)
    requires ValidConfig(c)
    ensures (exists s, d: nat :: Reachable(c, s) && Shape(c, s) && PoolLost(c, s, d)) <==> c.maxDepth >= 2
  {
    hide Shape, Inv, Reachable, PoolLost;
    if c.maxDepth >= 2 {
      var s := PoolCanBeLost(c);
      InvShape(c, s);
    } else {
      forall s, d: nat | Reachable(c, s) && Shape(c, s)
        ensures !PoolLost(c, s, d)
      {
        ReachableInv(c, s);
        ShallowKeepsPool(c, s, d);
      }
    }
  }

  lemma ShallowKeepsPool(c: Config, s: State, d: nat)
    requires ValidConfig(c) && Inv(c, s) && c.maxDepth <= 1
    ensures !PoolLost(c, s, d)
  {
    if PoolLost(c, s, d) {
      var j := SlotHolder(s.turns, d);
      assert HoldsSlot(s.turns[j], d);
      ShallowNeverLeaks(c, s, j);
    }
  }

  // ----- where only a timeout helps

  // Turn 1 waits for a synchronous child, which waits for a token that only panicked children hold.
  ghost predicate Jammed(c: Config, s: State, i: nat) {
    && Shape(c, s) && c.maxDepth >= 2 && 2 <= i == |s.turns| - 1
    && s.turns[0].phase.Done?
    && s.turns[1] == Turn(0, 1, true, Running, i, c.resultCapacity, false)
    && (|| (s.turns[i] == Turn(1, 2, false, WantSem, -1, 0, false) && s.sems[1] >= c.maxConcurrent)
        || (s.turns[i] == Turn(1, 2, false, WantSlot, -1, 0, false) && s.pools[2] >= c.maxConcurrentGlobal))
    && (forall j | 2 <= j < i :: s.turns[j].phase.Done? || s.turns[j] == Child(1, Panicked))
  }

  lemma JammedIsStuck(c: Config, s: State, i: nat)
    requires Jammed(c, s, i)
    ensures !CanGoOn(c, s) && !Settled(c, s)
  {
    assert !Finished(s.turns[1].phase) && !Leaked(c, s, 1);
    forall e | IsAdvance(e) && !e.TimeOut?
      ensures !Enabled(c, s, e)
    {
      var j := Subject(e);
      assert j < |s.turns| ==> j == 0 || j == 1 || j == i || (2 <= j < i);
    }
  }

  // When the parent's result channel is full, panicked children hold all tokens of a kind, and the parent waits for
  // one of them, nothing but the timeout of that wait goes on.
  lemma PanicNeedsTimeout(c: Config) returns (s: State)
    requires ValidConfig(c) && c.maxDepth >= 2
    ensures Reachable(c, s) && Inv(c, s)
    ensures !CanGoOn(c, s) && !Settled(c, s)
  {
    hide Shape, Inv, Reachable, CanGoOn, Settled;
    var k := if c.maxConcurrent <= c.maxConcurrentGlobal then c.maxConcurrent else c.maxConcurrentGlobal;
    EmptyBase(c);
    var full := Crash(c, Empty(c), k);
    var i := |full.turns|;
    ReachableStep(c, full, Finish(0));
    s := Apply(c, full, Finish(0));
    ReachableStep(c, s, Spawn(1, false));
    s := Apply(c, s, Spawn(1, false));
    if c.maxConcurrent > c.maxConcurrentGlobal {
      SpawnedShape(c, s, i);
      ReachableStep(c, s, AcquireSem(i));
      s := Apply(c, s, AcquireSem(i));
    }
    assert Jammed(c, s, i);
    JammedIsStuck(c, s, i);
  }

  // The order of release and delivery is meant to make waits end without their timeout. With panics it does so exactly
  // when sub-turns cannot have sub-turns of their own.
  lemma TimeoutNeededIff(c: Config)
    requires ValidConfig(c)
    ensures (exists s :: Reachable(c, s) && Shape(c, s) && !CanGoOn(c, s) && !Settled(c, s)) <==> c.maxDepth >= 2
  {
    hide Shape, Inv, Reachable, CanGoOn, Settled;
    if c.maxDepth >= 2 {
      var s := PanicNeedsTimeout(c);
      InvShape(c, s);
    } else {
      forall s | Reachable(c, s) && Shape(c, s) && !CanGoOn(c, s)
        ensures Settled(c, s)
      {
        ReachableInv(c, s);
        ShallowPanicsDeliver(c, s);
        NoTimeoutNeeded(c, s);
      }
    }
  }

  // ----- turns with few children

  function AsyncChildren(turns: seq<Turn>, p: int): nat {
    if turns == [] then 0
    else
      var n := |turns| - 1;
      AsyncChildren(turns[..n], p) + (if turns[n].parent == p && turns[n].isAsync then 1 else 0)
  }

  predicate HasDelivered(t: Turn, p: int) {
    t.parent == p && t.isAsync && (t.phase.Done? || t.phase.Unwinding?)
  }

  function Deliveries(turns: seq<Turn>, p: int): nat {
    if turns == [] then 0
    else
      var n := |turns| - 1;
      Deliveries(turns[..n], p) + (if HasDelivered(turns[n], p) then 1 else 0)
  }

  // No channel holds more results than children have delivered.
  ghost predicate Received(s: State) {
    forall p | 0 <= p < |s.turns| :: s.turns[p].results <= Deliveries(s.turns, p)
  }

  // Deliveries only grow, and by those that were not counted before.
  lemma {:induction false} DeliveriesGrow(turns: seq<Turn>, turns': seq<Turn>, p: int, i: nat)
    requires |turns| == |turns'|
    requires forall k | 0 <= k < |turns| :: HasDelivered(turns[k], p) ==> HasDelivered(turns'[k], p)
    ensures Deliveries(turns', p) >= Deliveries(turns, p)
    ensures i < |turns| && HasDelivered(turns'[i], p) && !HasDelivered(turns[i], p) ==>
              Deliveries(turns', p) > Deliveries(turns, p)
  {
    if turns != [] {
      var n := |turns| - 1;
      DeliveriesGrow(turns[..n], turns'[..n], p, i);
    }
  }

  // A child that has not delivered is not among the deliveries.
  lemma {:induction false} Undelivered(turns: seq<Turn>, p: int, i: nat)
    requires i < |turns|
    ensures Deliveries(turns, p) <= AsyncChildren(turns, p)
    ensures turns[i].parent == p && turns[i].isAsync && !HasDelivered(turns[i], p) ==>
              Deliveries(turns, p) < AsyncChildren(turns, p)
  {
    var n := |turns| - 1;
    if n > 0 {
      Undelivered(turns[..n], p, if i < n then i else 0);
    }
  }

  // Only a delivery puts a result into a channel.
  ghost predicate ChannelsMoved(s: State, s': State, e: Event) {
    && |s'.turns| == |s.turns|
    && forall k: nat | k < |s.turns| ::
         s'.turns[k].results <= s.turns[k].results
                                + (if e.Deliver? && e.i < |s.turns| && s.turns[e.i].parent == k then 1 else 0)
  }

  lemma PlainMovesChannels(c: Config, s: State, e: Event)
    requires Shape(c, s) && Enabled(c, s, e) && !e.StartRoot? && !e.Spawn? && !Returns(e) && !e.Deliver?
    ensures ChannelsMoved(s, Apply(c, s, e), e)
  {
    hide Shape;
  }

  lemma PutResultMovesChannels(c: Config, s: State, q: int)
    requires 0 <= q < |s.turns|
    ensures |PutResult(c, s, q).turns| == |s.turns|
    ensures forall k | 0 <= k < |s.turns| ::
              PutResult(c, s, q).turns[k].results <= s.turns[k].results + (if k == q then 1 else 0)
  {
  }

  lemma DeliverMovesChannels(c: Config, s: State, e: Event)
    requires Shape(c, s) && Enabled(c, s, e) && e.Deliver?
    ensures ChannelsMoved(s, Apply(c, s, e), e)
  {
    hide Return, PutResult, CanDeliver;
    var q := s.turns[e.i].parent;
    PutResultMoves(c, s, q, e.i);
    PutResultMovesChannels(c, s, q);
    ReturnResults(PutResult(c, s, q), e.i, Done);
  }

  lemma StepMovesChannels(c: Config, s: State, e: Event)
    requires Shape(c, s) && Enabled(c, s, e) && !e.StartRoot? && !e.Spawn?
    ensures ChannelsMoved(s, Apply(c, s, e), e)
  {
    hide Apply;
    if Returns(e) {
      ReturnStepMoves(c, s, e);
      forall k: nat | k < |s.turns|
        ensures Apply(c, s, e).turns[k].results == s.turns[k].results
      {
        ReturnStepChannel(c, s, e, k);
      }
    } else if e.Deliver? {
      DeliverMovesChannels(c, s, e);
    } else {
      PlainMovesChannels(c, s, e);
    }
  }

  lemma MoveKeepsReceived(c: Config, s: State, e: Event)
    requires Inv(c, s) && Received(s) && Enabled(c, s, e) && !e.StartRoot? && !e.Spawn?
    ensures Received(Apply(c, s, e))
  {
    hide Apply, Inv;
    InvShape(c, s);
    var s' := Apply(c, s, e);
    var i := Subject(e);
    StepMoves(c, s, e);
    StepSyncMoved(c, s, e);
    StepMovesChannels(c, s, e);
    DeliveredStays(c, s, e);
    forall p | 0 <= p < |s'.turns|
      ensures s'.turns[p].results <= Deliveries(s'.turns, p)
    {
      DeliveriesGrow(s.turns, s'.turns, p, i);
      if e.Deliver? && s.turns[i].parent == p {
        DelivererIsAsync(c, s, e);
      }
    }
  }

  lemma DelivererIsAsync(c: Config, s: State, e: Event)
    requires Inv(c, s) && Enabled(c, s, e) && e.Deliver?
    ensures s.turns[e.i].isAsync
    ensures NextPhase(s.turns[e.i], e).Done? || NextPhase(s.turns[e.i], e).Unwinding?
    ensures !s.turns[e.i].phase.Done? && !s.turns[e.i].phase.Unwinding?
  {
    assert Waits(s, e.i);
  }

  lemma DeliveredStays(c: Config, s: State, e: Event)
    requires Shape(c, s) && Enabled(c, s, e) && !e.StartRoot? && !e.Spawn?
    ensures Subject(e) < |s.turns|
    ensures var t := s.turns[Subject(e)];
            t.phase.Done? || t.phase.Unwinding? ==> NextPhase(t, e).Done? || NextPhase(t, e).Unwinding?
  {
  }

  // A new turn has neither delivered nor received anything.
  lemma NewTurnIsEmpty(c: Config, s: State, e: Event)
    requires Shape(c, s) && Enabled(c, s, e) && (e.StartRoot? || e.Spawn?)
    ensures var turns := Apply(c, s, e).turns;
            && |turns| == |s.turns| + 1
            && turns[|s.turns|].results == 0
            && (turns[|s.turns|].phase.Running? || turns[|s.turns|].phase.WantSem? || turns[|s.turns|].phase.WantSlot?)
            && forall k | 0 <= k < |s.turns| ::
                 && turns[k].parent == s.turns[k].parent && turns[k].isAsync == s.turns[k].isAsync
                 && turns[k].phase == s.turns[k].phase && turns[k].results == s.turns[k].results
  {
    hide Shape;
  }

  lemma GrowKeepsReceived(c: Config, s: State, e: Event)
    requires Shape(c, s) && Received(s) && Enabled(c, s, e) && (e.StartRoot? || e.Spawn?)
    ensures Received(Apply(c, s, e))
  {
    hide Apply, Enabled, Shape;
    NewTurnIsEmpty(c, s, e);
    var turns, n := Apply(c, s, e).turns, |s.turns|;
    forall p | 0 <= p < |turns|
      ensures turns[p].results <= Deliveries(turns, p)
    {
      if p < n {
        DeliveriesGrow(s.turns, turns[..n], p, 0);
      }
    }
  }

  lemma {:induction false} RunKeepsReceived(c: Config, s: State, events: seq<Event>)
    requires Inv(c, s) && Received(s) && IsRun(c, s, events)
    ensures Received(After(c, s, events))
    decreases |events|
  {
    hide Inv, Received, Apply, Enabled;
    if events != [] {
      var e := events[0];
      if e.StartRoot? || e.Spawn? {
        InvShape(c, s);
        GrowKeepsReceived(c, s, e);
      } else {
        MoveKeepsReceived(c, s, e);
      }
      StepKeepsInv(c, s, e);
      RunKeepsReceived(c, Apply(c, s, e), events[1..]);
    }
  }

  // A turn with no more asynchronous children than its channel has room for takes every result at once: none of its
  // deliveries leaks, and a panicked child of it never holds on to its tokens.
  lemma FewChildrenDeliver(c: Config, s: State, i: nat)
    requires Reachable(c, s) && Inv(c, s) && i < |s.turns|
    requires At(c, s, i, Delivering) || At(c, s, i, Panicked)
    requires AsyncChildren(s.turns, s.turns[i].parent) <= c.resultCapacity
    ensures CanDeliver(c, s, s.turns[i].parent) && !Leaked(c, s, i)
  {
    hide Inv;
    InvShape(c, s);
    var events :| IsRun(c, Empty(c), events) && After(c, Empty(c), events) == s;
    EmptyInv(c);
    RunKeepsReceived(c, Empty(c), events);
    var p := s.turns[i].parent;
    assert Waits(s, i) by { AllWaiting(c, s, i); }
    Undelivered(s.turns, p, i);
  }

  lemma AllWaiting(c: Config, s: State, i: nat)
    requires Inv(c, s) && i < |s.turns|
    ensures Waits(s, i)
  {
  }
}
