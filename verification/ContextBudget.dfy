/**
 Turn boundaries, safe cuts, and the loop that drops whole turns until the built prompt fits the context
 window. Token estimates and the prompt builder are parameters.
 */
module ContextBudget {
  import opened Messages
  import opened Sanitizer

  // The indices of the user messages at or behind `from`, in ascending order.
  function TurnsFrom(h: seq<Msg>, from: nat): seq<nat>
    requires from <= |h|
    decreases |h| - from
  {
    if from == |h| then []
    else if IsUser(h[from]) then [from] + TurnsFrom(h, from + 1)
    else TurnsFrom(h, from + 1)
  }

  function Turns(h: seq<Msg>): seq<nat> {
    TurnsFrom(h, 0)
  }

  // The first user message at or behind `from`, or the end.
  function NextUser(h: seq<Msg>, from: nat): (k: nat)
    requires from <= |h|
    ensures from <= k <= |h|
    ensures k < |h| ==> IsUser(h[k])
    ensures forall i | from <= i < k :: !IsUser(h[i])
    decreases |h| - from
  {
    if from == |h| || IsUser(h[from]) then from else NextUser(h, from + 1)
  }

  lemma {:induction false} TurnsUnfold(h: seq<Msg>, from: nat)
    requires from <= |h|
    ensures NextUser(h, from) == |h| ==> TurnsFrom(h, from) == []
    ensures NextUser(h, from) < |h| ==>
              TurnsFrom(h, from) == [NextUser(h, from)] + TurnsFrom(h, NextUser(h, from) + 1)
    decreases |h| - from
  {
    if from < |h| && !IsUser(h[from]) {
      TurnsUnfold(h, from + 1);
    }
  }

  // The boundaries are exactly the user messages, in ascending order.
  lemma {:induction false} TurnsAreUsers(h: seq<Msg>, from: nat)
    requires from <= |h|
    ensures forall t | t in TurnsFrom(h, from) :: from <= t < |h| && IsUser(h[t])
    ensures forall t | from <= t < |h| && IsUser(h[t]) :: t in TurnsFrom(h, from)
    ensures forall a, b | 0 <= a < b < |TurnsFrom(h, from)| :: TurnsFrom(h, from)[a] < TurnsFrom(h, from)[b]
    decreases |h| - from
  {
    if from < |h| {
      TurnsAreUsers(h, from + 1);
      var later := TurnsFrom(h, from + 1);
      if IsUser(h[from]) {
        forall a, b | 0 <= a < b < |[from] + later|
          ensures ([from] + later)[a] < ([from] + later)[b]
        {
          assert ([from] + later)[b] == later[b - 1];
          assert later[b - 1] in later;
        }
      }
    }
  }

  method ParseTurnBoundaries(history: seq<Msg>) returns (starts: seq<nat>)
    ensures starts == Turns(history)
  {
    starts := [];
    for i := 0 to |history|
      invariant starts + TurnsFrom(history, i) == Turns(history)
    {
      if IsUser(history[i]) {
        assert starts + ([i] + TurnsFrom(history, i + 1)) == (starts + [i]) + TurnsFrom(history, i + 1);
        starts := starts + [i];
      }
    }
  }

  // A position where a cut splits no turn: before a user message, or at the end.
  predicate TurnAligned(h: seq<Msg>, k: nat) {
    k == |h| || (k < |h| && IsUser(h[k]))
  }

  predicate Cut(h: seq<Msg>, k: nat) {
    k == 0 || TurnAligned(h, k)
  }

  predicate UserIn(h: seq<Msg>, lo: int, hi: int) {
    exists t | 0 <= t < |h| :: lo <= t < hi && IsUser(h[t])
  }

  // The nearest boundary at or before the target, else the first one after it; 0 says that the history is one
  // turn, and the target itself comes back only when there is no user message at all.
  method FindSafeBoundary(history: seq<Msg>, target: int) returns (cut: nat)
    ensures cut <= |history|
    ensures history == [] || target <= 0 ==> cut == 0
    ensures history != [] && target >= |history| ==> cut == |history|
    ensures 0 < target < |history| ==>
              if !UserIn(history, 0, |history|) then cut == target
              else if UserIn(history, 1, target + 1) then
                0 < cut <= target && IsUser(history[cut]) && !UserIn(history, cut + 1, target + 1)
              else if UserIn(history, target + 1, |history|) then
                target < cut < |history| && IsUser(history[cut]) && !UserIn(history, target + 1, cut)
              else cut == 0
  {
    if history == [] || target <= 0 {
      return 0;
    }
    if target >= |history| {
      return |history|;
    }
    var turns := ParseTurnBoundaries(history);
    TurnsAreUsers(history, 0);
    if turns == [] {
      return target;
    }
    assert turns[0] in turns;
    var backward := LastAtMost(turns, target);
    if backward > 0 {
      assert backward in turns;
      return backward;
    }
    for k := 0 to |turns|
      invariant forall j | 0 <= j < k :: turns[j] <= target
    {
      if turns[k] > target {
        assert turns[k] in turns;
        return turns[k];
      }
    }
    return 0;
  }

  // The last boundary at or before the target, or -1.
  method LastAtMost(turns: seq<nat>, target: int) returns (backward: int)
    requires forall a, b | 0 <= a < b < |turns| :: turns[a] < turns[b]
    ensures backward == -1 || (backward in turns && backward <= target)
    ensures forall k | 0 <= k < |turns| && turns[k] <= target :: turns[k] <= backward
  {
    backward := -1;
    for k := 0 to |turns|
      invariant backward == -1 || (backward in turns && backward <= target)
      invariant backward == -1 || backward in turns[..k]
      invariant forall j | 0 <= j < k && turns[j] <= target :: turns[j] <= backward
    {
      if turns[k] <= target {
        backward := turns[k];
      }
    }
  }

  // ----- the budget

  function TotalTokens(messages: seq<Msg>, tokens: Msg -> nat): nat {
    if messages == [] then 0 else tokens(messages[0]) + TotalTokens(messages[1..], tokens)
  }

  datatype Budget = Budget(window: int, toolTokens: nat, maxTokens: int, tokens: Msg -> nat)

  predicate Fits(b: Budget, messages: seq<Msg>) {
    TotalTokens(messages, b.tokens) + b.toolTokens + b.maxTokens <= b.window
  }

  // The room in the window is shared by the tool definitions, the reserve for the output, and every message.
  lemma RoomIsShared(b: Budget, h: seq<Msg>, m: Msg, n: nat)
    ensures Fits(b, []) <==> b.toolTokens + b.maxTokens <= b.window
    ensures Fits(b, [m] + h) <==> Fits(b.(window := b.window - b.tokens(m)), h)
    ensures Fits(b.(toolTokens := b.toolTokens + n), h) <==> Fits(b.(window := b.window - n), h)
    ensures Fits(b.(maxTokens := b.maxTokens + n), h) <==> Fits(b.(window := b.window - n), h)
  {
    assert ([m] + h)[1..] == h;
  }

  function FitsBuilt(b: Budget, build: seq<Msg> -> seq<Msg>): seq<Msg> -> bool {
    history => Fits(b, build(history))
  }

  method IsOverContextBudget(b: Budget, messages: seq<Msg>) returns (over: bool)
    ensures over == !Fits(b, messages)
  {
    var msgTokens := 0;
    for i := 0 to |messages|
      invariant msgTokens + TotalTokens(messages[i..], b.tokens) == TotalTokens(messages, b.tokens)
    {
      assert messages[i..][1..] == messages[i + 1..];
      msgTokens := msgTokens + b.tokens(messages[i]);
    }
    over := msgTokens + b.toolTokens + b.maxTokens > b.window;
  }

  function NextTrimStart(h: seq<Msg>): nat {
    var turns := Turns(h);
    if |turns| >= 2 then turns[1]
    else if |turns| == 1 && turns[0] > 0 then turns[0]
    else |h|
  }

  // The positions the trim loop tries, in order: the whole history, then cut after cut down to the empty one.
  predicate Tried(h: seq<Msg>, k: nat) {
    Cut(h, k) && (0 < k < |h| && k == FirstTurn(h) ==> |Turns(h)| == 1)
  }

  function FirstTurn(h: seq<Msg>): nat {
    NextUser(h, 0)
  }

  function SecondTurn(h: seq<Msg>): nat {
    if FirstTurn(h) == |h| then |h| else NextUser(h, FirstTurn(h) + 1)
  }

  lemma TrimStartUnfold(h: seq<Msg>)
    ensures NextTrimStart(h) ==
              if SecondTurn(h) < |h| then SecondTurn(h)
              else if 0 < FirstTurn(h) < |h| then FirstTurn(h)
              else |h|
    ensures |Turns(h)| >= 2 <==> SecondTurn(h) < |h|
    ensures |Turns(h)| == 1 <==> FirstTurn(h) < |h| == SecondTurn(h)
    ensures |Turns(h)| >= 1 ==> Turns(h)[0] == FirstTurn(h)
    ensures |Turns(h)| >= 2 ==> Turns(h)[1] == SecondTurn(h)
  {
    TurnsUnfold(h, 0);
    if FirstTurn(h) < |h| {
      TurnsUnfold(h, FirstTurn(h) + 1);
    }
  }

  lemma {:induction false} NextUserDrop(h: seq<Msg>, k: nat, from: nat)
    requires k <= from <= |h|
    ensures NextUser(h[k..], from - k) + k == NextUser(h, from)
    decreases |h| - from
  {
    if from < |h| {
      NextUserDrop(h, k, from + 1);
    }
  }

  // From one tried position the loop goes to the next one: no tried position lies in between.
  lemma NextTried(h: seq<Msg>, k: nat)
    requires k < |h| && Tried(h, k)
    ensures k < k + NextTrimStart(h[k..]) <= |h|
    ensures Tried(h, k + NextTrimStart(h[k..]))
    ensures forall j | k < j < k + NextTrimStart(h[k..]) :: !Tried(h, j)
  {
    TrimStartUnfold(h);
    TrimStartUnfold(h[k..]);
    NextUserDrop(h, k, k);
    var first := NextUser(h, k);
    if first < |h| {
      NextUserDrop(h, k, first + 1);
    }
    assert k == 0 || first == k;
  }

  // ----- what a trimmed history is

  ghost predicate NoneBefore(h: seq<Msg>, fits: seq<Msg> -> bool, k: nat)
    requires k <= |h|
  {
    forall j: nat | j < k && Cut(h, j) :: !fits(h[j..])
  }

  ghost predicate NoneTriedBefore(h: seq<Msg>, fits: seq<Msg> -> bool, k: nat)
    requires k <= |h|
  {
    forall j: nat | j < k && Tried(h, j) :: !fits(h[j..])
  }

  // kept is the longest turn-aligned suffix (the whole history included) that `fits` accepts.
  ghost predicate LongestAligned(h: seq<Msg>, fits: seq<Msg> -> bool, kept: seq<Msg>) {
    exists k: nat | k <= |h| && Cut(h, k) :: kept == h[k..] && fits(kept) && NoneBefore(h, fits, k)
  }

  ghost predicate FirstTriedFit(h: seq<Msg>, fits: seq<Msg> -> bool, kept: seq<Msg>) {
    exists k: nat | k <= |h| && Tried(h, k) :: kept == h[k..] && fits(kept) && NoneTriedBefore(h, fits, k)
  }

  // The loop steps over the first of several turns when something precedes it.
  predicate SkipsFirstTurn(h: seq<Msg>) {
    |Turns(h)| >= 2 && h != [] && !IsUser(h[0])
  }

  lemma TriedIsAligned(h: seq<Msg>, k: nat)
    requires k <= |h|
    ensures Tried(h, k) ==> Cut(h, k)
    ensures !SkipsFirstTurn(h) ==> (Tried(h, k) <==> Cut(h, k))
  {
    TrimStartUnfold(h);
  }

  lemma TrimIsLongest(h: seq<Msg>, fits: seq<Msg> -> bool, kept: seq<Msg>)
    requires FirstTriedFit(h, fits, kept)
    requires !SkipsFirstTurn(h)
    ensures LongestAligned(h, fits, kept)
  {
    var k: nat :| k <= |h| && Tried(h, k) && kept == h[k..] && fits(kept) && NoneTriedBefore(h, fits, k);
    TriedIsAligned(h, k);
    forall j: nat | j < k && Cut(h, j)
      ensures !fits(h[j..])
    {
      TriedIsAligned(h, j);
    }
    assert NoneBefore(h, fits, k);
  }

  lemma TrimSkipsATurn(h: seq<Msg>)
    requires SkipsFirstTurn(h)
    ensures SecondTurn(h) < |h|
    ensures var fits := (s: seq<Msg>) => |s| <= |h| - FirstTurn(h);
            && FirstTriedFit(h, fits, h[SecondTurn(h)..])
            && !LongestAligned(h, fits, h[SecondTurn(h)..])
  {
    TrimStartUnfold(h);
    var fits := (s: seq<Msg>) => |s| <= |h| - FirstTurn(h);
    var k := SecondTurn(h);
    assert NoneTriedBefore(h, fits, k);
    forall i: nat | i <= |h| && Cut(h, i) && h[k..] == h[i..]
      ensures !NoneBefore(h, fits, i)
    {
      assert |h[k..]| == |h| - k && |h[i..]| == |h| - i;
      assert Cut(h, FirstTurn(h)) && fits(h[FirstTurn(h)..]);
    }
  }

  // Trimming yields the longest fitting turn-aligned suffix for every prompt builder and budget if and only if
  // the history starts with a user message or has at most one turn.
  lemma TrimIsLongestIff(h: seq<Msg>)
    ensures (forall fits: seq<Msg> -> bool, kept: seq<Msg> ::
               FirstTriedFit(h, fits, kept) ==> LongestAligned(h, fits, kept)) <==> !SkipsFirstTurn(h)
  {
    if SkipsFirstTurn(h) {
      TrimSkipsATurn(h);
    } else {
      forall fits: seq<Msg> -> bool, kept: seq<Msg> | FirstTriedFit(h, fits, kept)
        ensures LongestAligned(h, fits, kept)
      {
        TrimIsLongest(h, fits, kept);
      }
    }
  }

  // The cut the loop is at: everything tried before it is too long.
  ghost predicate Reached(h: seq<Msg>, fits: seq<Msg> -> bool, k: nat, kept: seq<Msg>) {
    k <= |h| && Tried(h, k) && NoneTriedBefore(h, fits, k) && kept == h[k..]
  }

  ghost predicate TrimResult(h: seq<Msg>, fits: seq<Msg> -> bool, kept: seq<Msg>, fit: bool) {
    if fit then FirstTriedFit(h, fits, kept) else kept == [] && !fits([]) && NoneTriedBefore(h, fits, |h|)
  }

  ghost predicate SomeTriedFits(h: seq<Msg>, fits: seq<Msg> -> bool) {
    exists k: nat :: k <= |h| && Tried(h, k) && fits(h[k..])
  }

  // The trim succeeds exactly when some tried slice fits; that is not the same as the empty history fitting, unless
  // whatever fits still fits when everything is dropped.
  lemma TrimFitsIff(h: seq<Msg>, fits: seq<Msg> -> bool)
    ensures forall kept, fit :: TrimResult(h, fits, kept, fit) ==> (fit <==> SomeTriedFits(h, fits))
    ensures (forall k: nat | k <= |h| && Tried(h, k) && fits(h[k..]) :: fits([])) ==>
              (SomeTriedFits(h, fits) <==> fits([]))
  {
    assert Tried(h, |h|) && h[|h|..] == [];
  }

  lemma TrimStep(h: seq<Msg>, fits: seq<Msg> -> bool, k: nat, kept: seq<Msg>)
    requires Reached(h, fits, k, kept) && kept != [] && !fits(kept)
    ensures var n := NextTrimStart(kept);
            0 < n <= |kept| && Reached(h, fits, k + n, kept[n..])
  {
    NextTried(h, k);
    var n := NextTrimStart(kept);
    assert h[k..][n..] == h[k + n..];
  }

  lemma TrimDone(h: seq<Msg>, fits: seq<Msg> -> bool, k: nat, kept: seq<Msg>)
    requires Reached(h, fits, k, kept)
    requires fits(kept) || kept == []
    ensures TrimResult(h, fits, kept, fits(kept))
  {
  }

  // Builds the prompt from progressively newer slices of the history until it fits. Returns the first tried
  // slice that fits, and fails exactly when no tried slice does.
  method TrimHistoryToFit(history: seq<Msg>, build: seq<Msg> -> seq<Msg>, b: Budget)
    returns (kept: seq<Msg>, messages: seq<Msg>, fit: bool)
    ensures messages == build(kept)
    ensures fit == Fits(b, messages)
    ensures TrimResult(history, FitsBuilt(b, build), kept, fit)
    ensures fit <==> SomeTriedFits(history, FitsBuilt(b, build))
  {
    TrimFitsIff(history, FitsBuilt(b, build));
    messages := build(history);
    var over := IsOverContextBudget(b, messages);
    ghost var fits := FitsBuilt(b, build);
    if !over {
      TrimDone(history, fits, 0, history);
      return history, messages, true;
    }
    kept := history;
    ghost var k: nat := 0;
    while |kept| > 0
      invariant messages == build(kept) && !fits(kept)
      invariant Reached(history, fits, k, kept)
      decreases |kept|
    {
      TrimStep(history, fits, k, kept);
      var dropUntil := NextTrimStart(kept);
      k := k + dropUntil;
      if dropUntil <= 0 || dropUntil >= |kept| {
        kept := [];
      } else {
        kept := kept[dropUntil..];
      }
      messages := build(kept);
      over := IsOverContextBudget(b, messages);
      if !over {
        TrimDone(history, fits, k, kept);
        return kept, messages, true;
      }
    }
    TrimDone(history, fits, k, kept);
    return [], messages, false;
  }

  // Whatever the trim keeps shows the provider a suffix of the untrimmed conversation, and a well-formed
  // history stays well formed: no exchange is split.
  lemma TrimKeepsExchanges(h: seq<Msg>, k: nat)
    requires k <= |h| && Tried(h, k)
    ensures IsSuffix(Sanitized(h[k..]), Sanitized(h))
    ensures WellFormed(h) ==> WellFormed(h[k..])
  {
    if k == 0 {
      assert h[0..] == h;
      assert Sanitized(h) == Sanitized(h)[0..];
    } else if k < |h| {
      CutShowsSuffix(h, k);
    } else {
      assert Sanitized(h)[|Sanitized(h)|..] == [];
    }
  }
}
