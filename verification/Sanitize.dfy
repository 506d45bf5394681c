/**
 The history sanitizer that runs before every provider call. Pass one drops system messages, tool
 results without a call, and calls with a wrong predecessor. Pass two keeps a call only with its complete
 and unduplicated block of results. The pure functions are the specification of the loops in `Sanitize`.
 */
module Sanitizer {
  import opened Messages

  // What pass one needs to know about the messages it kept so far: the kind of the last one.
  datatype Prev = Nothing | AfterUser | AfterCall | AfterTool

  function After(m: Msg): Prev {
    if IsUser(m) then AfterUser else if IsCall(m) then AfterCall else if IsTool(m) then AfterTool else Nothing
  }

  predicate MayCall(p: Prev) {
    p.AfterUser? || p.AfterTool?
  }

  predicate Keeps(m: Msg, p: Prev) {
    && !m.role.System?
    && (IsTool(m) ==> p.AfterCall? || p.AfterTool?)
    && (IsCall(m) ==> MayCall(p))
  }

  function PassOne(h: seq<Msg>, p: Prev): seq<Msg> {
    if h == [] then []
    else if Keeps(h[0], p) then [h[0]] + PassOne(h[1..], After(h[0]))
    else PassOne(h[1..], p)
  }

  // The results of one run that answer one of `ids` for the first time.
  function Block(ids: set<string>, run: seq<Msg>, seen: set<string>): (b: seq<Msg>)
    ensures forall i | 0 <= i < |b| :: b[i] in run && b[i].toolCallId in ids - seen
    ensures DistinctResults(b)
  {
    if run == [] then []
    else if run[0].toolCallId in ids && run[0].toolCallId !in seen then
      [run[0]] + Block(ids, run[1..], seen + {run[0].toolCallId})
    else Block(ids, run[1..], seen)
  }

  function ExpectedIds(calls: seq<ToolCall>): set<string> {
    CallIds(calls) - {""}
  }

  predicate Complete(calls: seq<ToolCall>, block: seq<Msg>) {
    "" !in CallIds(calls) && CallIds(calls) <= ResultIds(block)
  }

  function Exchange(call: Msg, run: seq<Msg>): seq<Msg> {
    var block := Block(ExpectedIds(call.calls), run, {});
    if Complete(call.calls, block) then [call] + block else []
  }

  function PassTwo(s: seq<Msg>): seq<Msg>
    decreases |s|
  {
    if s == [] then []
    else if IsCall(s[0]) then
      var rest := s[1..];
      Exchange(s[0], Run(rest)) + PassTwo(rest[RunLen(rest)..])
    else if IsTool(s[0]) then PassTwo(s[1..])
    else [s[0]] + PassTwo(s[1..])
  }

  function Sanitized(h: seq<Msg>): seq<Msg> {
    PassTwo(PassOne(h, Nothing))
  }

  // ----- a scanner for the contract, the bridge between the two passes and WellFormed

  predicate Legal(h: seq<Msg>, p: Prev)
    decreases |h|
  {
    if h == [] then true
    else if h[0].role.System? || IsTool(h[0]) then false
    else if IsCall(h[0]) then
      var rest := h[1..];
      MayCall(p) && Answers(h[0].calls, Run(rest)) && Legal(rest[RunLen(rest)..], AfterTool)
    else Legal(h[1..], After(h[0]))
  }

  function PrevAt(h: seq<Msg>, i: nat): Prev
    requires i <= |h|
  {
    if i == 0 then Nothing else After(h[i - 1])
  }

  ghost predicate PlacedFrom(h: seq<Msg>, i: nat) {
    forall j | i <= j < |h| :: WellPlaced(h, j)
  }

  // The run that answers a non-empty list of calls is not empty.
  lemma AnswersNonEmpty(calls: seq<ToolCall>, run: seq<Msg>)
    requires calls != [] && Answers(calls, run)
    ensures run != []
  {
    assert calls[0].id in CallIds(calls);
  }

  // The results that directly follow a call are all well placed.
  lemma RunPlaced(h: seq<Msg>, i: nat, n: nat)
    requires i < |h| && IsCall(h[i]) && n == RunLen(h[i + 1..])
    ensures forall j | i < j <= i + n :: WellPlaced(h, j)
  {
    forall j | i < j <= i + n
      ensures WellPlaced(h, j)
    {
      assert h[j] == h[i + 1..][j - i - 1];
      if j > i + 1 { assert h[j - 1] == h[i + 1..][j - i - 2]; }
    }
  }

  lemma {:induction false} LegalIffPlaced(h: seq<Msg>, i: nat)
    requires i <= |h|
    requires i < |h| && IsTool(h[i]) ==> !PrevAt(h, i).AfterTool?
    requires !PrevAt(h, i).AfterCall?
    ensures Legal(h[i..], PrevAt(h, i)) <==> PlacedFrom(h, i)
    decreases |h| - i
  {
    if i < |h| {
      assert h[i..][1..] == h[i + 1..];
      assert PlacedFrom(h, i) ==> WellPlaced(h, i);
      if IsCall(h[i]) {
        LegalIffPlacedCall(h, i);
      } else if !h[i].role.System? && !IsTool(h[i]) {
        LegalIffPlaced(h, i + 1);
      }
    }
  }

  lemma LegalCallIs(h: seq<Msg>, i: nat, p: Prev)
    requires i < |h| && IsCall(h[i])
    ensures Legal(h[i..], p) <==>
              && MayCall(p)
              && Answers(h[i].calls, Run(h[i + 1..]))
              && Legal(h[i + 1 + RunLen(h[i + 1..])..], AfterTool)
  {
    hide Answers, Run;
    var rest := h[i + 1..];
    assert h[i..][1..] == rest && h[i..][0] == h[i];
    assert rest[RunLen(rest)..] == h[i + 1 + RunLen(rest)..];
  }

  lemma PlacedCallIs(h: seq<Msg>, i: nat)
    requires i < |h| && IsCall(h[i])
    ensures WellPlaced(h, i) <==> MayCall(PrevAt(h, i)) && Answers(h[i].calls, Run(h[i + 1..]))
  {
    hide Answers, Run;
  }

  lemma {:induction false} LegalIffPlacedCall(h: seq<Msg>, i: nat)
    requires i < |h| && IsCall(h[i])
    ensures Legal(h[i..], PrevAt(h, i)) <==> PlacedFrom(h, i)
    decreases |h| - i, 0
  {
    hide Legal, Answers, WellPlaced;
    var rest := h[i + 1..];
    var n := RunLen(rest);
    LegalCallIs(h, i, PrevAt(h, i));
    PlacedCallIs(h, i);
    assert PlacedFrom(h, i) ==> WellPlaced(h, i);
    if WellPlaced(h, i) {
      AnswersNonEmpty(h[i].calls, Run(rest));
      assert h[i + n] == rest[n - 1];
      if n < |rest| { assert h[i + 1 + n] == rest[n]; }
      LegalIffPlaced(h, i + 1 + n);
      RunPlaced(h, i, n);
    }
  }

  lemma LegalIffWellFormed(h: seq<Msg>)
    ensures Legal(h, Nothing) <==> WellFormed(h)
  {
    LegalIffPlaced(h, 0);
    assert h[0..] == h;
  }

  // ----- pass one

  predicate Shaped(s: seq<Msg>, p: Prev) {
    s == [] || (Keeps(s[0], p) && Shaped(s[1..], After(s[0])))
  }

  lemma {:induction false} PassOneShaped(h: seq<Msg>, p: Prev)
    ensures Shaped(PassOne(h, p), p)
  {
    if h != [] {
      if Keeps(h[0], p) {
        PassOneShaped(h[1..], After(h[0]));
        assert PassOne(h, p)[1..] == PassOne(h[1..], After(h[0]));
      } else {
        PassOneShaped(h[1..], p);
      }
    }
  }

  lemma {:induction false} PassOneFixes(s: seq<Msg>, p: Prev)
    requires Shaped(s, p)
    ensures PassOne(s, p) == s
  {
    if s != [] {
      PassOneFixes(s[1..], After(s[0]));
    }
  }

  lemma {:induction false} ShapedDrop(s: seq<Msg>, p: Prev, k: nat)
    requires Shaped(s, p) && k <= |s|
    ensures Shaped(s[k..], if k == 0 then p else After(s[k - 1]))
    decreases k
  {
    if k > 0 {
      ShapedDrop(s[1..], After(s[0]), k - 1);
      assert s[1..][k - 1..] == s[k..];
    }
  }

  // ----- the sanitized history is well formed

  lemma {:induction false} BlockAnswers(ids: set<string>, run: seq<Msg>, seen: set<string>)
    requires forall m | m in run :: IsTool(m)
    ensures forall m | m in Block(ids, run, seen) :: IsTool(m)
    ensures ResultIds(Block(ids, run, seen)) <= ids
  {
  }

  lemma ExchangeLegal(call: Msg, run: seq<Msg>, tail: seq<Msg>, p: Prev)
    requires IsCall(call) && MayCall(p)
    requires forall m | m in run :: IsTool(m)
    requires Exchange(call, run) != []
    requires Legal(tail, AfterTool)
    ensures Legal(Exchange(call, run) + tail, p)
  {
    var ids := ExpectedIds(call.calls);
    var block := Block(ids, run, {});
    BlockAnswers(ids, run, {});
    assert Answers(call.calls, block);
    var rest := block + tail;
    RunLenAppend(block, tail);
    RunLenAll(block);
    assert Run(rest) == block && rest[|block|..] == tail;
    Assoc([call], block, tail);
    assert ([call] + rest)[1..] == rest;
  }

  lemma {:induction false} RunLenAll(run: seq<Msg>)
    requires forall m | m in run :: IsTool(m)
    ensures RunLen(run) == |run|
  {
    if run != [] {
      RunLenAll(run[1..]);
    }
  }

  // p is the kind of the predecessor pass one saw, q the kind of the one pass two kept. Pass two may delete
  // the block that was the predecessor of a call, but then an older user or tool message takes its place.
  lemma {:induction false} PassTwoLegal(s: seq<Msg>, p: Prev, q: Prev)
    requires Shaped(s, p)
    requires s == [] || !IsTool(s[0])
    requires MayCall(p) ==> MayCall(q)
    ensures Legal(PassTwo(s), q)
    decreases |s|
  {
    if s == [] {
    } else if IsCall(s[0]) {
      var rest := s[1..];
      var n := RunLen(rest);
      ShapedDrop(s, p, 1 + n);
      assert s[1 + n..] == rest[n..];
      var ex := Exchange(s[0], Run(rest));
      var next := if n == 0 then AfterCall else AfterTool;
      if ex == [] {
        PassTwoLegal(rest[n..], next, q);
        assert ex + PassTwo(rest[n..]) == PassTwo(rest[n..]);
      } else {
        PassTwoLegal(rest[n..], next, AfterTool);
        ExchangeLegal(s[0], Run(rest), PassTwo(rest[n..]), q);
      }
    } else {
      if |s| > 1 { assert Keeps(s[1], After(s[0])); }
      PassTwoLegal(s[1..], After(s[0]), After(s[0]));
      assert PassTwo(s)[1..] == PassTwo(s[1..]);
    }
  }

  lemma SanitizedWellFormed(h: seq<Msg>)
    ensures WellFormed(Sanitized(h))
  {
    PassOneShaped(h, Nothing);
    PassTwoLegal(PassOne(h, Nothing), Nothing, Nothing);
    LegalIffWellFormed(Sanitized(h));
  }

  // ----- the fixed points are exactly the well-formed histories

  lemma {:induction false} BlockWhole(ids: set<string>, run: seq<Msg>, seen: set<string>)
    requires ResultIds(run) <= ids && ResultIds(run) !! seen && DistinctResults(run)
    ensures Block(ids, run, seen) == run
  {
    if run != [] {
      var id := run[0].toolCallId;
      assert id in ResultIds(run);
      forall m | m in run[1..]
        ensures m.toolCallId in ids && m.toolCallId !in seen + {id}
      {
        assert m.toolCallId in ResultIds(run);
        var i :| 0 <= i < |run[1..]| && run[1..][i] == m;
        assert run[0].toolCallId != run[i + 1].toolCallId;
      }
      BlockWhole(ids, run[1..], seen + {id});
    }
  }

  lemma {:induction false} LegalShaped(h: seq<Msg>, p: Prev)
    requires Legal(h, p)
    ensures Shaped(h, p)
    decreases |h|
  {
    if h != [] {
      if IsCall(h[0]) {
        var rest := h[1..];
        var n := RunLen(rest);
        AnswersNonEmpty(h[0].calls, Run(rest));
        LegalShaped(rest[n..], AfterTool);
        ShapedRun(rest, n);
      } else {
        LegalShaped(h[1..], After(h[0]));
      }
    }
  }

  lemma {:induction false} ShapedRun(s: seq<Msg>, n: nat)
    requires n <= |s| && Shaped(s[n..], AfterTool)
    requires forall i | 0 <= i < n :: IsTool(s[i])
    ensures Shaped(s, AfterTool)
    ensures n > 0 ==> Shaped(s, AfterCall)
  {
    if n > 0 {
      assert s[1..][n - 1..] == s[n..];
      ShapedRun(s[1..], n - 1);
    } else {
      assert s[0..] == s;
    }
  }

  lemma ExchangeWhole(call: Msg, run: seq<Msg>)
    requires Answers(call.calls, run)
    ensures Exchange(call, run) == [call] + run
  {
    BlockWhole(ExpectedIds(call.calls), run, {});
  }

  lemma RunAndRest(h: seq<Msg>)
    requires h != []
    ensures h == ([h[0]] + Run(h[1..])) + h[1..][RunLen(h[1..])..]
  {
    var rest := h[1..];
    assert rest == Run(rest) + rest[RunLen(rest)..];
  }

  lemma {:induction false} LegalPassTwo(h: seq<Msg>, p: Prev)
    requires Legal(h, p)
    ensures PassTwo(h) == h
    decreases |h|
  {
    hide Answers, Exchange, Run;
    if h != [] {
      if IsCall(h[0]) {
        var rest := h[1..];
        ExchangeWhole(h[0], Run(rest));
        LegalPassTwo(rest[RunLen(rest)..], AfterTool);
        RunAndRest(h);
      } else {
        LegalPassTwo(h[1..], After(h[0]));
      }
    }
  }

  lemma FixedPoints(h: seq<Msg>)
    ensures Sanitized(h) == h <==> WellFormed(h)
  {
    if WellFormed(h) {
      LegalIffWellFormed(h);
      LegalShaped(h, Nothing);
      PassOneFixes(h, Nothing);
      LegalPassTwo(h, Nothing);
    }
    SanitizedWellFormed(h);
  }

  lemma Idempotent(h: seq<Msg>)
    ensures Sanitized(Sanitized(h)) == Sanitized(h)
  {
    SanitizedWellFormed(h);
    FixedPoints(Sanitized(h));
  }

  // ----- sanitizing distributes over a turn cut

  function PrevAfter(h: seq<Msg>, p: Prev): Prev {
    if h == [] then p else PrevAfter(h[1..], if Keeps(h[0], p) then After(h[0]) else p)
  }

  lemma {:induction false} PassOneAppend(a: seq<Msg>, b: seq<Msg>, p: Prev)
    ensures PassOne(a + b, p) == PassOne(a, p) + PassOne(b, PrevAfter(a, p))
  {
    if a == [] {
      assert a + b == b;
    } else {
      assert (a + b)[1..] == a[1..] + b;
      PassOneAppend(a[1..], b, if Keeps(a[0], p) then After(a[0]) else p);
      Assoc([a[0]], PassOne(a[1..], After(a[0])), PassOne(b, PrevAfter(a, p)));
    }
  }

  lemma RunOfParts(a: seq<Msg>, b: seq<Msg>)
    requires b == [] || !IsTool(b[0])
    ensures Run(a + b) == Run(a) && (a + b)[RunLen(a + b)..] == a[RunLen(a)..] + b
  {
    RunLenAppend(a, b);
    assert (a + b)[..RunLen(a)] == a[..RunLen(a)];
    assert (a + b)[RunLen(a)..] == a[RunLen(a)..] + b;
  }

  lemma {:induction false} PassTwoAppend(a: seq<Msg>, b: seq<Msg>)
    requires b == [] || !IsTool(b[0])
    ensures PassTwo(a + b) == PassTwo(a) + PassTwo(b)
    decreases |a|
  {
    if a == [] {
      assert a + b == b;
    } else {
      hide Exchange, Run;
      var rest := a[1..];
      assert (a + b)[1..] == rest + b;
      if IsCall(a[0]) {
        var behind := rest[RunLen(rest)..];
        RunOfParts(rest, b);
        PassTwoAppend(behind, b);
        Assoc(Exchange(a[0], Run(rest)), PassTwo(behind), PassTwo(b));
      } else {
        PassTwoAppend(rest, b);
        Assoc([a[0]], PassTwo(rest), PassTwo(b));
      }
    }
  }

  lemma DistributesOverTurnCut(a: seq<Msg>, b: seq<Msg>)
    requires b != [] && IsUser(b[0])
    ensures Sanitized(a + b) == Sanitized(a) + Sanitized(b)
  {
    PassOneAppend(a, b, Nothing);
    PassTwoAppend(PassOne(a, Nothing), PassOne(b, Nothing));
  }

  // Cutting before a user message gives the provider a suffix of what it would have seen uncut.
  lemma CutShowsSuffix(h: seq<Msg>, k: nat)
    requires k < |h| && IsUser(h[k])
    ensures IsSuffix(Sanitized(h[k..]), Sanitized(h))
    ensures WellFormed(h) ==> WellFormed(h[k..])
  {
    assert h == h[..k] + h[k..];
    DistributesOverTurnCut(h[..k], h[k..]);
    SuffixIntro(Sanitized(h[..k]), Sanitized(h[k..]));
    if WellFormed(h) {
      WellFormedSuffix(h, k);
    }
  }

  // ----- what survives

  lemma {:induction false} PassOneKeepsPlain(h: seq<Msg>, p: Prev)
    ensures Filter(PassOne(h, p), IsPlain) == Filter(h, IsPlain)
  {
    if h != [] {
      PassOneKeepsPlain(h[1..], if Keeps(h[0], p) then After(h[0]) else p);
      if Keeps(h[0], p) {
        assert PassOne(h, p)[1..] == PassOne(h[1..], After(h[0]));
      }
    }
  }

  lemma {:induction false} NoPlain(s: seq<Msg>)
    requires forall m | m in s :: !IsPlain(m)
    ensures Filter(s, IsPlain) == []
  {
    if s != [] {
      NoPlain(s[1..]);
    }
  }

  lemma {:induction false} PassTwoKeepsPlain(s: seq<Msg>)
    ensures Filter(PassTwo(s), IsPlain) == Filter(s, IsPlain)
    decreases |s|
  {
    if s != [] {
      if IsCall(s[0]) {
        var rest := s[1..];
        var n := RunLen(rest);
        var ex := Exchange(s[0], Run(rest));
        BlockAnswers(ExpectedIds(s[0].calls), Run(rest), {});
        NoPlain(ex);
        NoPlain([s[0]] + Run(rest));
        FilterAppend(ex, PassTwo(rest[n..]), IsPlain);
        RunAndRest(s);
        FilterAppend([s[0]] + Run(rest), rest[n..], IsPlain);
        PassTwoKeepsPlain(rest[n..]);
      } else {
        PassTwoKeepsPlain(s[1..]);
        if !IsTool(s[0]) {
          assert PassTwo(s)[1..] == PassTwo(s[1..]);
        }
      }
    }
  }

  // Every message outside a tool exchange survives, in order and unchanged.
  lemma PlainMessagesSurvive(h: seq<Msg>)
    ensures Filter(Sanitized(h), IsPlain) == Filter(h, IsPlain)
  {
    PassOneKeepsPlain(h, Nothing);
    PassTwoKeepsPlain(PassOne(h, Nothing));
  }

  lemma {:induction false} BlockIds(ids: set<string>, run: seq<Msg>, seen: set<string>)
    ensures ResultIds(Block(ids, run, seen)) == ids * ResultIds(run) - seen
  {
    if run != [] {
      var id := run[0].toolCallId;
      var first := id in ids && id !in seen;
      var rest := Block(ids, run[1..], if first then seen + {id} else seen);
      BlockIds(ids, run[1..], if first then seen + {id} else seen);
      assert run == [run[0]] + run[1..];
      assert ResultIds(run) == {id} + ResultIds(run[1..]);
      if first {
        assert ResultIds([run[0]] + rest) == {id} + ResultIds(rest);
      }
    }
  }

  // ----- what a dropped message does to the others

  // The message cannot stand behind the messages that pass one kept.
  predicate Misplaced(kept: seq<Msg>, m: Msg) {
    || m.role.System?
    || (IsTool(m) && (kept == [] || !(IsCall(kept[|kept| - 1]) || IsTool(kept[|kept| - 1]))))
    || (IsCall(m) && (kept == [] || !(IsUser(kept[|kept| - 1]) || IsTool(kept[|kept| - 1]))))
  }

  lemma {:induction false} PrevAfterIsLast(h: seq<Msg>, p: Prev)
    ensures var kept := PassOne(h, p);
            PrevAfter(h, p) == if kept == [] then p else After(kept[|kept| - 1])
  {
    if h != [] {
      PrevAfterIsLast(h[1..], if Keeps(h[0], p) then After(h[0]) else p);
    }
  }

  // A system message, a tool result without a call, and a call with a wrong predecessor are dropped, and everything
  // else is treated as if they had never been there.
  lemma MisplacedLeavesRest(a: seq<Msg>, m: Msg, b: seq<Msg>)
    requires Misplaced(PassOne(a, Nothing), m)
    ensures Sanitized(a + ([m] + b)) == Sanitized(a + b)
  {
    PassOneAppend(a, [m] + b, Nothing);
    PassOneAppend(a, b, Nothing);
    PrevAfterIsLast(a, Nothing);
    assert ([m] + b)[1..] == b;
    assert !Keeps(m, PrevAfter(a, Nothing));
  }

  // ----- what happens to an exchange

  // The first result of every id.
  function FirstResults(ids: set<string>, run: seq<Msg>): seq<Msg> {
    if run == [] then []
    else
      var n := |run| - 1;
      FirstResults(ids, run[..n])
      + (if run[n].toolCallId in ids - ResultIds(run[..n]) then [run[n]] else [])
  }

  lemma ResultIdsCons(m: Msg, run: seq<Msg>)
    ensures ResultIds([m] + run) == {m.toolCallId} + ResultIds(run)
  {
    assert forall x | x in run :: x in [m] + run;
    assert m in [m] + run;
  }

  lemma {:induction false} BlockSnoc(ids: set<string>, run: seq<Msg>, m: Msg, seen: set<string>)
    ensures Block(ids, run + [m], seen) ==
              Block(ids, run, seen) + (if m.toolCallId in ids - seen - ResultIds(run) then [m] else [])
  {
    if run == [] {
      assert [] + [m] == [m] && [m][1..] == [];
    } else {
      var id := run[0].toolCallId;
      assert run == [run[0]] + run[1..];
      ResultIdsCons(run[0], run[1..]);
      assert (run + [m])[0] == run[0] && (run + [m])[1..] == run[1..] + [m];
      BlockSnoc(ids, run[1..], m, if id in ids && id !in seen then seen + {id} else seen);
    }
  }

  lemma {:induction false} BlockIsFirst(ids: set<string>, run: seq<Msg>)
    ensures Block(ids, run, {}) == FirstResults(ids, run)
  {
    if run != [] {
      var n := |run| - 1;
      BlockIsFirst(ids, run[..n]);
      BlockSnoc(ids, run[..n], run[n], {});
      assert run[..n] + [run[n]] == run;
    }
  }

  lemma ExchangeIff(call: Msg, run: seq<Msg>)
    ensures var ids := CallIds(call.calls);
            Exchange(call, run) ==
              if "" !in ids && ids <= ResultIds(run) then [call] + FirstResults(ids, run) else []
  {
    var ids := CallIds(call.calls);
    BlockIds(ExpectedIds(call.calls), run, {});
    if "" !in ids {
      assert ExpectedIds(call.calls) == ids;
      BlockIsFirst(ids, run);
    }
  }

  lemma {:induction false} PassOneOfRun(run: seq<Msg>, p: Prev)
    requires forall k | 0 <= k < |run| :: IsTool(run[k])
    requires p.AfterCall? || p.AfterTool?
    ensures PassOne(run, p) == run && PrevAfter(run, p) == if run == [] then p else AfterTool
  {
    if run != [] {
      PassOneOfRun(run[1..], AfterTool);
    }
  }

  // What the messages behind an exchange contribute.
  function Behind(run: seq<Msg>, tail: seq<Msg>): seq<Msg> {
    PassTwo(PassOne(tail, if run == [] then AfterCall else AfterTool))
  }

  // The run of results ends here: what follows is kept, and is no result. A message that is dropped does not end the
  // run; it can be left out first.
  predicate EndsRun(run: seq<Msg>, tail: seq<Msg>) {
    tail == [] || IsPlain(tail[0]) || (IsCall(tail[0]) && run != [])
  }

  // An exchange at any place where a call may stand: it survives exactly when every call has an id and a result, and
  // then with the first result of every id, in their order; the messages in front of it and behind it do not depend on
  // what becomes of it.
  lemma ExchangeSurvives(h: seq<Msg>, call: Msg, run: seq<Msg>, tail: seq<Msg>)
    requires OpensExchange(PassOne(h, Nothing)) && IsCall(call)
    requires forall k | 0 <= k < |run| :: IsTool(run[k])
    requires EndsRun(run, tail)
    ensures var ids := CallIds(call.calls);
            Sanitized(h + ([call] + (run + tail))) ==
              Sanitized(h)
              + ((if "" !in ids && ids <= ResultIds(run) then [call] + FirstResults(ids, run) else [])
                 + Behind(run, tail))
  {
    var rest := [call] + (run + tail);
    var behind := PassOne(tail, if run == [] then AfterCall else AfterTool);
    PassOneAppend(h, rest, Nothing);
    PrevAfterIsLast(h, Nothing);
    assert rest[1..] == run + tail;
    PassOneAppend(run, tail, AfterCall);
    PassOneOfRun(run, AfterCall);
    assert PassOne(rest, PrevAfter(h, Nothing)) == [call] + (run + behind);
    PassTwoAppend(PassOne(h, Nothing), [call] + (run + behind));
    ExchangeThenRest(call, run, behind);
    ExchangeIff(call, run);
  }

  lemma ExchangeThenRest(call: Msg, run: seq<Msg>, behind: seq<Msg>)
    requires IsCall(call) && (forall k | 0 <= k < |run| :: IsTool(run[k]))
    requires behind == [] || !IsTool(behind[0])
    ensures PassTwo([call] + (run + behind)) == Exchange(call, run) + PassTwo(behind)
  {
    var h := [call] + (run + behind);
    assert h[1..] == run + behind;
    RunLenAppend(run, behind);
    RunLenAll(run);
    assert (run + behind)[..|run|] == run && (run + behind)[|run|..] == behind;
  }

  // ----- the loops of the source

  function PrevOf(kept: seq<Msg>): Prev {
    PrevAt(kept, |kept|)
  }

  // Pass one never keeps a tool result anywhere but behind a call or another result.
  lemma {:induction false} ShapedToolsFollow(s: seq<Msg>, p: Prev, i: nat)
    requires Shaped(s, p) && i < |s| && IsTool(s[i])
    ensures i > 0 ==> IsTool(s[i - 1]) || IsCall(s[i - 1])
    ensures i == 0 ==> p.AfterCall? || p.AfterTool?
  {
    ShapedDrop(s, p, i);
  }

  lemma {:induction false} ShapedSnoc(s: seq<Msg>, p: Prev, m: Msg)
    requires Shaped(s, p)
    requires Keeps(m, if s == [] then p else PrevOf(s))
    ensures Shaped(s + [m], p)
  {
    if s != [] {
      assert (s + [m])[1..] == s[1..] + [m];
      ShapedSnoc(s[1..], After(s[0]), m);
    }
  }

  // The backwards walk over the kept messages: is the nearest message that is no tool result a call?
  method FindsAssistant(kept: seq<Msg>) returns (found: bool)
    requires Shaped(kept, Nothing)
    ensures found <==> PrevOf(kept).AfterCall? || PrevOf(kept).AfterTool?
  {
    found := false;
    var i := |kept| - 1;
    while i >= 0
      invariant -1 <= i < |kept|
      invariant i < 0 ==> kept == []
      invariant !found
      invariant i < |kept| - 1 ==> IsTool(kept[|kept| - 1]) && (IsTool(kept[i]) || IsCall(kept[i]))
    {
      if IsTool(kept[i]) {
        ShapedToolsFollow(kept, Nothing, i);
        i := i - 1;
        continue;
      }
      if IsCall(kept[i]) {
        found := true;
      }
      break;
    }
  }

  method DropMisplaced(history: seq<Msg>) returns (kept: seq<Msg>)
    ensures kept == PassOne(history, Nothing)
  {
    kept := [];
    for k := 0 to |history|
      invariant Shaped(kept, Nothing)
      invariant kept + PassOne(history[k..], PrevOf(kept)) == PassOne(history, Nothing)
    {
      var msg := history[k];
      assert history[k..][0] == msg && history[k..][1..] == history[k + 1..];
      var keep: bool;
      match msg.role {
        case System =>
          keep := false;
        case Tool =>
          if kept == [] {
            keep := false;
          } else {
            keep := FindsAssistant(kept);
          }
        case Assistant =>
          keep := true;
          if msg.calls != [] {
            if kept == [] {
              keep := false;
            } else {
              var prev := kept[|kept| - 1];
              keep := prev.role.User? || prev.role.Tool?;
            }
          }
        case _ =>
          keep := true;
      }
      if keep {
        ShapedSnoc(kept, Nothing, msg);
        Assoc(kept, [msg], PassOne(history[k + 1..], After(msg)));
        kept := kept + [msg];
      }
    }
  }

  lemma RunUnfold(kept: seq<Msg>, j: nat)
    requires j < |kept| && IsTool(kept[j])
    ensures RunLen(kept[j..]) == 1 + RunLen(kept[j + 1..])
    ensures Run(kept[j..]) == [kept[j]] + Run(kept[j + 1..])
  {
    assert kept[j..][1..] == kept[j + 1..];
  }

  lemma BlockUnfold(ids: set<string>, m: Msg, run: seq<Msg>, seen: set<string>)
    ensures Block(ids, [m] + run, seen) ==
              if m.toolCallId in ids && m.toolCallId !in seen
              then [m] + Block(ids, run, seen + {m.toolCallId})
              else Block(ids, run, seen)
    ensures Block(ids, [], seen) == []
  {
    assert ([m] + run)[1..] == run;
  }

  // The block of results behind one call, and the position after the run.
  method CollectBlock(kept: seq<Msg>, start: nat, ids: set<string>) returns (block: seq<Msg>, j: nat)
    requires start <= |kept|
    ensures j == start + RunLen(kept[start..])
    ensures block == Block(ids, Run(kept[start..]), {})
  {
    hide Block;
    block, j := [], start;
    var seen: set<string> := {};
    while j < |kept|
      invariant start <= j <= |kept|
      invariant j + RunLen(kept[j..]) == start + RunLen(kept[start..])
      invariant block + Block(ids, Run(kept[j..]), seen) == Block(ids, Run(kept[start..]), {})
      invariant "" !in ids ==> "" !in seen
    {
      var next := kept[j];
      if !IsTool(next) {
        break;
      }
      RunUnfold(kept, j);
      BlockUnfold(ids, next, Run(kept[j + 1..]), seen);
      j := j + 1;
      if next.toolCallId in ids && next.toolCallId !in seen {
        seen := seen + {next.toolCallId};
        Assoc(block, [next], Block(ids, Run(kept[j..]), seen));
        block := block + [next];
      }
    }
    assert Run(kept[j..]) == [];
    BlockUnfold(ids, Msg(Tool, "", [], "", [], ""), [], seen);
    assert block + [] == block;
  }

  lemma PassTwoUnfold(kept: seq<Msg>, i: nat)
    requires i < |kept|
    ensures var rest := kept[i + 1..];
            PassTwo(kept[i..]) ==
              if IsCall(kept[i]) then Exchange(kept[i], Run(rest)) + PassTwo(kept[i + 1 + RunLen(rest)..])
              else if IsTool(kept[i]) then PassTwo(rest)
              else [kept[i]] + PassTwo(rest)
  {
    hide Exchange, Run;
    var rest := kept[i + 1..];
    assert kept[i..][0] == kept[i] && kept[i..][1..] == rest;
    assert rest[RunLen(rest)..] == kept[i + 1 + RunLen(rest)..];
  }

  lemma PassTwoEnds(kept: seq<Msg>)
    ensures PassTwo(kept[0..]) == PassTwo(kept)
    ensures PassTwo(kept[|kept|..]) == []
  {
    assert kept[0..] == kept;
  }

  lemma ExchangeIs(call: Msg, run: seq<Msg>, block: seq<Msg>)
    requires block == Block(ExpectedIds(call.calls), run, {})
    ensures Exchange(call, run) == if Complete(call.calls, block) then [call] + block else []
  {
  }

  // One round of pass two: what to keep from position i on, and where to go on.
  method KeepNext(kept: seq<Msg>, i: nat) returns (piece: seq<Msg>, j: nat)
    requires i < |kept|
    ensures i < j <= |kept|
    ensures PassTwo(kept[i..]) == piece + PassTwo(kept[j..])
  {
    hide PassTwo, Block, Exchange, Complete, ExpectedIds;
    var msg := kept[i];
    PassTwoUnfold(kept, i);
    if IsCall(msg) {
      var block: seq<Msg>;
      block, j := CollectBlock(kept, i + 1, ExpectedIds(msg.calls));
      ExchangeIs(msg, Run(kept[i + 1..]), block);
      piece := if Complete(msg.calls, block) then [msg] + block else [];
      return;
    }
    if IsTool(msg) {
      return [], i + 1;
    }
    return [msg], i + 1;
  }

  method Sanitize(history: seq<Msg>) returns (final: seq<Msg>)
    ensures final == Sanitized(history)
  {
    if history == [] {
      return history;
    }
    hide PassTwo, PassOne;
    var kept := DropMisplaced(history);
    PassTwoEnds(kept);
    final := [];
    var i := 0;
    while i < |kept|
      invariant 0 <= i <= |kept|
      invariant final + PassTwo(kept[i..]) == PassTwo(kept)
    {
      var piece, j := KeepNext(kept, i);
      Assoc(final, piece, PassTwo(kept[j..]));
      final := final + piece;
      i := j;
    }
    assert final + [] == final;
  }
}
