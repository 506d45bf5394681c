/**
 The cap on the memory block of the system prompt: which lines of the file survive, and that the rendered block
 stays within the token budget although every line is rounded up on its own. Header and line patterns are
 parameters; all text lengths count runes.
 */
module MemoryBudget {
  import opened Strings

  function EstimateTokens(s: string): nat {
    |s| * 2 / 5
  }

  function LineTokens(line: string): (cost: nat)
    ensures cost >= 1
  {
    (|line| * 2 + 4) / 5 + 1
  }

  // Five runes are two tokens; a line is rounded up, and its line break costs one more.
  lemma TokensPerRune(s: string, five: string)
    requires |five| == 5
    ensures EstimateTokens("") == 0 && EstimateTokens(s + five) == EstimateTokens(s) + 2
    ensures LineTokens("") == 1 && LineTokens(s + five) == LineTokens(s) + 2
    ensures EstimateTokens(s) + 1 <= LineTokens(s) <= EstimateTokens(s) + 2
  {
  }

  predicate IsBlank(line: string) {
    TrimSpace(line) == ""
  }

  predicate IsHeading(line: string) {
    var t := TrimSpace(line);
    t != "" && t[0] == '#'
  }

  // ----- the greedy choice

  datatype Choice = Choice(kept: set<nat>, remaining: int)

  function TakeLine(lines: seq<string>, c: Choice, i: nat): Choice
    requires i < |lines|
  {
    if IsBlank(lines[i]) || i in c.kept || LineTokens(lines[i]) > c.remaining then c
    else Choice(c.kept + {i}, c.remaining - LineTokens(lines[i]))
  }

  predicate Within(lines: seq<string>, order: seq<nat>) {
    forall k | 0 <= k < |order| :: order[k] < |lines|
  }

  function TakeAll(lines: seq<string>, c: Choice, order: seq<nat>): Choice
    requires Within(lines, order)
    decreases |order|
  {
    if order == [] then c else TakeAll(lines, TakeLine(lines, c, order[0]), order[1..])
  }

  lemma {:induction false} TakeAllAppend(lines: seq<string>, c: Choice, a: seq<nat>, b: seq<nat>)
    requires Within(lines, a) && Within(lines, b) && Within(lines, a + b)
    ensures TakeAll(lines, c, a + b) == TakeAll(lines, TakeAll(lines, c, a), b)
    decreases |a|
  {
    if a == [] {
      assert a + b == b;
    } else {
      assert (a + b)[1..] == a[1..] + b;
      TakeAllAppend(lines, TakeLine(lines, c, a[0]), a[1..], b);
    }
  }

  function Up(from: nat, hi: nat): (s: seq<nat>)
    requires from <= hi
    ensures forall k | 0 <= k < |s| :: from <= s[k] && s[k] < hi
    decreases hi - from
  {
    if from == hi then [] else [from] + Up(from + 1, hi)
  }

  // The lines below `hi` down to `from` that satisfy the predicate.
  function Down(from: nat, hi: nat, lines: seq<string>, p: string -> bool): (s: seq<nat>)
    requires from <= hi <= |lines|
    ensures forall k | 0 <= k < |s| :: from <= s[k] && s[k] < hi
    decreases hi
  {
    if from == hi then []
    else if p(lines[hi - 1]) then [hi - 1] + Down(from, hi - 1, lines, p)
    else Down(from, hi - 1, lines, p)
  }

  lemma {:induction false} AllInDown(lines: seq<string>, hi: nat, i: nat)
    requires i < hi <= |lines|
    ensures i in Down(0, hi, lines, AnyLine)
  {
    if i < hi - 1 {
      AllInDown(lines, hi - 1, i);
    }
  }

  // How many of the first n lines are headings.
  function Headings(lines: seq<string>, n: nat): nat
    requires n <= |lines|
  {
    if n == 0 then 0 else Headings(lines, n - 1) + (if IsHeading(lines[n - 1]) then 1 else 0)
  }

  // Where the opening section ends: a heading with exactly one heading in front of it, or, when the file has fewer
  // than two, behind its first line.
  predicate EndsSection(lines: seq<string>, k: nat) {
    if Headings(lines, |lines|) < 2 then k == if lines == [] then 0 else 1
    else k < |lines| && IsHeading(lines[k]) && Headings(lines, k) == 1
  }

  lemma {:induction false} HeadingsGrow(lines: seq<string>, i: nat, j: nat)
    requires i <= j <= |lines|
    ensures Headings(lines, i) <= Headings(lines, j)
    ensures i < j && IsHeading(lines[i]) ==> Headings(lines, i) < Headings(lines, j)
    decreases j
  {
    hide IsHeading;
    if i < j {
      HeadingsGrow(lines, i, j - 1);
    }
  }

  // There is only one such place.
  lemma SectionEndIsUnique(lines: seq<string>, j: nat, k: nat)
    requires EndsSection(lines, j) && EndsSection(lines, k)
    ensures j == k
  {
    if Headings(lines, |lines|) >= 2 {
      if j < k {
        HeadingsGrow(lines, j, k);
      } else {
        HeadingsGrow(lines, k, j);
      }
    }
  }

  function SectionEndFrom(lines: seq<string>, i: nat): (k: nat)
    requires i <= |lines| && Headings(lines, i) <= 1
    ensures k <= |lines| && EndsSection(lines, k)
    decreases |lines| - i
  {
    if i == |lines| then if lines == [] then 0 else 1
    else if IsHeading(lines[i]) && Headings(lines, i) == 1 then
      HeadingsGrow(lines, i + 1, |lines|);
      i
    else SectionEndFrom(lines, i + 1)
  }

  function SectionEnd(lines: seq<string>): (k: nat)
    ensures k <= |lines| && EndsSection(lines, k)
  {
    SectionEndFrom(lines, 0)
  }

  // First the opening section in order, then the rule lines newest first, then everything newest first.
  function Priority(lines: seq<string>, isRule: string -> bool): (order: seq<nat>)
    ensures Within(lines, order)
  {
    var end := SectionEnd(lines);
    Up(0, end) + Down(end, |lines|, lines, isRule) + Down(0, |lines|, lines, AnyLine)
  }

  predicate AnyLine(line: string) {
    true
  }

  function KeptCost(lines: seq<string>, kept: set<nat>, n: nat): nat
    requires n <= |lines|
  {
    if n == 0 then 0
    else if n - 1 in kept then KeptCost(lines, kept, n - 1) + LineTokens(lines[n - 1])
    else KeptCost(lines, kept, n - 1)
  }

  lemma {:induction false} KeptCostAdd(lines: seq<string>, kept: set<nat>, i: nat, n: nat)
    requires i < |lines| && n <= |lines| && i !in kept
    ensures KeptCost(lines, kept + {i}, n) == KeptCost(lines, kept, n) + (if i < n then LineTokens(lines[i]) else 0)
  {
    if n > 0 {
      KeptCostAdd(lines, kept, i, n - 1);
    }
  }

  // Nothing is spent but the cost of the kept lines; none of them is blank; and the choice only grows.
  lemma {:induction false} TakeAllAccounts(lines: seq<string>, c: Choice, order: seq<nat>)
    requires Within(lines, order)
    ensures var r := TakeAll(lines, c, order);
            && c.kept <= r.kept
            && r.remaining <= c.remaining
            && (r.kept != c.kept ==> r.remaining >= 0)
            && KeptCost(lines, r.kept, |lines|) + r.remaining == KeptCost(lines, c.kept, |lines|) + c.remaining
            && forall i | i in r.kept - c.kept :: i < |lines| && !IsBlank(lines[i])
    decreases |order|
  {
    if order != [] {
      var i := order[0];
      var c' := TakeLine(lines, c, i);
      if c' != c {
        KeptCostAdd(lines, c.kept, i, |lines|);
      }
      TakeAllAccounts(lines, c', order[1..]);
    }
  }

  // A line is kept exactly when it was kept already, or is not blank and fits into what the lines of higher
  // priority left.
  lemma {:induction false} KeptIff(lines: seq<string>, c: Choice, order: seq<nat>, k: nat)
    requires Within(lines, order) && k < |order|
    requires order[k] !in order[..k]
    ensures Within(lines, order[..k])
    ensures var line := lines[order[k]];
            var fits := !IsBlank(line) && LineTokens(line) <= TakeAll(lines, c, order[..k]).remaining;
            order[k] in TakeAll(lines, c, order).kept <==> order[k] in c.kept || fits
  {
    var before, i, later := order[..k], order[k], order[k + 1..];
    var c1 := TakeAll(lines, c, before);
    assert order == before + ([i] + later);
    TakeAllAppend(lines, c, before, [i] + later);
    assert ([i] + later)[1..] == later;
    OnlyOrderedAreKept(lines, c, before);
    if i !in TakeLine(lines, c1, i).kept {
      Refused(lines, TakeLine(lines, c1, i), later, i);
    }
    TakeAllAccounts(lines, c, before);
    TakeAllAccounts(lines, TakeLine(lines, c1, i), later);
  }

  lemma {:induction false} OnlyOrderedAreKept(lines: seq<string>, c: Choice, order: seq<nat>)
    requires Within(lines, order)
    ensures forall i | i in TakeAll(lines, c, order).kept :: i in c.kept || i in order
    decreases |order|
  {
    if order != [] {
      OnlyOrderedAreKept(lines, TakeLine(lines, c, order[0]), order[1..]);
    }
  }

  // What does not fit now never fits later.
  lemma {:induction false} Refused(lines: seq<string>, c: Choice, order: seq<nat>, i: nat)
    requires Within(lines, order) && i < |lines|
    requires i !in c.kept && (IsBlank(lines[i]) || LineTokens(lines[i]) > c.remaining)
    ensures i !in TakeAll(lines, c, order).kept
    decreases |order|
  {
    if order != [] {
      Refused(lines, TakeLine(lines, c, order[0]), order[1..], i);
    }
  }

  // No line that was left out would still fit.
  lemma {:induction false} NothingMoreFits(lines: seq<string>, c: Choice, order: seq<nat>, i: nat)
    requires Within(lines, order) && i in order && !IsBlank(lines[i])
    requires i !in TakeAll(lines, c, order).kept
    ensures LineTokens(lines[i]) > TakeAll(lines, c, order).remaining
    decreases |order|
  {
    var c' := TakeLine(lines, c, order[0]);
    TakeAllAccounts(lines, c', order[1..]);
    if order[0] != i || i in order[1..] {
      NothingMoreFits(lines, c', order[1..], i);
    }
  }

  // ----- who comes first

  // 0: the opening section; 1: a rule line behind it; 2: any other line.
  function Class(lines: seq<string>, isRule: string -> bool, i: nat): nat
    requires i < |lines|
  {
    if i < SectionEnd(lines) then 0 else if isRule(lines[i]) then 1 else 2
  }

  // The opening section is read from the top, everything else from the end.
  predicate Precedes(lines: seq<string>, isRule: string -> bool, i: nat, j: nat)
    requires i < |lines| && j < |lines|
  {
    var a, b := Class(lines, isRule, i), Class(lines, isRule, j);
    a < b || (a == b && if a == 0 then i < j else i > j)
  }

  ghost predicate Before(order: seq<nat>, i: nat, j: nat) {
    exists k :: 0 <= k < |order| && order[k] == i && j !in order[..k]
  }

  lemma {:induction false} UpAt(from: nat, hi: nat, k: nat)
    requires from <= hi && k < hi - from
    ensures |Up(from, hi)| == hi - from && Up(from, hi)[k] == from + k
    decreases hi - from
  {
    if from + 1 < hi {
      UpAt(from + 1, hi, if k > 0 then k - 1 else 0);
    }
  }

  // What comes down from the end meets higher positions first.
  lemma {:induction false} DownAt(from: nat, hi: nat, lines: seq<string>, p: string -> bool, i: nat) returns (k: nat)
    requires from <= i < hi <= |lines| && p(lines[i])
    ensures k < |Down(from, hi, lines, p)| && Down(from, hi, lines, p)[k] == i
    ensures forall x | 0 <= x < k :: Down(from, hi, lines, p)[x] > i
    decreases hi
  {
    if i == hi - 1 {
      k := 0;
    } else {
      k := DownAt(from, hi - 1, lines, p, i);
      if p(lines[hi - 1]) { k := k + 1; }
    }
  }

  lemma {:induction false} DownSatisfies(from: nat, hi: nat, lines: seq<string>, p: string -> bool)
    requires from <= hi <= |lines|
    ensures forall k | 0 <= k < |Down(from, hi, lines, p)| :: p(lines[Down(from, hi, lines, p)[k]])
    decreases hi
  {
    if from < hi {
      DownSatisfies(from, hi - 1, lines, p);
    }
  }

  lemma BeforeInFront(a: seq<nat>, order: seq<nat>, b: seq<nat>, i: nat, j: nat, k: nat)
    requires k < |order| && order[k] == i
    requires j !in a && (forall x | 0 <= x < k :: order[x] != j)
    ensures Before(a + order + b, i, j)
  {
    var all := a + order + b;
    assert all[|a| + k] == i;
    var front := all[..|a| + k];
    forall x | 0 <= x < |front|
      ensures front[x] != j
    {
      assert front[x] == if x < |a| then a[x] else order[x - |a|];
    }
  }

  lemma SectionFirst(lines: seq<string>, isRule: string -> bool, i: nat, j: nat)
    requires i < SectionEnd(lines) && i < j < |lines|
    ensures Before(Priority(lines, isRule), i, j)
  {
    hide Before, SectionEnd, Up, Down;
    var end := SectionEnd(lines);
    var up, rest := Up(0, end), Down(end, |lines|, lines, isRule) + Down(0, |lines|, lines, AnyLine);
    UpAt(0, end, i);
    forall x | 0 <= x < i
      ensures up[x] != j
    {
      UpAt(0, end, x);
    }
    BeforeInFront([], up, rest, i, j, i);
    assert [] + up + rest == Priority(lines, isRule);
  }

  lemma RulesNext(lines: seq<string>, isRule: string -> bool, i: nat, j: nat)
    requires SectionEnd(lines) <= i < |lines| && isRule(lines[i])
    requires SectionEnd(lines) <= j < |lines| && (isRule(lines[j]) ==> j < i) && j != i
    ensures Before(Priority(lines, isRule), i, j)
  {
    hide Before, SectionEnd, Up, Down;
    var end := SectionEnd(lines);
    DownSatisfies(end, |lines|, lines, isRule);
    var k := DownAt(end, |lines|, lines, isRule, i);
    BeforeInFront(Up(0, end), Down(end, |lines|, lines, isRule), Down(0, |lines|, lines, AnyLine), i, j, k);
  }

  lemma RestLast(lines: seq<string>, isRule: string -> bool, i: nat, j: nat)
    requires SectionEnd(lines) <= j < i < |lines| && !isRule(lines[i]) && !isRule(lines[j])
    ensures Before(Priority(lines, isRule), i, j)
  {
    hide Before, SectionEnd, Up, Down;
    var end := SectionEnd(lines);
    var front, all := Up(0, end) + Down(end, |lines|, lines, isRule), Down(0, |lines|, lines, AnyLine);
    DownSatisfies(end, |lines|, lines, isRule);
    var k := DownAt(0, |lines|, lines, AnyLine, i);
    BeforeInFront(front, all, [], i, j, k);
    assert front + all + [] == Priority(lines, isRule);
  }

  // Section, rules, rest: the order in which lines are offered the budget.
  lemma PriorityIs(lines: seq<string>, isRule: string -> bool, i: nat, j: nat)
    requires i < |lines| && j < |lines| && Precedes(lines, isRule, i, j)
    ensures Before(Priority(lines, isRule), i, j)
  {
    hide Before, Priority, SectionEnd;
    if i < SectionEnd(lines) {
      SectionFirst(lines, isRule, i, j);
    } else if isRule(lines[i]) {
      RulesNext(lines, isRule, i, j);
    } else {
      RestLast(lines, isRule, i, j);
    }
  }

  lemma {:induction false} TakenFits(lines: seq<string>, c: Choice, order: seq<nat>, j: nat)
    requires Within(lines, order) && j < |lines|
    requires j !in c.kept && j in TakeAll(lines, c, order).kept
    ensures LineTokens(lines[j]) <= c.remaining
    decreases |order|
  {
    var c' := TakeLine(lines, c, order[0]);
    if j !in c'.kept {
      TakenFits(lines, c', order[1..], j);
    }
  }

  // Nothing of lower priority is kept at the cost of a line of higher priority, unless it is shorter: a rule line goes
  // only for a shorter line of the rest, and a newer line only for a shorter older one of its kind.
  lemma OmittedForShorter(lines: seq<string>, start: int, isRule: string -> bool, i: nat, j: nat)
    requires i < |lines| && j < |lines| && Precedes(lines, isRule, i, j)
    requires var kept := Chosen(lines, start, isRule).kept; i !in kept && j in kept
    requires !IsBlank(lines[i])
    ensures LineTokens(lines[j]) < LineTokens(lines[i])
  {
    hide LineTokens, IsBlank, Precedes, Priority;
    var order := Priority(lines, isRule);
    PriorityIs(lines, isRule, i, j);
    var k :| 0 <= k < |order| && order[k] == i && j !in order[..k];
    var c := Choice({}, start);
    var before, later := order[..k], order[k + 1..];
    assert order == before + ([i] + later) && ([i] + later)[1..] == later;
    TakeAllAppend(lines, c, before, [i] + later);
    var c1 := TakeAll(lines, c, before);
    OnlyOrderedAreKept(lines, c, before);
    TakeAllAccounts(lines, TakeLine(lines, c1, i), later);
    TakeAllAccounts(lines, c1, [i] + later);
    assert i !in c1.kept && TakeLine(lines, c1, i) == c1;
    TakenFits(lines, c1, later, j);
  }

  lemma {:induction false} NothingLeft(lines: seq<string>, c: Choice, order: seq<nat>)
    requires Within(lines, order) && c.remaining <= 0
    ensures TakeAll(lines, c, order) == c
    decreases |order|
  {
    if order != [] {
      NothingLeft(lines, c, order[1..]);
    }
  }

  // ----- rendering

  // The kept lines in file order.
  function KeptIndices(kept: set<nat>, i: nat, n: nat): (s: seq<nat>)
    requires i <= n
    ensures forall k | 0 <= k < |s| :: i <= s[k] && s[k] < n && s[k] in kept
    decreases n - i
  {
    if i == n then []
    else if i in kept then [i] + KeptIndices(kept, i + 1, n)
    else KeptIndices(kept, i + 1, n)
  }

  lemma {:induction false} KeptIndicesInOrder(kept: set<nat>, i: nat, n: nat)
    requires i <= n
    ensures forall a, b | 0 <= a < b < |KeptIndices(kept, i, n)| ::
              KeptIndices(kept, i, n)[a] < KeptIndices(kept, i, n)[b]
    ensures forall k | k in kept && i <= k < n :: k in KeptIndices(kept, i, n)
    decreases n - i
  {
    if i < n {
      KeptIndicesInOrder(kept, i + 1, n);
    }
  }

  predicate BlankBetween(lines: seq<string>, from: nat, hi: nat)
    requires hi <= |lines|
  {
    exists j | from < j < hi :: IsBlank(lines[j])
  }

  predicate BreakBefore(lines: seq<string>, kept: seq<nat>, k: nat)
    requires Within(lines, kept) && k < |kept|
  {
    k > 0 && BlankBetween(lines, kept[k - 1], kept[k])
  }

  function RenderFrom(lines: seq<string>, kept: seq<nat>, k: nat, breaks: bool): string
    requires Within(lines, kept) && k <= |kept|
    decreases |kept| - k
  {
    if k == |kept| then ""
    else if breaks && BreakBefore(lines, kept, k) then
      "\n" + (lines[kept[k]] + ("\n" + RenderFrom(lines, kept, k + 1, breaks)))
    else lines[kept[k]] + ("\n" + RenderFrom(lines, kept, k + 1, breaks))
  }

  function Rendered(header: string, lines: seq<string>, kept: seq<nat>, breaks: bool): string
    requires Within(lines, kept)
  {
    header + RenderFrom(lines, kept, 0, breaks)
  }

  // What is left of a file none of whose lines fits: the end of its last line that is not blank, two and a half runes
  // for every token.
  lemma {:induction false} LastLineTailIs(lines: seq<string>, n: nat, budget: nat, i: nat)
    requires i < n <= |lines| && !IsBlank(lines[i]) && forall k | i < k < n :: IsBlank(lines[k])
    ensures var line, tail := TrimSpace(lines[i]), LastLineTailFrom(lines, n, budget);
            && |tail| == (if |line| <= budget * 5 / 2 then |line| else budget * 5 / 2)
            && tail == line[|line| - |tail|..]
  {
    hide IsBlank;
    if i < n - 1 {
      LastLineTailIs(lines, n - 1, budget, i);
    }
  }

  lemma {:induction false} NoTailOfBlanks(lines: seq<string>, n: nat, budget: int)
    requires n <= |lines| && forall k | 0 <= k < n :: IsBlank(lines[k])
    ensures LastLineTailFrom(lines, n, budget) == ""
  {
    hide IsBlank;
    if n > 0 {
      NoTailOfBlanks(lines, n - 1, budget);
    }
  }

  // ----- what the block shows

  function NonBlank(lines: seq<string>): seq<string> {
    if lines == [] then []
    else if IsBlank(lines[0]) then NonBlank(lines[1..])
    else [lines[0]] + NonBlank(lines[1..])
  }

  function LinesAt(lines: seq<string>, kept: seq<nat>, k: nat): seq<string>
    requires Within(lines, kept) && k <= |kept|
    decreases |kept| - k
  {
    if k == |kept| then [] else [lines[kept[k]]] + LinesAt(lines, kept, k + 1)
  }

  lemma NonBlankCons(line: string, rest: seq<string>)
    ensures NonBlank([line] + rest) == (if IsBlank(line) then [] else [line]) + NonBlank(rest)
  {
    assert ([line] + rest)[1..] == rest;
  }

  // Reading the rendered text line by line gives back the kept lines, whole and in file order; the breaks between them
  // are blank lines.
  lemma {:induction false} RenderedReadsBack(lines: seq<string>, kept: seq<nat>, k: nat, breaks: bool)
    requires Within(lines, kept) && k <= |kept|
    requires forall i | 0 <= i < |lines| :: '\n' !in lines[i]
    requires forall i | k <= i < |kept| :: !IsBlank(lines[kept[i]])
    ensures NonBlank(Split(RenderFrom(lines, kept, k, breaks), '\n')) == LinesAt(lines, kept, k)
    decreases |kept| - k
  {
    hide IsBlank, BreakBefore;
    EmptyIsBlank();
    if k == |kept| {
      NonBlankCons("", []);
      assert Split("", '\n') == [""] + [];
    } else {
      var line, rest := lines[kept[k]], RenderFrom(lines, kept, k + 1, breaks);
      RenderedReadsBack(lines, kept, k + 1, breaks);
      SplitBehindLine(line, rest, '\n');
      NonBlankCons(line, Split(rest, '\n'));
      if breaks && BreakBefore(lines, kept, k) {
        SplitBehindLine("", line + ("\n" + rest), '\n');
        assert "" + ("\n" + (line + ("\n" + rest))) == "\n" + (line + ("\n" + rest));
        NonBlankCons("", Split(line + ("\n" + rest), '\n'));
      }
    }
  }

  lemma EmptyIsBlank()
    ensures IsBlank("")
  {
  }

  // The last part of a line, `keep` runes long.
  function Tail(line: string, keep: int): (t: string)
    ensures |t| <= if keep > 0 then keep else 0
  {
    if keep >= |line| then line else line[|line| - (if keep > 0 then keep else 0)..]
  }

  // Division that truncates toward zero.
  function HalvesOf(n: int): int {
    if n >= 0 then n * 5 / 2 else -(-n * 5 / 2)
  }

  function LastLineTailFrom(lines: seq<string>, n: nat, budget: int): string
    requires n <= |lines|
  {
    if n == 0 then ""
    else if !IsBlank(lines[n - 1]) then Tail(TrimSpace(lines[n - 1]), HalvesOf(budget))
    else LastLineTailFrom(lines, n - 1, budget)
  }

  function Chosen(lines: seq<string>, start: int, isRule: string -> bool): Choice {
    TakeAll(lines, Choice({}, start), Priority(lines, isRule))
  }

  // The block for a file that is over the threshold.
  function Block(header: string, content: string, budget: int, isRule: string -> bool): string {
    var lines := Split(content, '\n');
    var c := Chosen(lines, budget - LineTokens(header), isRule);
    var kept := KeptIndices(c.kept, 0, |lines|);
    if c.kept == {} then header + LastLineTailFrom(lines, |lines|, c.remaining - 1) + "\n"
    else if EstimateTokens(Rendered(header, lines, kept, true)) <= budget then Rendered(header, lines, kept, true)
    else Rendered(header, lines, kept, false)
  }

  // When a line was kept the block is the header and a text that reads back as the kept lines of the file.
  lemma BlockShowsKept(header: string, content: string, budget: int, isRule: string -> bool) returns (body: string)
    requires Chosen(Split(content, '\n'), budget - LineTokens(header), isRule).kept != {}
    ensures var lines := Split(content, '\n');
            var kept := KeptIndices(Chosen(lines, budget - LineTokens(header), isRule).kept, 0, |lines|);
            && Block(header, content, budget, isRule) == header + body
            && Within(lines, kept)
            && NonBlank(Split(body, '\n')) == LinesAt(lines, kept, 0)
  {
    hide IsBlank, TakeAll, Priority, RenderFrom, Split, LineTokens;
    var lines := Split(content, '\n');
    var start := budget - LineTokens(header);
    var c := Chosen(lines, start, isRule);
    var kept := KeptIndices(c.kept, 0, |lines|);
    TakeAllAccounts(lines, Choice({}, start), Priority(lines, isRule));
    PiecesHaveNone(content, '\n');
    var breaks := EstimateTokens(Rendered(header, lines, kept, true)) <= budget;
    body := RenderFrom(lines, kept, 0, breaks);
    RenderedReadsBack(lines, kept, 0, breaks);
  }

  predicate Capped(content: string, over: int, budget: int) {
    over > 0 && budget > 0 && EstimateTokens(content) > over
  }

  // ----- the budget is kept

  lemma {:induction false} RenderedLength(lines: seq<string>, kept: set<nat>, i: nat)
    requires i <= |lines|
    ensures 2 * |RenderFrom(lines, KeptIndices(kept, i, |lines|), 0, false)|
            <= 5 * (KeptCost(lines, kept, |lines|) - KeptCost(lines, kept, i))
    decreases |lines| - i
  {
    if i < |lines| {
      RenderedLength(lines, kept, i + 1);
      assert KeptCost(lines, kept, i + 1) ==
        KeptCost(lines, kept, i) + (if i in kept then LineTokens(lines[i]) else 0);
      if i in kept {
        RenderShift(lines, i, KeptIndices(kept, i + 1, |lines|), 0);
      }
    }
  }

  lemma {:induction false} RenderShift(lines: seq<string>, i: nat, rest: seq<nat>, k: nat)
    requires i < |lines| && Within(lines, rest) && k <= |rest|
    ensures Within(lines, [i] + rest)
    ensures RenderFrom(lines, [i] + rest, k + 1, false) == RenderFrom(lines, rest, k, false)
    decreases |rest| - k
  {
    hide BreakBefore;
    assert |[i] + rest| == |rest| + 1;
    if k < |rest| {
      assert ([i] + rest)[k + 1] == rest[k];
      RenderShift(lines, i, rest, k + 1);
    }
  }

  lemma LengthWithinBudget(header: string, body: nat, cost: nat, budget: int)
    requires 2 * body <= 5 * cost && LineTokens(header) + cost <= budget
    ensures (|header| + body) * 2 / 5 <= budget
  {
  }

  // A capped block is within the budget if and only if the bare header is; rounding every line up on its own
  // leaves room for the newlines.
  lemma BlockWithinBudget(header: string, content: string, budget: int, isRule: string -> bool)
    ensures var fits := EstimateTokens(Block(header, content, budget, isRule)) <= budget;
            fits <==> EstimateTokens(header + "\n") <= budget
    ensures LineTokens(header) <= budget ==> EstimateTokens(Block(header, content, budget, isRule)) <= budget
  {
    hide TakeAll, Priority, IsBlank, Split, LastLineTailFrom;
    var lines := Split(content, '\n');
    var start := budget - LineTokens(header);
    var c := Chosen(lines, start, isRule);
    TakeAllAccounts(lines, Choice({}, start), Priority(lines, isRule));
    EmptyCost(lines, |lines|);
    if c.kept == {} {
      TailWithinBudget(header, LastLineTailFrom(lines, |lines|, c.remaining - 1), lines, budget);
    } else {
      var kept := KeptIndices(c.kept, 0, |lines|);
      RenderedLength(lines, c.kept, 0);
      var body := RenderFrom(lines, kept, 0, false);
      LengthWithinBudget(header, |body|, KeptCost(lines, c.kept, |lines|), budget);
      assert EstimateTokens(Rendered(header, lines, kept, false)) <= budget;
    }
  }

  lemma {:induction false} EmptyCost(lines: seq<string>, n: nat)
    requires n <= |lines|
    ensures KeptCost(lines, {}, n) == 0
  {
    if n > 0 {
      EmptyCost(lines, n - 1);
    }
  }

  lemma {:induction false} TailLength(lines: seq<string>, n: nat, budget: int)
    requires n <= |lines|
    ensures 2 * |LastLineTailFrom(lines, n, budget)| <= 5 * (if budget > 0 then budget else 0)
  {
    hide IsBlank, TrimSpace;
    if n > 0 && IsBlank(lines[n - 1]) {
      TailLength(lines, n - 1, budget);
    }
  }

  lemma TailWithinBudget(header: string, tail: string, lines: seq<string>, budget: int)
    requires tail == LastLineTailFrom(lines, |lines|, budget - LineTokens(header) - 1)
    ensures EstimateTokens(header + tail + "\n") <= budget <==> EstimateTokens(header + "\n") <= budget
    ensures LineTokens(header) <= budget ==> EstimateTokens(header + tail + "\n") <= budget
  {
    TailLength(lines, |lines|, budget - LineTokens(header) - 1);
  }

  // ----- the loops of the source

  method FirstSectionEnd(lines: seq<string>) returns (end: nat)
    ensures if Headings(lines, |lines|) < 2 then end == if lines == [] then 0 else 1
            else end < |lines| && IsHeading(lines[end]) && Headings(lines, end) == 1
    ensures end == SectionEnd(lines)
  {
    var seenHeading := false;
    for i := 0 to |lines|
      invariant Headings(lines, i) == if seenHeading then 1 else 0
    {
      if IsHeading(lines[i]) {
        if seenHeading {
          HeadingsGrow(lines, i + 1, |lines|);
          SectionEndIsUnique(lines, i, SectionEnd(lines));
          return i;
        }
        seenHeading := true;
      }
    }
    end := if |lines| < 1 then |lines| else 1;
    SectionEndIsUnique(lines, end, SectionEnd(lines));
  }

  lemma ChosenInPhases(lines: seq<string>, start: int, isRule: string -> bool)
    ensures var c0 := TakeAll(lines, Choice({}, start), Up(0, SectionEnd(lines)));
            var c1 := TakeAll(lines, c0, Down(SectionEnd(lines), |lines|, lines, isRule));
            Chosen(lines, start, isRule) == TakeAll(lines, c1, Down(0, |lines|, lines, AnyLine))
  {
    var section := Up(0, SectionEnd(lines));
    var rules := Down(SectionEnd(lines), |lines|, lines, isRule);
    TakeAllAppend(lines, Choice({}, start), section + rules, Down(0, |lines|, lines, AnyLine));
    TakeAllAppend(lines, Choice({}, start), section, rules);
  }

  lemma TakeUpUnfold(lines: seq<string>, c: Choice, i: nat, hi: nat)
    requires i <= hi <= |lines|
    ensures TakeAll(lines, c, Up(i, hi)) ==
              if i == hi then c else TakeAll(lines, TakeLine(lines, c, i), Up(i + 1, hi))
  {
  }

  lemma TakeDownUnfold(lines: seq<string>, c: Choice, from: nat, hi: nat, p: string -> bool)
    requires from <= hi <= |lines|
    ensures TakeAll(lines, c, Down(from, hi, lines, p)) ==
              if from == hi then c
              else TakeAll(lines, if p(lines[hi - 1]) then TakeLine(lines, c, hi - 1) else c,
                           Down(from, hi - 1, lines, p))
  {
  }

  method TakeSection(lines: seq<string>, start: Choice, sectionEnd: nat) returns (c: Choice)
    requires sectionEnd <= |lines|
    ensures c == TakeAll(lines, start, Up(0, sectionEnd))
  {
    hide TakeLine, TakeAll, Up;
    c := start;
    for i := 0 to sectionEnd
      invariant TakeAll(lines, c, Up(i, sectionEnd)) == TakeAll(lines, start, Up(0, sectionEnd))
    {
      TakeUpUnfold(lines, c, i, sectionEnd);
      c := TakeLine(lines, c, i);
    }
    TakeUpUnfold(lines, c, sectionEnd, sectionEnd);
  }

  method TakeRules(lines: seq<string>, start: Choice, sectionEnd: nat, isRule: string -> bool) returns (c: Choice)
    requires sectionEnd <= |lines|
    ensures c == TakeAll(lines, start, Down(sectionEnd, |lines|, lines, isRule))
  {
    hide TakeLine, TakeAll, Down;
    c := start;
    var i := |lines| - 1;
    while i >= sectionEnd
      invariant sectionEnd - 1 <= i < |lines|
      invariant TakeAll(lines, c, Down(sectionEnd, i + 1, lines, isRule)) ==
                TakeAll(lines, start, Down(sectionEnd, |lines|, lines, isRule))
    {
      TakeDownUnfold(lines, c, sectionEnd, i + 1, isRule);
      if isRule(lines[i]) {
        c := TakeLine(lines, c, i);
      }
      i := i - 1;
    }
    TakeDownUnfold(lines, c, sectionEnd, sectionEnd, isRule);
  }

  method TakeNewest(lines: seq<string>, start: Choice) returns (c: Choice)
    ensures c == TakeAll(lines, start, Down(0, |lines|, lines, AnyLine))
  {
    hide TakeLine, TakeAll, Down;
    c := start;
    var i := |lines| - 1;
    while i >= 0 && c.remaining > 0
      invariant -1 <= i < |lines|
      invariant TakeAll(lines, c, Down(0, i + 1, lines, AnyLine)) ==
                TakeAll(lines, start, Down(0, |lines|, lines, AnyLine))
    {
      TakeDownUnfold(lines, c, 0, i + 1, AnyLine);
      c := TakeLine(lines, c, i);
      i := i - 1;
    }
    if i >= 0 {
      NothingLeft(lines, c, Down(0, i + 1, lines, AnyLine));
    } else {
      TakeDownUnfold(lines, c, 0, 0, AnyLine);
    }
  }

  method SelectLines(lines: seq<string>, start: int, isRule: string -> bool)
    returns (selected: set<nat>, remaining: int)
    ensures Choice(selected, remaining) == Chosen(lines, start, isRule)
  {
    hide TakeAll, Up, Down, Chosen;
    var sectionEnd := FirstSectionEnd(lines);
    var c := TakeSection(lines, Choice({}, start), sectionEnd);
    c := TakeRules(lines, c, sectionEnd, isRule);
    c := TakeNewest(lines, c);
    ChosenInPhases(lines, start, isRule);
    return c.kept, c.remaining;
  }

  method RenderKeptLines(header: string, lines: seq<string>, kept: seq<nat>, breaks: bool) returns (text: string)
    requires Within(lines, kept)
    ensures text == Rendered(header, lines, kept, breaks)
  {
    text := header;
    for k := 0 to |kept|
      invariant text + RenderFrom(lines, kept, k, breaks) == Rendered(header, lines, kept, breaks)
    {
      ghost var rest := RenderFrom(lines, kept, k + 1, breaks);
      ghost var line := lines[kept[k]];
      if breaks && k > 0 && BlankBetween(lines, kept[k - 1], kept[k]) {
        assert (text + "\n") + (line + ("\n" + rest)) == text + ("\n" + (line + ("\n" + rest)));
        text := text + "\n";
      }
      assert (text + line + "\n") + rest == text + (line + ("\n" + rest));
      text := text + lines[kept[k]] + "\n";
    }
  }

  method LastLineTail(lines: seq<string>, budget: int) returns (tail: string)
    ensures tail == LastLineTailFrom(lines, |lines|, budget)
  {
    hide TrimSpace;
    var i := |lines| - 1;
    while i >= 0
      invariant -1 <= i < |lines|
      invariant LastLineTailFrom(lines, i + 1, budget) == LastLineTailFrom(lines, |lines|, budget)
    {
      var line := TrimSpace(lines[i]);
      if line != "" {
        var keep := HalvesOf(budget);
        if keep < |line| {
          line := line[|line| - (if keep > 0 then keep else 0)..];
        }
        return line;
      }
      i := i - 1;
    }
    return "";
  }

  method BudgetMemoryContext(header: string, content: string, over: int, budget: int, isRule: string -> bool)
    returns (text: string, capped: bool)
    ensures capped == Capped(content, over, budget)
    ensures text == if capped then Block(header, content, budget, isRule) else content
  {
    hide Chosen, LastLineTailFrom, KeptIndices, RenderFrom, Split;
    if over <= 0 || budget <= 0 || EstimateTokens(content) <= over {
      return content, false;
    }
    var lines := Split(content, '\n');
    var selected, remaining := SelectLines(lines, budget - LineTokens(header), isRule);
    if selected == {} {
      var tail := LastLineTail(lines, remaining - 1);
      return header + tail + "\n", true;
    }
    var kept := KeptIndices(selected, 0, |lines|);
    var withBreaks := RenderKeptLines(header, lines, kept, true);
    if EstimateTokens(withBreaks) <= budget {
      return withBreaks, true;
    }
    text := RenderKeptLines(header, lines, kept, false);
    return text, true;
  }

  // What the cap leaves out of the file, said once for the whole block: only blank lines, and lines that cost more
  // than the budget still holds.
  lemma OmittedLinesDoNotFit(lines: seq<string>, start: int, isRule: string -> bool, i: nat)
    requires i < |lines| && i !in Chosen(lines, start, isRule).kept
    ensures IsBlank(lines[i]) || LineTokens(lines[i]) > Chosen(lines, start, isRule).remaining
    ensures var c := Chosen(lines, start, isRule);
            KeptCost(lines, c.kept, |lines|) + c.remaining == start
  {
    TakeAllAccounts(lines, Choice({}, start), Priority(lines, isRule));
    EmptyCost(lines, |lines|);
    if !IsBlank(lines[i]) {
      AllInDown(lines, |lines|, i);
      NothingMoreFits(lines, Choice({}, start), Priority(lines, isRule), i);
    }
  }
}
