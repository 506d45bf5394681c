/**
 The hint for an unknown tool name: the closest known name by edit distance. The two-row computation is proved
 to give the length of a shortest edit script.
 */
module ToolHint {

  function Min(a: nat, b: nat): nat {
    if a <= b then a else b
  }

  function DropLast<T>(s: seq<T>): seq<T>
    requires s != []
  {
    s[..|s| - 1]
  }

  function Last<T>(s: seq<T>): T
    requires s != []
  {
    s[|s| - 1]
  }

  // The textbook recurrence.
  function Lev(a: string, b: string): nat
    decreases |a| + |b|
  {
    if a == [] then |b|
    else if b == [] then |a|
    else
      Min(Min(Lev(DropLast(a), b) + 1, Lev(a, DropLast(b)) + 1),
          Lev(DropLast(a), DropLast(b)) + (if Last(a) == Last(b) then 0 else 1))
  }

  // ----- edit scripts: what the distance means

  datatype Edit = Keep(c: char) | Insert(c: char) | Delete(c: char) | Replace(c: char, d: char)

  function Source(s: seq<Edit>): string {
    if s == [] then []
    else if Last(s).Insert? then Source(DropLast(s))
    else Source(DropLast(s)) + [Last(s).c]
  }

  // The character an edit leaves behind.
  function Made(e: Edit): char
    requires !e.Delete?
  {
    if e.Replace? then e.d else e.c
  }

  function Target(s: seq<Edit>): string {
    if s == [] then []
    else if Last(s).Delete? then Target(DropLast(s))
    else Target(DropLast(s)) + [Made(Last(s))]
  }

  function Cost(s: seq<Edit>): nat {
    if s == [] then 0 else Cost(DropLast(s)) + (if Last(s).Keep? then 0 else 1)
  }

  ghost predicate Turns(s: seq<Edit>, a: string, b: string) {
    Source(s) == a && Target(s) == b
  }

  lemma ScriptSnoc(s: seq<Edit>, e: Edit)
    ensures Source(s + [e]) == if e.Insert? then Source(s) else Source(s) + [e.c]
    ensures Target(s + [e]) == if e.Delete? then Target(s) else Target(s) + [Made(e)]
    ensures Cost(s + [e]) == Cost(s) + (if e.Keep? then 0 else 1)
  {
    assert DropLast(s + [e]) == s && Last(s + [e]) == e;
  }

  lemma LevCases(a: string, b: string)
    ensures a == [] && b != [] ==> Lev(a, b) == Lev(a, DropLast(b)) + 1
    ensures a != [] && b == [] ==> Lev(a, b) == Lev(DropLast(a), b) + 1
    ensures a != [] && b != [] ==>
              || Lev(a, b) == Lev(a, DropLast(b)) + 1
              || Lev(a, b) == Lev(DropLast(a), b) + 1
              || Lev(a, b) == Lev(DropLast(a), DropLast(b)) + (if Last(a) == Last(b) then 0 else 1)
    ensures a != [] ==> a == DropLast(a) + [Last(a)]
    ensures b != [] ==> b == DropLast(b) + [Last(b)]
  {
  }

  lemma {:induction false} ShortestScript(a: string, b: string) returns (s: seq<Edit>)
    ensures Turns(s, a, b) && Cost(s) == Lev(a, b)
    decreases |a| + |b|
  {
    if a == [] && b == [] {
      return [];
    }
    hide Lev, Source, Target, Cost;
    LevCases(a, b);
    var e: Edit;
    if b != [] && Lev(a, b) == Lev(a, DropLast(b)) + 1 {
      s := ShortestScript(a, DropLast(b));
      e := Insert(Last(b));
    } else if a != [] && Lev(a, b) == Lev(DropLast(a), b) + 1 {
      s := ShortestScript(DropLast(a), b);
      e := Delete(Last(a));
    } else {
      s := ShortestScript(DropLast(a), DropLast(b));
      e := if Last(a) == Last(b) then Keep(Last(a)) else Replace(Last(a), Last(b));
    }
    ScriptSnoc(s, e);
    s := s + [e];
  }

  lemma SnocBounds(a: string, b: string, c: char, d: char)
    ensures Lev(a + [c], b) <= Lev(a, b) + 1
    ensures Lev(a, b + [d]) <= Lev(a, b) + 1
    ensures Lev(a + [c], b + [d]) <= Lev(a, b) + (if c == d then 0 else 1)
  {
    assert DropLast(a + [c]) == a && DropLast(b + [d]) == b;
  }

  lemma {:induction false} NoShorterScript(s: seq<Edit>)
    ensures Lev(Source(s), Target(s)) <= Cost(s)
  {
    if s != [] {
      NoShorterScript(DropLast(s));
      var d := if Last(s).Replace? then Last(s).d else Last(s).c;
      SnocBounds(Source(DropLast(s)), Target(DropLast(s)), Last(s).c, d);
    }
  }

  // The distance is the length of a shortest script that turns one string into the other.
  lemma DistanceIsShortest(a: string, b: string)
    ensures exists s :: Turns(s, a, b) && Cost(s) == Lev(a, b)
    ensures forall s :: Turns(s, a, b) ==> Lev(a, b) <= Cost(s)
  {
    var s := ShortestScript(a, b);
    forall t | Turns(t, a, b)
      ensures Lev(a, b) <= Cost(t)
    {
      NoShorterScript(t);
    }
  }

  lemma {:induction false} Symmetric(a: string, b: string)
    ensures Lev(a, b) == Lev(b, a)
    decreases |a| + |b|
  {
    if a != [] && b != [] {
      Symmetric(DropLast(a), b);
      Symmetric(a, DropLast(b));
      Symmetric(DropLast(a), DropLast(b));
    }
  }

  lemma {:induction false} ZeroOnlyOnEqual(a: string, b: string)
    ensures Lev(a, b) == 0 <==> a == b
    decreases |a| + |b|
  {
    if a != [] && b != [] {
      ZeroOnlyOnEqual(DropLast(a), DropLast(b));
      assert a == DropLast(a) + [Last(a)] && b == DropLast(b) + [Last(b)];
    }
  }

  // One script after the other, with the edits of the middle string cancelled.
  lemma {:induction false} Compose(s: seq<Edit>, t: seq<Edit>) returns (r: seq<Edit>)
    requires Target(s) == Source(t)
    ensures Turns(r, Source(s), Target(t)) && Cost(r) <= Cost(s) + Cost(t)
    decreases |s| + |t|
  {
    if s == [] && t == [] {
      return [];
    } else if s != [] && Last(s).Delete? {
      r := Compose(DropLast(s), t);
      ScriptSnoc(r, Last(s));
      return r + [Last(s)];
    } else if t != [] && Last(t).Insert? {
      r := Compose(s, DropLast(t));
      ScriptSnoc(r, Last(t));
      return r + [Last(t)];
    }
    var x, y := Last(s), Last(t);
    var made := Made(x);
    assert Target(s) == Target(DropLast(s)) + [made] && Source(t) == Source(DropLast(t)) + [y.c];
    assert made == y.c && Target(DropLast(s)) == Source(DropLast(t)) by {
      assert Last(Target(s)) == made && Last(Source(t)) == y.c;
      assert DropLast(Target(s)) == Target(DropLast(s)) && DropLast(Source(t)) == Source(DropLast(t));
    }
    r := Compose(DropLast(s), DropLast(t));
    if x.Insert? && y.Delete? {
      return;
    }
    var e := if x.Insert? then Insert(Made(y))
             else if y.Delete? then Delete(x.c)
             else if x.Keep? && y.Keep? then x
             else Replace(x.c, Made(y));
    ScriptSnoc(r, e);
    r := r + [e];
  }

  lemma TriangleInequality(a: string, b: string, c: string)
    ensures Lev(a, c) <= Lev(a, b) + Lev(b, c)
  {
    var s := ShortestScript(a, b);
    var t := ShortestScript(b, c);
    var r := Compose(s, t);
    NoShorterScript(r);
  }

  // ----- the computation

  // One cell of the table: the distance between two prefixes.
  function Cell(a: string, b: string, i: nat, j: nat): nat
    requires i <= |a| && j <= |b|
  {
    Lev(a[..i], b[..j])
  }

  lemma CellUnfold(a: string, b: string, i: nat, j: nat)
    requires i <= |a| && j <= |b|
    ensures i == 0 ==> Cell(a, b, i, j) == j
    ensures j == 0 ==> Cell(a, b, i, j) == i
    ensures i > 0 && j > 0 ==>
              Cell(a, b, i, j) ==
              Min(Min(Cell(a, b, i - 1, j) + 1, Cell(a, b, i, j - 1) + 1),
                  Cell(a, b, i - 1, j - 1) + (if a[i - 1] == b[j - 1] then 0 else 1))
  {
    if i > 0 && j > 0 {
      assert DropLast(a[..i]) == a[..i - 1] && DropLast(b[..j]) == b[..j - 1];
    }
  }

  // The cells of row i before column n.
  ghost predicate IsRow(row: array<int>, a: string, b: string, i: nat, n: nat)
    requires i <= |a| && n <= |b| + 1 && n <= row.Length
    reads row
  {
    forall j | 0 <= j < n :: row[j] == Cell(a, b, i, j)
  }

  method FillRow(prev: array<int>, curr: array<int>, a: string, b: string, i: nat)
    requires 0 < i <= |a| && prev.Length == curr.Length == |b| + 1 && prev != curr
    requires IsRow(prev, a, b, i - 1, |b| + 1)
    modifies curr
    ensures IsRow(curr, a, b, i, |b| + 1)
  {
    hide Cell;
    CellUnfold(a, b, i, 0);
    curr[0] := i;
    for j := 1 to |b| + 1
      invariant IsRow(curr, a, b, i, j)
    {
      var cost := 1;
      if a[i - 1] == b[j - 1] {
        cost := 0;
      }
      var deletion := prev[j] + 1;
      var insertion := curr[j - 1] + 1;
      var substitution := prev[j - 1] + cost;
      var m := deletion;
      if insertion < m {
        m := insertion;
      }
      if substitution < m {
        m := substitution;
      }
      CellUnfold(a, b, i, j);
      curr[j] := m;
    }
  }

  method LevenshteinDistance(a: string, b: string) returns (d: nat)
    ensures d == Lev(a, b)
  {
    if |a| == 0 {
      return |b|;
    }
    if |b| == 0 {
      return |a|;
    }
    hide Cell;
    var ar, br := a, b;
    if |ar| < |br| {
      ar, br := br, ar;
      Symmetric(a, b);
    }
    var prev := new int[|br| + 1](j => j);
    var curr := new int[|br| + 1](_ => 0);
    forall j: nat | j <= |br| { CellUnfold(ar, br, 0, j); }
    for i := 1 to |ar| + 1
      invariant prev != curr && prev.Length == curr.Length == |br| + 1
      invariant fresh(prev) && fresh(curr)
      invariant IsRow(prev, ar, br, i - 1, |br| + 1)
    {
      FillRow(prev, curr, ar, br, i);
      prev, curr := curr, prev;
    }
    LastCell(ar, br);
    return prev[|br|];
  }

  lemma LastCell(a: string, b: string)
    ensures Cell(a, b, |a|, |b|) == Lev(a, b)
  {
    assert a[..|a|] == a && b[..|b|] == b;
  }

  function DistanceTo(target: string, candidate: string, lower: string -> string): nat {
    Lev(lower(target), lower(candidate))
  }

  // The first of the closest candidates.
  method ClosestToolName(target: string, candidates: seq<string>, lower: string -> string)
    returns (best: string, distance: int)
    ensures candidates == [] ==> distance == -1 && best == ""
    ensures candidates != [] ==>
              exists k | 0 <= k < |candidates| ::
                && best == candidates[k]
                && distance == DistanceTo(target, candidates[k], lower)
                && (forall j | 0 <= j < |candidates| :: DistanceTo(target, candidates[j], lower) >= distance)
                && (forall j | 0 <= j < k :: DistanceTo(target, candidates[j], lower) > distance)
  {
    best, distance := "", -1;
    ghost var k := 0;
    for n := 0 to |candidates|
      invariant n == 0 ==> distance == -1 && best == ""
      invariant n > 0 ==>
                  && 0 <= k < n
                  && best == candidates[k]
                  && distance == DistanceTo(target, candidates[k], lower)
                  && (forall j | 0 <= j < n :: DistanceTo(target, candidates[j], lower) >= distance)
                  && (forall j | 0 <= j < k :: DistanceTo(target, candidates[j], lower) > distance)
    {
      var d := LevenshteinDistance(lower(target), lower(candidates[n]));
      assert d == DistanceTo(target, candidates[n], lower);
      if distance == -1 || d < distance {
        distance := d;
        best := candidates[n];
        k := n;
      }
    }
  }
}
