/**
 The conversation history an agent turn works on, and the contract every stage keeps:
 an assistant message that calls tools is directly followed by exactly the results of its calls.
 */
module Messages {

  datatype Role = System | User | Assistant | Tool | OtherRole(name: string)

  // `name` and `args` are what the tool loop dispatches on; `wire` is the wire form of the same call.
  datatype ToolCall = ToolCall(id: string, name: string, args: string, wire: string)

  // `prompt` stands for the prompt layer, slot and source tags.
  datatype Msg = Msg(
    role: Role,
    content: string,
    calls: seq<ToolCall>,
    toolCallId: string,
    media: seq<string>,
    prompt: string)

  predicate IsUser(m: Msg) {
    m.role.User?
  }

  predicate IsTool(m: Msg) {
    m.role.Tool?
  }

  predicate IsCall(m: Msg) {
    m.role.Assistant? && m.calls != []
  }

  // Everything that is neither a system message nor part of a tool exchange.
  predicate IsPlain(m: Msg) {
    !m.role.System? && !IsTool(m) && !IsCall(m)
  }

  function Filter(h: seq<Msg>, keep: Msg -> bool): seq<Msg> {
    if h == [] then []
    else if keep(h[0]) then [h[0]] + Filter(h[1..], keep)
    else Filter(h[1..], keep)
  }

  lemma Assoc<T>(a: seq<T>, b: seq<T>, c: seq<T>)
    ensures (a + b) + c == a + (b + c)
  {
  }

  lemma Cancel<T>(a: seq<T>, x: seq<T>, y: seq<T>)
    requires a + x == a + y
    ensures x == y
  {
    assert (a + x)[|a|..] == x && (a + y)[|a|..] == y;
  }

  lemma {:induction false} FilterAppend(a: seq<Msg>, b: seq<Msg>, keep: Msg -> bool)
    ensures Filter(a + b, keep) == Filter(a, keep) + Filter(b, keep)
  {
    if a == [] {
      assert a + b == b;
    } else {
      assert (a + b)[1..] == a[1..] + b;
      FilterAppend(a[1..], b, keep);
      Assoc([a[0]], Filter(a[1..], keep), Filter(b, keep));
    }
  }

  ghost predicate IsSuffix<T>(s: seq<T>, h: seq<T>) {
    |s| <= |h| && h == h[..|h| - |s|] + s
  }

  lemma SuffixIntro<T>(a: seq<T>, s: seq<T>)
    ensures IsSuffix(s, a + s)
  {
    assert (a + s)[..|a|] == a;
  }

  lemma SuffixIsDrop<T>(s: seq<T>, h: seq<T>)
    requires IsSuffix(s, h)
    ensures s == h[|h| - |s|..]
  {
  }

  lemma SuffixTransitive<T>(a: seq<T>, b: seq<T>, c: seq<T>)
    requires IsSuffix(a, b) && IsSuffix(b, c)
    ensures IsSuffix(a, c)
  {
    assert c == c[..|c| - |b|] + (b[..|b| - |a|] + a);
    assert c[..|c| - |a|] == c[..|c| - |b|] + b[..|b| - |a|];
  }

  // Length of the run of tool messages that h starts with.
  function RunLen(h: seq<Msg>): (n: nat)
    ensures n <= |h|
    ensures forall i | 0 <= i < n :: IsTool(h[i])
    ensures n < |h| ==> !IsTool(h[n])
  {
    if h == [] || !IsTool(h[0]) then 0 else 1 + RunLen(h[1..])
  }

  function Run(h: seq<Msg>): seq<Msg> {
    h[..RunLen(h)]
  }

  function CallIds(calls: seq<ToolCall>): set<string> {
    set c | c in calls :: c.id
  }

  function ResultIds(run: seq<Msg>): set<string> {
    set m | m in run :: m.toolCallId
  }

  predicate DistinctResults(run: seq<Msg>) {
    forall i, j | 0 <= i < j < |run| :: run[i].toolCallId != run[j].toolCallId
  }

  // The results in `run` answer every call once, and nothing else.
  predicate Answers(calls: seq<ToolCall>, run: seq<Msg>) {
    && "" !in CallIds(calls)
    && ResultIds(run) == CallIds(calls)
    && DistinctResults(run)
  }

  predicate WellPlaced(h: seq<Msg>, i: nat)
    requires i < |h|
  {
    && !h[i].role.System?
    && (IsTool(h[i]) ==> i > 0 && (IsTool(h[i - 1]) || IsCall(h[i - 1])))
    && (IsCall(h[i]) ==>
          && i > 0
          && (IsUser(h[i - 1]) || IsTool(h[i - 1]))
          && Answers(h[i].calls, Run(h[i + 1..])))
  }

  // The provider contract, message by message.
  predicate WellFormed(h: seq<Msg>) {
    forall i | 0 <= i < |h| :: WellPlaced(h, i)
  }

  // A prompt carries at most one system message, in front; the contract is about what stands behind it.
  function Body(h: seq<Msg>): seq<Msg> {
    if h != [] && h[0].role.System? then h[1..] else h
  }

  predicate LegalPrompt(h: seq<Msg>) {
    WellFormed(Body(h))
  }

  // Where the next assistant message may call tools.
  predicate OpensExchange(h: seq<Msg>) {
    h != [] && (IsUser(h[|h| - 1]) || IsTool(h[|h| - 1]))
  }

  // What comes behind a prompt comes behind its body.
  lemma BodyAppend(h: seq<Msg>, tail: seq<Msg>)
    requires tail != [] && !tail[0].role.System?
    ensures Body(h + tail) == Body(h) + tail
  {
    if h == [] {
      assert h + tail == tail;
    } else if h[0].role.System? {
      assert (h + tail)[1..] == h[1..] + tail;
    }
  }

  lemma BodyOpens(h: seq<Msg>)
    ensures OpensExchange(Body(h)) <==> OpensExchange(h)
  {
    if |h| > 1 && h[0].role.System? {
      assert h[1..][|h| - 2] == h[|h| - 1];
    }
  }

  // Dropping messages before position k can only hurt a message that looks back at position k - 1.
  lemma WellFormedSuffix(h: seq<Msg>, k: nat)
    requires WellFormed(h) && k <= |h|
    requires k < |h| ==> !IsTool(h[k]) && !IsCall(h[k])
    ensures WellFormed(h[k..])
  {
    var s := h[k..];
    forall i | 0 <= i < |s|
      ensures WellPlaced(s, i)
    {
      assert WellPlaced(h, k + i);
      assert s[i + 1..] == h[k + i + 1..];
    }
  }

  // A run is cut short only by a message that is no tool result.
  lemma {:induction false} RunLenAppend(a: seq<Msg>, b: seq<Msg>)
    requires b == [] || !IsTool(b[0])
    ensures RunLen(a + b) == RunLen(a)
  {
    if a == [] {
      assert a + b == b;
    } else if IsTool(a[0]) {
      assert (a + b)[1..] == a[1..] + b;
      RunLenAppend(a[1..], b);
    }
  }

  // A message followed by a non-tool message is placed as it was before that message came.
  lemma PlacedAsBefore(h: seq<Msg>, tail: seq<Msg>, i: nat)
    requires i < |h| && tail != [] && !IsTool(tail[0])
    ensures WellPlaced(h + tail, i) <==> WellPlaced(h, i)
  {
    assert (h + tail)[i + 1..] == h[i + 1..] + tail;
    RunLenAppend(h[i + 1..], tail);
    assert Run(h[i + 1..] + tail) == Run(h[i + 1..]);
  }

  // What comes behind a history leaves its messages placed as they were.
  lemma WellFormedOfParts(h: seq<Msg>, tail: seq<Msg>)
    requires tail != [] && !IsTool(tail[0])
    ensures WellFormed(h + tail) <==>
              WellFormed(h) && forall i | |h| <= i < |h + tail| :: WellPlaced(h + tail, i)
  {
    forall i | 0 <= i < |h|
      ensures WellPlaced(h + tail, i) <==> WellPlaced(h, i)
    {
      PlacedAsBefore(h, tail, i);
    }
    hide WellPlaced;
  }
}
