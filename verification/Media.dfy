/**
 Resolving media references before a provider call. Images a tool of the current turn returned are shown in a
 synthetic user message, which must wait for the end of the run of tool results.
 */
module Media {
  import opened Messages
  import opened Sanitizer

  // What the store and the file system say about one media reference. `dataUrl` is empty for an image that is
  // too large or cannot be encoded.
  datatype Lookup = Missing | Found(tag: string, isImage: bool, dataUrl: string)

  datatype Env = Env(lookup: string -> Lookup, inject: (string, seq<string>) -> string)

  predicate IsMediaRef(ref: string) {
    |ref| >= 8 && ref[..8] == "media://"
  }

  function PlainRefs(refs: seq<string>): (r: seq<string>)
    ensures forall x | x in r :: !IsMediaRef(x)
  {
    if refs == [] then []
    else if IsMediaRef(refs[0]) then PlainRefs(refs[1..])
    else [refs[0]] + PlainRefs(refs[1..])
  }

  function PathTags(refs: seq<string>, env: Env): seq<string> {
    if refs == [] then []
    else if IsMediaRef(refs[0]) && env.lookup(refs[0]).Found? then
      [env.lookup(refs[0]).tag] + PathTags(refs[1..], env)
    else PathTags(refs[1..], env)
  }

  predicate IsShowable(l: Lookup) {
    l.Found? && l.isImage && l.dataUrl != ""
  }

  function Images(refs: seq<string>, env: Env): seq<string> {
    if refs == [] then []
    else if IsMediaRef(refs[0]) && IsShowable(env.lookup(refs[0])) then
      [env.lookup(refs[0]).dataUrl] + Images(refs[1..], env)
    else Images(refs[1..], env)
  }

  // Reference by reference: one that is no media reference stays; of the others, one that is found leaves its tag, and
  // an image that could be encoded is there to be shown.
  lemma OneRef(ref: string, env: Env)
    ensures PlainRefs([ref]) == if IsMediaRef(ref) then [] else [ref]
    ensures PathTags([ref], env) ==
              if IsMediaRef(ref) && env.lookup(ref).Found? then [env.lookup(ref).tag] else []
    ensures Images([ref], env) ==
              if IsMediaRef(ref) && env.lookup(ref).Found? && env.lookup(ref).isImage && env.lookup(ref).dataUrl != ""
              then [env.lookup(ref).dataUrl]
              else []
  {
    assert [ref][1..] == [];
  }

  lemma {:induction false} PlainAppend(a: seq<string>, b: seq<string>)
    ensures PlainRefs(a + b) == PlainRefs(a) + PlainRefs(b)
  {
    hide IsMediaRef;
    if a == [] {
      assert a + b == b;
    } else {
      assert (a + b)[1..] == a[1..] + b;
      PlainAppend(a[1..], b);
    }
  }

  lemma {:induction false} TagsAppend(a: seq<string>, b: seq<string>, env: Env)
    ensures PathTags(a + b, env) == PathTags(a, env) + PathTags(b, env)
  {
    hide IsMediaRef;
    if a == [] {
      assert a + b == b;
    } else {
      assert (a + b)[1..] == a[1..] + b;
      TagsAppend(a[1..], b, env);
    }
  }

  lemma {:induction false} ImageRefsAppend(a: seq<string>, b: seq<string>, env: Env)
    ensures Images(a + b, env) == Images(a, env) + Images(b, env)
  {
    hide IsMediaRef, IsShowable;
    if a == [] {
      assert a + b == b;
    } else {
      assert (a + b)[1..] == a[1..] + b;
      ImageRefsAppend(a[1..], b, env);
    }
  }

  lemma RefsAppend(a: seq<string>, b: seq<string>, env: Env)
    ensures PlainRefs(a + b) == PlainRefs(a) + PlainRefs(b)
    ensures PathTags(a + b, env) == PathTags(a, env) + PathTags(b, env)
    ensures Images(a + b, env) == Images(a, env) + Images(b, env)
  {
    PlainAppend(a, b);
    TagsAppend(a, b, env);
    ImageRefsAppend(a, b, env);
  }

  lemma {:induction false} ImageIff(refs: seq<string>, env: Env, url: string)
    ensures url in Images(refs, env) <==>
              exists k :: 0 <= k < |refs| && IsMediaRef(refs[k]) && url in Images([refs[k]], env)
  {
    if refs != [] {
      assert refs == [refs[0]] + refs[1..];
      RefsAppend([refs[0]], refs[1..], env);
      ImageIff(refs[1..], env, url);
      hide Images;
      OneRef(refs[0], env);
      assert forall k | 0 <= k < |refs| - 1 :: refs[1..][k] == refs[k + 1];
      if url in Images(refs[1..], env) {
        var k :| 0 <= k < |refs| - 1 && IsMediaRef(refs[1..][k]) && url in Images([refs[1..][k]], env);
        assert refs[k + 1] == refs[1..][k];
      }
    }
  }

  // The tags of what was found are put into the content of the message; otherwise the content stays.
  lemma ResolvedSays(m: Msg, env: Env)
    ensures PathTags(m.media, env) == [] ==> Resolved(m, env).content == m.content
    ensures PathTags(m.media, env) != [] ==> Resolved(m, env).content == env.inject(m.content, PathTags(m.media, env))
    ensures forall ref | ref in m.media && !IsMediaRef(ref) :: ref in Resolved(m, env).media
  {
    PlainRefsStay(m.media);
  }

  lemma {:induction false} PlainRefsStay(refs: seq<string>)
    ensures forall ref | ref in refs && !IsMediaRef(ref) :: ref in PlainRefs(refs)
  {
    if refs != [] {
      PlainRefsStay(refs[1..]);
    }
  }

  function Resolved(m: Msg, env: Env): (r: Msg)
    ensures r.role == m.role && r.calls == m.calls && r.toolCallId == m.toolCallId
  {
    var tags := PathTags(m.media, env);
    m.(media := PlainRefs(m.media), content := if tags == [] then m.content else env.inject(m.content, tags))
  }

  // Only tool results of the current turn show their images.
  function Shown(m: Msg, current: bool, env: Env): seq<string> {
    if IsTool(m) && current then Images(m.media, env) else []
  }

  function FollowUp(images: seq<string>): (m: Msg)
    ensures IsUser(m)
  {
    Msg(User, "[Loaded image from tool result above]", [], "", images, "tool-result")
  }

  datatype Item = Kept(i: nat) | Inserted(images: seq<string>)

  function Flush(pending: seq<string>): seq<Item> {
    if pending == [] then [] else [Inserted(pending)]
  }

  // The layout of the result: which message stands where, and which images are inserted between them.
  function Layout(h: seq<Msg>, i: nat, pending: seq<string>, start: nat, env: Env): seq<Item>
    requires i <= |h|
    decreases |h| - i
  {
    if i == |h| then Flush(pending)
    else if IsTool(h[i]) then
      [Kept(i)] + Layout(h, i + 1, pending + Shown(h[i], i >= start, env), start, env)
    else
      Flush(pending) + ([Kept(i)] + Layout(h, i + 1, [], start, env))
  }

  predicate Indexed(items: seq<Item>, h: seq<Msg>) {
    forall x | x in items && x.Kept? :: x.i < |h|
  }

  lemma {:induction false} LayoutIndexed(h: seq<Msg>, i: nat, pending: seq<string>, start: nat, env: Env)
    requires i <= |h|
    ensures Indexed(Layout(h, i, pending, start, env), h)
    decreases |h| - i
  {
    if i < |h| {
      LayoutIndexed(h, i + 1, if IsTool(h[i]) then pending + Shown(h[i], i >= start, env) else [], start, env);
    }
  }

  function Render(items: seq<Item>, h: seq<Msg>, env: Env): (r: seq<Msg>)
    requires Indexed(items, h)
    ensures |r| == |items|
  {
    if items == [] then []
    else
      var m := match items[0] case Kept(i) => Resolved(h[i], env) case Inserted(images) => FollowUp(images);
      [m] + Render(items[1..], h, env)
  }

  function ResolvedHistory(h: seq<Msg>, start: nat, env: Env): seq<Msg> {
    LayoutIndexed(h, 0, [], start, env);
    Render(Layout(h, 0, [], start, env), h, env)
  }

  function NormalizedStart(h: seq<Msg>, start: int): nat {
    if start < 0 then 0 else if start > |h| then |h| else start
  }

  // ----- the loops of the source

  method ResolveRefs(m: Msg, current: bool, env: Env)
    returns (resolved: seq<string>, tags: seq<string>, images: seq<string>)
    ensures resolved == PlainRefs(m.media)
    ensures tags == PathTags(m.media, env)
    ensures images == Shown(m, current, env)
  {
    resolved, tags, images := [], [], [];
    for k := 0 to |m.media|
      invariant resolved + PlainRefs(m.media[k..]) == PlainRefs(m.media)
      invariant tags + PathTags(m.media[k..], env) == PathTags(m.media, env)
      invariant IsTool(m) && current ==> images + Images(m.media[k..], env) == Images(m.media, env)
      invariant !(IsTool(m) && current) ==> images == []
    {
      var ref := m.media[k];
      assert m.media[k..][0] == ref && m.media[k..][1..] == m.media[k + 1..];
      var rest := m.media[k + 1..];
      if !IsMediaRef(ref) {
        Assoc(resolved, [ref], PlainRefs(rest));
        resolved := resolved + [ref];
        continue;
      }
      var found := env.lookup(ref);
      if found.Missing? {
        continue;
      }
      Assoc(tags, [found.tag], PathTags(rest, env));
      tags := tags + [found.tag];
      if IsTool(m) && current && found.isImage && found.dataUrl != "" {
        Assoc(images, [found.dataUrl], Images(rest, env));
        images := images + [found.dataUrl];
      }
    }
  }

  method ResolveMessage(m: Msg, current: bool, env: Env) returns (resolved: Msg, images: seq<string>)
    ensures resolved == Resolved(m, env)
    ensures images == Shown(m, current, env)
  {
    var media, tags;
    media, tags, images := ResolveRefs(m, current, env);
    var content := m.content;
    if |tags| > 0 {
      content := env.inject(content, tags);
    }
    resolved := m.(media := media, content := content);
  }

  // Message by message: what is kept is resolved in its place, and what is inserted is a user message with the images.
  lemma {:induction false} RenderShows(items: seq<Item>, h: seq<Msg>, env: Env, j: nat)
    requires Indexed(items, h) && j < |items|
    ensures var m := Render(items, h, env)[j];
            && (items[j].Kept? ==> items[j].i < |h| && m == Resolved(h[items[j].i], env))
            && (items[j].Inserted? ==> IsUser(m) && m.media == items[j].images)
  {
    hide Resolved;
    assert items[0] in items;
    if j > 0 {
      assert items[j] == items[1..][j - 1];
      RenderShows(items[1..], h, env, j - 1);
    }
  }

  lemma {:induction false} RenderAppend(a: seq<Item>, b: seq<Item>, h: seq<Msg>, env: Env)
    requires Indexed(a, h) && Indexed(b, h) && Indexed(a + b, h)
    ensures Render(a + b, h, env) == Render(a, h, env) + Render(b, h, env)
  {
    if a == [] {
      assert a + b == b;
    } else {
      assert (a + b)[1..] == a[1..] + b;
      RenderAppend(a[1..], b, h, env);
    }
  }

  // What is still to come at position i.
  function RestOf(h: seq<Msg>, i: nat, pending: seq<string>, start: nat, env: Env): seq<Msg>
    requires i <= |h|
  {
    LayoutIndexed(h, i, pending, start, env);
    Render(Layout(h, i, pending, start, env), h, env)
  }

  lemma RestUnfold(h: seq<Msg>, i: nat, pending: seq<string>, start: nat, env: Env)
    requires i <= |h|
    ensures var flush := if pending == [] then [] else [FollowUp(pending)];
            RestOf(h, i, pending, start, env) ==
              if i == |h| then flush
              else if IsTool(h[i]) then
                [Resolved(h[i], env)] + RestOf(h, i + 1, pending + Shown(h[i], i >= start, env), start, env)
              else if pending == [] then [Resolved(h[i], env)] + RestOf(h, i + 1, [], start, env)
              else [FollowUp(pending)] + ([Resolved(h[i], env)] + RestOf(h, i + 1, [], start, env))
  {
    var items := Layout(h, i, pending, start, env);
    LayoutIndexed(h, i, pending, start, env);
    if i < |h| {
      var next := if IsTool(h[i]) then pending + Shown(h[i], i >= start, env) else [];
      var later := Layout(h, i + 1, next, start, env);
      LayoutIndexed(h, i + 1, next, start, env);
      var kept := [Kept(i)] + later;
      assert kept[1..] == later;
      if !IsTool(h[i]) {
        RenderAppend(Flush(pending), kept, h, env);
      }
    }
    if pending != [] {
      assert Render(Flush(pending), h, env) == [FollowUp(pending)] + Render([], h, env);
    }
  }

  method ResolveMediaRefs(messages: seq<Msg>, hasStore: bool, env: Env, currentTurnStart: int)
    returns (result: seq<Msg>)
    ensures result == if hasStore
                      then ResolvedHistory(messages, NormalizedStart(messages, currentTurnStart), env)
                      else messages
  {
    if !hasStore {
      return messages;
    }
    hide RestOf, Resolved, Shown;
    var start := NormalizedStart(messages, currentTurnStart);
    result := [];
    var pending: seq<string> := [];
    RestIsHistory(messages, start, env);
    for i := 0 to |messages|
      invariant result + RestOf(messages, i, pending, start, env) == ResolvedHistory(messages, start, env)
      invariant i == |messages| ==> pending == []
    {
      var m := messages[i];
      RestUnfold(messages, i, pending, start, env);
      if !IsTool(m) && |pending| > 0 {
        Assoc(result, [FollowUp(pending)], [Resolved(m, env)] + RestOf(messages, i + 1, [], start, env));
        result := result + [FollowUp(pending)];
        pending := [];
      }
      var resolved, images := ResolveMessage(m, i >= start, env);
      pending := pending + images;
      Assoc(result, [resolved], RestOf(messages, i + 1, pending, start, env));
      result := result + [resolved];
      if i == |messages| - 1 && |pending| > 0 {
        RestUnfold(messages, i + 1, pending, start, env);
        RestUnfold(messages, i + 1, [], start, env);
        result := result + [FollowUp(pending)];
        pending := [];
      }
    }
    RestUnfold(messages, |messages|, pending, start, env);
  }

  lemma RestIsHistory(h: seq<Msg>, start: nat, env: Env)
    ensures RestOf(h, 0, [], start, env) == ResolvedHistory(h, start, env)
  {
  }

  // A list of user messages is resolved message by message.
  lemma {:induction false} UsersResolvedFrom(h: seq<Msg>, i: nat, start: nat, env: Env)
    requires i <= |h| && forall k | 0 <= k < |h| :: IsUser(h[k])
    ensures var r := RestOf(h, i, [], start, env);
            |r| == |h| - i && forall k | 0 <= k < |r| :: r[k] == Resolved(h[i + k], env)
    decreases |h| - i
  {
    hide RestOf, Resolved;
    RestUnfold(h, i, [], start, env);
    if i < |h| {
      UsersResolvedFrom(h, i + 1, start, env);
    }
  }

  lemma UsersResolved(h: seq<Msg>, start: nat, env: Env)
    requires forall k | 0 <= k < |h| :: IsUser(h[k])
    ensures var r := ResolvedHistory(h, start, env);
            |r| == |h| && forall k | 0 <= k < |r| :: IsUser(r[k])
  {
    hide RestOf;
    RestIsHistory(h, start, env);
    UsersResolvedFrom(h, 0, start, env);
  }

  // ----- every message stays, in order

  function KeptOf(items: seq<Item>): seq<nat> {
    if items == [] then []
    else if items[0].Kept? then [items[0].i] + KeptOf(items[1..])
    else KeptOf(items[1..])
  }

  function UpTo(i: nat, n: nat): seq<nat>
    requires i <= n
    decreases n - i
  {
    if i == n then [] else [i] + UpTo(i + 1, n)
  }

  lemma {:induction false} KeptAppend(a: seq<Item>, b: seq<Item>)
    ensures KeptOf(a + b) == KeptOf(a) + KeptOf(b)
  {
    if a == [] {
      assert a + b == b;
    } else {
      assert (a + b)[1..] == a[1..] + b;
      KeptAppend(a[1..], b);
      if a[0].Kept? { Assoc([a[0].i], KeptOf(a[1..]), KeptOf(b)); }
    }
  }

  lemma KeptOfCons(i: nat, later: seq<Item>)
    ensures KeptOf([Kept(i)] + later) == [i] + KeptOf(later)
  {
    assert ([Kept(i)] + later)[1..] == later;
  }

  // Without the insertions, the layout is the input, message for message.
  lemma {:induction false} EveryMessageStays(h: seq<Msg>, i: nat, pending: seq<string>, start: nat, env: Env)
    requires i <= |h|
    ensures KeptOf(Layout(h, i, pending, start, env)) == UpTo(i, |h|)
    decreases |h| - i
  {
    hide Shown;
    if i < |h| {
      var next := if IsTool(h[i]) then pending + Shown(h[i], i >= start, env) else [];
      EveryMessageStays(h, i + 1, next, start, env);
      var kept := [Kept(i)] + Layout(h, i + 1, next, start, env);
      KeptOfCons(i, Layout(h, i + 1, next, start, env));
      if !IsTool(h[i]) {
        KeptAppend(Flush(pending), kept);
      }
    }
  }

  // ----- every image is shown once

  function ImagesOf(items: seq<Item>): seq<string> {
    if items == [] then []
    else if items[0].Inserted? then items[0].images + ImagesOf(items[1..])
    else ImagesOf(items[1..])
  }

  function AllShown(h: seq<Msg>, i: nat, start: nat, env: Env): seq<string>
    requires i <= |h|
    decreases |h| - i
  {
    if i == |h| then [] else Shown(h[i], i >= start, env) + AllShown(h, i + 1, start, env)
  }

  lemma {:induction false} ImagesAppend(a: seq<Item>, b: seq<Item>)
    ensures ImagesOf(a + b) == ImagesOf(a) + ImagesOf(b)
  {
    if a == [] {
      assert a + b == b;
    } else {
      assert (a + b)[1..] == a[1..] + b;
      ImagesAppend(a[1..], b);
      if a[0].Inserted? { Assoc(a[0].images, ImagesOf(a[1..]), ImagesOf(b)); }
    }
  }

  lemma FlushImages(pending: seq<string>)
    ensures ImagesOf(Flush(pending)) == pending
  {
    if pending != [] {
      assert Flush(pending)[1..] == [];
      assert pending + [] == pending;
    }
  }

  // The inserted images are those of the current turn's tool results, each once and in order.
  lemma {:induction false} EveryImageShownOnce(h: seq<Msg>, i: nat, pending: seq<string>, start: nat, env: Env)
    requires i <= |h|
    ensures ImagesOf(Layout(h, i, pending, start, env)) == pending + AllShown(h, i, start, env)
    decreases |h| - i
  {
    if i < |h| {
      var next := if IsTool(h[i]) then pending + Shown(h[i], i >= start, env) else [];
      EveryImageShownOnce(h, i + 1, next, start, env);
      var kept := [Kept(i)] + Layout(h, i + 1, next, start, env);
      assert kept[1..] == Layout(h, i + 1, next, start, env);
      if IsTool(h[i]) {
        Assoc(pending, Shown(h[i], i >= start, env), AllShown(h, i + 1, start, env));
      } else {
        ImagesAppend(Flush(pending), kept);
        FlushImages(pending);
      }
    }
  }

  // ----- insertions only behind a whole run of tool results

  ghost predicate BehindRun(items: seq<Item>, h: seq<Msg>, j: nat)
    requires j < |items| && Indexed(items, h)
  {
    items[j].Inserted? ==>
      && items[j].images != []
      && j > 0 && items[j - 1].Kept? && IsTool(h[items[j - 1].i])
      && (j + 1 < |items| ==> items[j + 1].Kept? && !IsTool(h[items[j + 1].i]))
  }

  ghost predicate AllBehindRuns(items: seq<Item>, h: seq<Msg>) {
    Indexed(items, h) && forall j | 0 <= j < |items| :: BehindRun(items, h, j)
  }

  lemma NothingInserted(h: seq<Msg>)
    ensures AllBehindRuns([], h)
  {
  }

  lemma PrependKept(i: nat, items: seq<Item>, h: seq<Msg>)
    requires i < |h| && AllBehindRuns(items, h)
    requires items != [] ==> items[0].Kept?
    ensures AllBehindRuns([Kept(i)] + items, h)
  {
    var all := [Kept(i)] + items;
    forall j | 0 <= j < |all|
      ensures BehindRun(all, h, j)
    {
      if j > 0 {
        assert all[j] == items[j - 1] && BehindRun(items, h, j - 1);
        assert j > 1 ==> all[j - 1] == items[j - 2];
      }
    }
  }

  lemma PrependInserted(i: nat, images: seq<string>, items: seq<Item>, h: seq<Msg>)
    requires i < |h| && IsTool(h[i]) && images != [] && AllBehindRuns(items, h)
    requires items != [] ==> items[0].Kept? && items[0].i < |h| && !IsTool(h[items[0].i])
    ensures AllBehindRuns([Kept(i)] + ([Inserted(images)] + items), h)
  {
    var all := [Kept(i)] + ([Inserted(images)] + items);
    forall j | 0 <= j < |all|
      ensures BehindRun(all, h, j)
    {
      if j > 1 {
        assert all[j] == items[j - 2] && BehindRun(items, h, j - 2);
        assert j > 2 ==> all[j - 1] == items[j - 3];
      }
    }
  }

  // Every insertion directly follows a tool result and is followed by the end or by something else than one.
  lemma {:induction false} InsertedBehindRuns(h: seq<Msg>, i: nat, pending: seq<string>, start: nat, env: Env)
    requires i <= |h|
    requires pending != [] ==> i > 0 && IsTool(h[i - 1])
    ensures AllBehindRuns((if i > 0 then [Kept(i - 1)] else []) + Layout(h, i, pending, start, env), h)
    decreases |h| - i
  {
    hide AllBehindRuns, Shown;
    NothingInserted(h);
    var items := Layout(h, i, pending, start, env);
    if i == |h| {
      if pending != [] {
        assert items == [Inserted(pending)] + [];
        PrependInserted(i - 1, pending, [], h);
      } else if i > 0 {
        assert items == [];
        PrependKept(i - 1, [], h);
      } else {
        assert [] + items == [];
      }
    } else {
      var next := if IsTool(h[i]) then pending + Shown(h[i], i >= start, env) else [];
      InsertedBehindRuns(h, i + 1, next, start, env);
      var later := [Kept(i)] + Layout(h, i + 1, next, start, env);
      if IsTool(h[i]) || pending == [] {
        assert items == later;
        if i > 0 {
          PrependKept(i - 1, later, h);
        } else {
          assert [] + items == items;
        }
      } else {
        PrependInserted(i - 1, pending, later, h);
      }
    }
  }

  // ----- the contract of tool exchanges

  lemma {:induction false} RunResolved(h: seq<Msg>, i: nat, n: nat, pending: seq<string>, start: nat, env: Env)
    returns (run: seq<Msg>, later: seq<string>)
    requires i + n <= |h| && n == RunLen(h[i..])
    ensures |run| == n && forall j | 0 <= j < n :: run[j] == Resolved(h[i + j], env)
    ensures RestOf(h, i, pending, start, env) == run + RestOf(h, i + n, later, start, env)
    decreases n
  {
    hide RestOf;
    run, later := [], pending;
    if n > 0 {
      assert h[i..][1..] == h[i + 1..];
      assert IsTool(h[i..][0]);
      RestUnfold(h, i, pending, start, env);
      run, later := RunResolved(h, i + 1, n - 1, pending + Shown(h[i], i >= start, env), start, env);
      Assoc([Resolved(h[i], env)], run, RestOf(h, i + n, later, start, env));
      run := [Resolved(h[i], env)] + run;
    }
  }

  lemma RestStartsOutsideRun(h: seq<Msg>, i: nat, pending: seq<string>, start: nat, env: Env)
    requires i <= |h| && (i < |h| ==> !IsTool(h[i]))
    ensures var rest := RestOf(h, i, pending, start, env);
            rest == [] || !IsTool(rest[0])
  {
    RestUnfold(h, i, pending, start, env);
  }

  lemma ResolvedAnswers(calls: seq<ToolCall>, run: seq<Msg>, resolved: seq<Msg>, env: Env)
    requires |resolved| == |run| && forall j | 0 <= j < |run| :: resolved[j] == Resolved(run[j], env)
    ensures Answers(calls, resolved) <==> Answers(calls, run)
  {
    forall id
      ensures id in ResultIds(resolved) <==> id in ResultIds(run)
    {
      if id in ResultIds(resolved) {
        var j :| 0 <= j < |resolved| && resolved[j].toolCallId == id;
        assert run[j] in run;
      }
      if id in ResultIds(run) {
        var j :| 0 <= j < |run| && run[j].toolCallId == id;
        assert resolved[j] in resolved;
      }
    }
    assert DistinctResults(resolved) <==> DistinctResults(run);
  }

  lemma {:induction false} ResolvedLegalIff(h: seq<Msg>, i: nat, pending: seq<string>, start: nat, env: Env,
                                            p: Prev, q: Prev)
    requires i <= |h|
    requires MayCall(p) <==> MayCall(q)
    requires pending != [] ==> MayCall(p)
    ensures Legal(RestOf(h, i, pending, start, env), q) <==> Legal(h[i..], p)
    decreases |h| - i
  {
    hide RestOf;
    RestUnfold(h, i, pending, start, env);
    var rest := RestOf(h, i, pending, start, env);
    if i < |h| {
      assert h[i..][1..] == h[i + 1..];
      var tail := [Resolved(h[i], env)] + RestOf(h, i + 1, [], start, env);
      if IsTool(h[i]) {
      } else if pending != [] {
        assert rest[1..] == tail;
        assert Legal(rest, q) <==> Legal(tail, AfterUser);
        ResolvedTailLegalIff(h, i, start, env, p, AfterUser);
      } else {
        assert rest == tail;
        ResolvedTailLegalIff(h, i, start, env, p, q);
      }
    } else if pending != [] {
      assert rest[1..] == [];
    }
  }

  // A call of the input and the same call of the result are legal together.
  lemma CallLegalIff(call: Msg, rest: seq<Msg>, p: Prev, call': Msg, rest': seq<Msg>, q: Prev, env: Env)
    requires IsCall(call) && call'.role == call.role && call'.calls == call.calls
    requires MayCall(p) <==> MayCall(q)
    requires RunLen(rest') == RunLen(rest)
    requires forall j | 0 <= j < RunLen(rest) :: rest'[j] == Resolved(rest[j], env)
    requires Legal(rest'[RunLen(rest)..], AfterTool) <==> Legal(rest[RunLen(rest)..], AfterTool)
    ensures Legal([call'] + rest', q) <==> Legal([call] + rest, p)
  {
    assert ([call'] + rest')[1..] == rest' && ([call] + rest)[1..] == rest;
    ResolvedAnswers(call.calls, Run(rest), Run(rest'), env);
  }

  // The run behind a call is resolved message by message, and then the rest follows.
  lemma RestAfterCall(h: seq<Msg>, i: nat, start: nat, env: Env) returns (later: seq<string>)
    requires i < |h|
    ensures var n := RunLen(h[i + 1..]);
            var rest := RestOf(h, i + 1, [], start, env);
            && RunLen(rest) == n
            && rest[n..] == RestOf(h, i + 1 + n, later, start, env)
            && forall j | 0 <= j < n :: rest[j] == Resolved(h[i + 1..][j], env)
  {
    hide RestOf, RunLen, Resolved;
    var n := RunLen(h[i + 1..]);
    var run: seq<Msg>;
    run, later := RunResolved(h, i + 1, n, [], start, env);
    var after := RestOf(h, i + 1 + n, later, start, env);
    if i + 1 + n < |h| { assert h[i + 1 + n] == h[i + 1..][n]; }
    RestStartsOutsideRun(h, i + 1 + n, later, start, env);
    AllToolsLen(h, i + 1, n, run, after, env);
  }

  lemma AllToolsLen(h: seq<Msg>, from: nat, n: nat, run: seq<Msg>, after: seq<Msg>, env: Env)
    requires from <= |h| && n == RunLen(h[from..]) && |run| == n
    requires forall j | 0 <= j < n :: run[j] == Resolved(h[from + j], env)
    requires after == [] || !IsTool(after[0])
    ensures RunLen(run + after) == n && (run + after)[n..] == after
    ensures forall j | 0 <= j < n :: (run + after)[j] == Resolved(h[from..][j], env)
  {
    forall m | m in run
      ensures IsTool(m)
    {
      var j :| 0 <= j < n && run[j] == m;
      assert h[from + j] == h[from..][j];
    }
    RunLenAppend(run, after);
    RunLenAll(run);
  }

  lemma PlainLegalIff(m: Msg, rest: seq<Msg>, p: Prev, m': Msg, rest': seq<Msg>, q: Prev)
    requires !IsCall(m) && !IsTool(m) && m'.role == m.role && m'.calls == m.calls
    requires Legal(rest', After(m)) <==> Legal(rest, After(m))
    ensures Legal([m'] + rest', q) <==> Legal([m] + rest, p)
  {
    assert ([m'] + rest')[1..] == rest' && ([m] + rest)[1..] == rest;
  }

  lemma {:induction false} ResolvedTailLegalIff(h: seq<Msg>, i: nat, start: nat, env: Env, p: Prev, q: Prev)
    requires i < |h| && !IsTool(h[i])
    requires MayCall(p) <==> MayCall(q)
    ensures var tail := [Resolved(h[i], env)] + RestOf(h, i + 1, [], start, env);
            Legal(tail, q) <==> Legal(h[i..], p)
    decreases |h| - i, 1
  {
    hide RestOf, Legal;
    assert h[i..] == [h[i]] + h[i + 1..];
    if IsCall(h[i]) {
      ResolvedCallLegalIff(h, i, start, env, p, q);
    } else {
      ResolvedLegalIff(h, i + 1, [], start, env, After(h[i]), After(h[i]));
      PlainLegalIff(h[i], h[i + 1..], p, Resolved(h[i], env), RestOf(h, i + 1, [], start, env), q);
    }
  }

  lemma {:induction false} ResolvedCallLegalIff(h: seq<Msg>, i: nat, start: nat, env: Env, p: Prev, q: Prev)
    requires i < |h| && IsCall(h[i])
    requires MayCall(p) <==> MayCall(q)
    ensures var tail := [Resolved(h[i], env)] + RestOf(h, i + 1, [], start, env);
            Legal(tail, q) <==> Legal([h[i]] + h[i + 1..], p)
    decreases |h| - i, 0
  {
    hide RestOf, Legal, Resolved;
    var later := RestAfterCall(h, i, start, env);
    var behind := h[i + 1..];
    var n := RunLen(behind);
    DropDrop(h, i + 1, n);
    ResolvedLegalIff(h, i + 1 + n, later, start, env, AfterTool, AfterTool);
    var m := Resolved(h[i], env);
    CallLegalIff(h[i], behind, p, m, RestOf(h, i + 1, [], start, env), q, env);
  }

  lemma DropDrop(h: seq<Msg>, i: nat, n: nat)
    requires i + n <= |h|
    ensures h[i..][n..] == h[i + n..]
  {
  }

  // Resolving neither breaks nor repairs the contract: the result is well formed exactly when the input is.
  lemma ResolvingKeepsContract(h: seq<Msg>, start: nat, env: Env)
    ensures WellFormed(ResolvedHistory(h, start, env)) <==> WellFormed(h)
  {
    ResolvedLegalIff(h, 0, [], start, env, Nothing, Nothing);
    assert h[0..] == h;
    LegalIffWellFormed(h);
    LegalIffWellFormed(ResolvedHistory(h, start, env));
  }

  // The same for a prompt, whose system message stands in front.
  lemma ResolvingKeepsPrompt(h: seq<Msg>, start: nat, env: Env)
    ensures LegalPrompt(ResolvedHistory(h, start, env)) <==> LegalPrompt(h)
  {
    hide RestOf, WellFormed;
    RestIsHistory(h, start, env);
    RestUnfold(h, 0, [], start, env);
    if h != [] && h[0].role.System? {
      var rest := RestOf(h, 1, [], start, env);
      assert ([Resolved(h[0], env)] + rest)[1..] == rest;
      ResolvedLegalIff(h, 1, [], start, env, Nothing, Nothing);
      LegalIffWellFormed(h[1..]);
      LegalIffWellFormed(rest);
    } else {
      ResolvingKeepsContract(h, start, env);
    }
  }

  lemma {:induction false} RestOpensIff(h: seq<Msg>, i: nat, pending: seq<string>, start: nat, env: Env)
    requires i < |h|
    ensures OpensExchange(RestOf(h, i, pending, start, env)) <==> OpensExchange(h)
    ensures RestOf(h, i, pending, start, env) != []
    decreases |h| - i
  {
    hide RestOf, Resolved, Shown, FollowUp;
    RestUnfold(h, i, pending, start, env);
    var next := if IsTool(h[i]) then pending + Shown(h[i], i >= start, env) else [];
    var rest := RestOf(h, i + 1, next, start, env);
    if i + 1 < |h| {
      RestOpensIff(h, i + 1, next, start, env);
    } else {
      RestUnfold(h, i + 1, next, start, env);
    }
    var kept := [Resolved(h[i], env)] + rest;
    LastOfCons(Resolved(h[i], env), rest);
    if !IsTool(h[i]) && pending != [] {
      LastOfCons(FollowUp(pending), kept);
    }
  }

  lemma LastOfCons(m: Msg, rest: seq<Msg>)
    ensures OpensExchange([m] + rest) <==> if rest == [] then IsUser(m) || IsTool(m) else OpensExchange(rest)
  {
  }

  // The result ends where an exchange can open exactly when the input does.
  lemma ResolvingKeepsOpening(h: seq<Msg>, start: nat, env: Env)
    ensures OpensExchange(ResolvedHistory(h, start, env)) <==> OpensExchange(h)
  {
    hide RestOf;
    RestIsHistory(h, start, env);
    if h == [] {
      RestUnfold(h, 0, [], start, env);
    } else {
      RestOpensIff(h, 0, [], start, env);
    }
  }

  // ----- resolving again changes nothing

  predicate NoMediaRefs(h: seq<Msg>) {
    forall i | 0 <= i < |h| :: forall ref | ref in h[i].media :: !IsMediaRef(ref)
  }

  lemma {:induction false} PlainRefsFixed(refs: seq<string>, env: Env)
    requires forall ref | ref in refs :: !IsMediaRef(ref)
    ensures PlainRefs(refs) == refs && PathTags(refs, env) == [] && Images(refs, env) == []
  {
    if refs != [] {
      PlainRefsFixed(refs[1..], env);
    }
  }

  lemma ResolvedFixed(m: Msg, current: bool, env: Env)
    requires forall ref | ref in m.media :: !IsMediaRef(ref)
    ensures Resolved(m, env) == m && Shown(m, current, env) == [] && [] + Shown(m, current, env) == []
  {
    PlainRefsFixed(m.media, env);
  }

  lemma {:induction false} NothingToResolve(h: seq<Msg>, i: nat, start: nat, env: Env)
    requires i <= |h| && NoMediaRefs(h)
    ensures RestOf(h, i, [], start, env) == h[i..]
    decreases |h| - i
  {
    hide RestOf, Resolved, Shown;
    RestUnfold(h, i, [], start, env);
    if i < |h| {
      ResolvedFixed(h[i], i >= start, env);
      NothingToResolve(h, i + 1, start, env);
    }
  }

  ghost predicate EncodesToData(env: Env) {
    forall ref {:trigger env.lookup(ref)} :: env.lookup(ref).Found? ==> !IsMediaRef(env.lookup(ref).dataUrl)
  }

  lemma {:induction false} ImagesAreData(refs: seq<string>, env: Env)
    requires EncodesToData(env)
    ensures forall x | x in Images(refs, env) :: !IsMediaRef(x)
  {
    if refs != [] {
      ImagesAreData(refs[1..], env);
    }
  }

  lemma {:induction false} RestHasNoMediaRefs(h: seq<Msg>, i: nat, pending: seq<string>, start: nat, env: Env)
    requires i <= |h| && EncodesToData(env)
    requires forall x | x in pending :: !IsMediaRef(x)
    ensures NoMediaRefs(RestOf(h, i, pending, start, env))
    decreases |h| - i
  {
    hide RestOf, IsMediaRef;
    RestUnfold(h, i, pending, start, env);
    if i < |h| {
      ImagesAreData(h[i].media, env);
      RestHasNoMediaRefs(h, i + 1, if IsTool(h[i]) then pending + Shown(h[i], i >= start, env) else [], start, env);
    }
  }

  // The turn resolves its messages again before every call: no image is ever shown a second time, wherever the
  // current turn is then said to start.
  lemma ResolvingTwiceIsOnce(h: seq<Msg>, start: nat, later: nat, env: Env, env': Env)
    requires EncodesToData(env)
    ensures ResolvedHistory(ResolvedHistory(h, start, env), later, env') == ResolvedHistory(h, start, env)
  {
    var r := ResolvedHistory(h, start, env);
    RestHasNoMediaRefs(h, 0, [], start, env);
    NothingToResolve(r, 0, later, env');
    assert r[0..] == r;
  }

  // ----- what a resolution shows, and what is left to show

  // The images that the tool results of these messages refer to.
  function ToolImages(h: seq<Msg>, env: Env): seq<string> {
    if h == [] then [] else Shown(h[0], true, env) + ToolImages(h[1..], env)
  }

  lemma {:induction false} ToolImagesAppend(a: seq<Msg>, b: seq<Msg>, env: Env)
    ensures ToolImages(a + b, env) == ToolImages(a, env) + ToolImages(b, env)
  {
    if a == [] {
      assert a + b == b;
    } else {
      assert (a + b)[1..] == a[1..] + b;
      ToolImagesAppend(a[1..], b, env);
      Assoc(Shown(a[0], true, env), ToolImages(a[1..], env), ToolImages(b, env));
    }
  }

  lemma {:induction false} NoToolImagesIff(h: seq<Msg>, env: Env)
    ensures ToolImages(h, env) == [] <==> forall k | 0 <= k < |h| :: Shown(h[k], true, env) == []
  {
    hide Shown;
    if h != [] {
      NoToolImagesIff(h[1..], env);
      assert forall k | 0 <= k < |h| - 1 :: h[1..][k] == h[k + 1];
    }
  }

  lemma {:induction false} AllShownFrom(h: seq<Msg>, i: nat, start: nat, env: Env)
    requires i <= |h| && start <= |h|
    ensures AllShown(h, i, start, env) == ToolImages(h[if i < start then start else i..], env)
    decreases |h| - i
  {
    if i < |h| {
      AllShownFrom(h, i + 1, start, env);
      if i >= start {
        assert h[i..][0] == h[i] && h[i..][1..] == h[i + 1..];
      }
    }
  }

  // The images a resolution inserts.
  function InsertedImages(h: seq<Msg>, start: nat, env: Env): seq<string> {
    ImagesOf(Layout(h, 0, [], start, env))
  }

  // They are those of the tool results from the start on.
  lemma InsertedFromStart(h: seq<Msg>, start: nat, env: Env)
    requires start <= |h|
    ensures InsertedImages(h, start, env) == ToolImages(h[start..], env)
  {
    EveryImageShownOnce(h, 0, [], start, env);
    assert [] + AllShown(h, 0, start, env) == AllShown(h, 0, start, env);
    AllShownFrom(h, 0, start, env);
  }

  lemma {:induction false} ToolImageIff(h: seq<Msg>, env: Env, url: string)
    ensures url in ToolImages(h, env) <==> exists i :: 0 <= i < |h| && IsTool(h[i]) && url in Images(h[i].media, env)
  {
    hide Images;
    if h != [] {
      ToolImageIff(h[1..], env, url);
      assert forall i | 0 <= i < |h| - 1 :: h[1..][i] == h[i + 1];
    }
  }

  // An image is inserted exactly when a tool result from the start on refers to it, and it could be encoded.
  lemma InsertedIff(h: seq<Msg>, start: nat, env: Env, url: string)
    requires start <= |h|
    ensures url in InsertedImages(h, start, env) <==>
              exists i, k ::
                && start <= i < |h| && IsTool(h[i])
                && 0 <= k < |h[i].media| && IsMediaRef(h[i].media[k])
                && url in Images([h[i].media[k]], env)
  {
    hide InsertedImages, ToolImages, Images;
    InsertedFromStart(h, start, env);
    ToolImageIff(h[start..], env, url);
    forall i | start <= i < |h|
      ensures h[start..][i - start] == h[i]
      ensures url in Images(h[i].media, env) <==>
                exists k :: 0 <= k < |h[i].media| && IsMediaRef(h[i].media[k]) && url in Images([h[i].media[k]], env)
    {
      ImageIff(h[i].media, env, url);
    }
  }

  // A resolution leaves nothing to show, neither what it has shown nor what it has not.
  lemma {:induction false} RestLeavesNone(h: seq<Msg>, i: nat, pending: seq<string>, start: nat, env: Env)
    requires i <= |h|
    ensures ToolImages(RestOf(h, i, pending, start, env), env) == []
    decreases |h| - i
  {
    hide RestOf;
    RestUnfold(h, i, pending, start, env);
    if i < |h| {
      PlainRefsFixed(PlainRefs(h[i].media), env);
      var next := if IsTool(h[i]) then pending + Shown(h[i], i >= start, env) else [];
      RestLeavesNone(h, i + 1, next, start, env);
      NoneInFront(Resolved(h[i], env), RestOf(h, i + 1, next, start, env), env);
      if !IsTool(h[i]) && pending != [] {
        NoneInFront(FollowUp(pending), [Resolved(h[i], env)] + RestOf(h, i + 1, next, start, env), env);
      }
    } else if pending != [] {
      NoneInFront(FollowUp(pending), [], env);
      assert [FollowUp(pending)] + [] == [FollowUp(pending)];
    }
  }

  lemma NoneInFront(m: Msg, rest: seq<Msg>, env: Env)
    requires Shown(m, true, env) == [] && ToolImages(rest, env) == []
    ensures ToolImages([m] + rest, env) == []
  {
    assert ([m] + rest)[1..] == rest;
  }

  lemma ResolvedLeavesNone(h: seq<Msg>, start: nat, env: Env)
    ensures ToolImages(ResolvedHistory(h, start, env), env) == []
  {
    hide RestOf;
    RestIsHistory(h, start, env);
    RestLeavesNone(h, 0, [], start, env);
  }

  lemma {:induction false} RestIsLonger(h: seq<Msg>, i: nat, pending: seq<string>, start: nat, env: Env)
    requires i <= |h|
    ensures |RestOf(h, i, pending, start, env)| >= |h| - i
    decreases |h| - i
  {
    hide RestOf, Resolved, Shown;
    RestUnfold(h, i, pending, start, env);
    if i < |h| {
      RestIsLonger(h, i + 1, if IsTool(h[i]) then pending + Shown(h[i], i >= start, env) else [], start, env);
    }
  }

  lemma ResolvedIsLonger(h: seq<Msg>, start: nat, env: Env)
    ensures |ResolvedHistory(h, start, env)| >= |h|
  {
    hide RestOf;
    RestIsHistory(h, start, env);
    RestIsLonger(h, 0, [], start, env);
  }

  lemma DropFromParts(a: seq<Msg>, b: seq<Msg>, n: nat)
    requires n <= |a + b|
    ensures (a + b)[n..] == if n <= |a| then a[n..] + b else b[n - |a|..]
  {
  }

  lemma SplitImages(h: seq<Msg>, k: nat, env: Env)
    requires k <= |h|
    ensures ToolImages(h, env) == ToolImages(h[..k], env) + ToolImages(h[k..], env)
  {
    assert h == h[..k] + h[k..];
    ToolImagesAppend(h[..k], h[k..], env);
  }

  // Messages that have nothing to show do not show anything cut off either.
  lemma NoneBehind(h: seq<Msg>, n: nat, env: Env)
    requires n <= |h| && ToolImages(h, env) == []
    ensures ToolImages(h[n..], env) == []
  {
    SplitImages(h, n, env);
  }

  // Between messages that have nothing to show, those in the middle show what stands behind the start.
  lemma ShownInTheMiddle(a: seq<Msg>, r: seq<Msg>, u: seq<Msg>, start: int, env: Env)
    requires ToolImages(a, env) == [] && ToolImages(u, env) == []
    ensures var h := a + r + u;
            ToolImages(h[NormalizedStart(h, start)..], env) == ToolImages(r[NormalizedStart(r, start - |a|)..], env)
  {
    hide ToolImages;
    var n := NormalizedStart(a + r + u, start);
    DropFromParts(a + r, u, n);
    if n <= |a + r| {
      DropFromParts(a, r, n);
      ToolImagesAppend((a + r)[n..], u, env);
      if n <= |a| {
        NoneBehind(a, n, env);
        ToolImagesAppend(a[n..], r, env);
        assert r[0..] == r;
      } else {
        assert NormalizedStart(r, start - |a|) == n - |a|;
      }
    } else {
      NoneBehind(u, n - |a + r|, env);
      assert r[|r|..] == [];
      NoneToShow(env);
    }
  }

  lemma NoneToShow(env: Env)
    ensures ToolImages([], env) == []
  {
  }
}
