/**
 The images that tools return during a turn. They are shown when the conversation is resolved before the next model
 call, for messages from the recorded start of the turn on.
 */
module TurnImages {
  import opened Messages
  import opened ExecuteTools
  import opened Pipeline
  import Media

  // What the tool phase of a round added to the conversation, the call in front.
  function Results(c: Config, r: Round, t: Conv): seq<Msg> {
    var n, h := |Asked(c, r, t).exec.messages|, After(c, r, t).exec.messages;
    if n <= |h| then h[n..] else []
  }

  // The images inserted when the next round resolves the conversation.
  function ShownNext(c: Config, next: Round, t: Conv): seq<string> {
    var h := Opened(c, next, t);
    Media.InsertedImages(h, Media.NormalizedStart(h, t.start), c.media)
  }

  // Of the results of a round, those that stand below the recorded start of the turn.
  function Below(c: Config, r: Round, t: Conv): seq<Msg> {
    var asked, results := Asked(c, r, t), Results(c, r, t);
    results[..Media.NormalizedStart(results, asked.start - |asked.exec.messages|)]
  }

  // Over a turn: the images of the results that another round follows, those of them that are inserted, and those
  // that stand below the start.
  function Due(c: Config, rounds: seq<Round>, t: Conv): seq<string>
    decreases |rounds|
  {
    if |rounds| < 2 then []
    else Media.ToolImages(Results(c, rounds[0], t), c.media) + Due(c, rounds[1..], After(c, rounds[0], t))
  }

  function Inserted(c: Config, rounds: seq<Round>, t: Conv): seq<string>
    decreases |rounds|
  {
    if |rounds| < 2 then []
    else ShownNext(c, rounds[1], After(c, rounds[0], t)) + Inserted(c, rounds[1..], After(c, rounds[0], t))
  }

  function Hidden(c: Config, rounds: seq<Round>, t: Conv): seq<string>
    decreases |rounds|
  {
    if |rounds| < 2 then []
    else Media.ToolImages(Below(c, rounds[0], t), c.media) + Hidden(c, rounds[1..], After(c, rounds[0], t))
  }

  // With a store; every round but the first resolves the conversation.
  predicate Resolves(c: Config, rounds: seq<Round>) {
    c.hasStore && forall k | 1 <= k < |rounds| :: rounds[k].resolve
  }

  predicate NothingToShow(c: Config, h: seq<Msg>) {
    Media.ToolImages(h, c.media) == []
  }

  lemma ResolvedShowsNothing(c: Config, h: seq<Msg>, start: int)
    requires c.hasStore
    ensures NothingToShow(c, Resolve(c, h, start)) && |Resolve(c, h, start)| >= |h|
  {
    Media.ResolvedLeavesNone(h, Media.NormalizedStart(h, start), c.media);
    Media.ResolvedIsLonger(h, Media.NormalizedStart(h, start), c.media);
  }

  lemma {:induction false} OverflowsShowNothing(c: Config, t: Conv, overflows: seq<Overflow>)
    requires c.hasStore && NothingToShow(c, t.exec.messages)
    ensures NothingToShow(c, AfterOverflows(c, t, overflows).exec.messages)
    decreases |overflows|
  {
    hide NothingToShow, Resolve;
    if overflows != [] {
      var o := overflows[0];
      var protected := CR.ProtectedPart(CR.Compacted(t.exec.session), t.exec.persisted);
      var history := o.trimmed + protected;
      var built := Prompt.BuildMessages(SystemText(c, o.summary, history), history, Wrappers.None);
      ResolvedShowsNothing(c, built, |built| - |protected|);
      OverflowsShowNothing(c, Overflowed(c, t, o), overflows[1..]);
    }
  }

  // When the model is called nothing is left to show.
  lemma AskedShowsNothing(c: Config, r: Round, t: Conv)
    requires c.hasStore && (r.resolve || NothingToShow(c, t.exec.messages))
    ensures NothingToShow(c, Asked(c, r, t).exec.messages)
  {
    hide AfterOverflows, Resolve, Media.ToolImages;
    ResolvedShowsNothing(c, r.injected, 0);
    Media.ToolImagesAppend(t.exec.messages, Resolve(c, r.injected, 0), c.media);
    ResolvedShowsNothing(c, Opened(c, r, t), t.start);
    OverflowsShowNothing(c, Injected(c, r, t), r.overflows);
  }

  // A completed round appends to what the model was asked with.
  lemma ResultsBehind(c: Config, r: Round, t: Conv)
    requires Proper(c, r, t)
    ensures After(c, r, t).exec.messages == Asked(c, r, t).exec.messages + Results(c, r, t)
    ensures Results(c, r, t) != [] && After(c, r, t).start == Asked(c, r, t).start
  {
    hide Asked, Executed, PollsEarly, LegalPrompt, Fitting;
    var asked := Asked(c, r, t);
    var added := EveryCallAnswered(r.env, r.call.calls, r.late, r.summary, r.suspended, WithCall(r, asked),
                                   asked.exec.messages, r.call);
    Assoc(asked.exec.messages, [r.call], TurnState.MessagesOf(added));
    Parts(asked.exec.messages, [r.call] + TurnState.MessagesOf(added));
  }

  lemma Parts(a: seq<Msg>, b: seq<Msg>)
    ensures (a + b)[|a|..] == b
  {
  }

  // One round and the next: of the images of its results those are shown that do not stand below the start.
  lemma RoundShows(c: Config, r: Round, next: Round, t: Conv)
    requires Proper(c, r, t) && c.hasStore && (r.resolve || NothingToShow(c, t.exec.messages))
    ensures Media.ToolImages(Results(c, r, t), c.media) ==
              Media.ToolImages(Below(c, r, t), c.media) + ShownNext(c, next, After(c, r, t))
  {
    hide Asked, After, Results, Resolve, Proper, Media.ToolImages, Media.InsertedImages;
    var asked, results := Asked(c, r, t), Results(c, r, t);
    var injected := Resolve(c, next.injected, 0);
    AskedShowsNothing(c, r, t);
    ResolvedShowsNothing(c, next.injected, 0);
    ResultsBehind(c, r, t);
    var h := Opened(c, next, After(c, r, t));
    Media.InsertedFromStart(h, Media.NormalizedStart(h, asked.start), c.media);
    Media.ShownInTheMiddle(asked.exec.messages, results, injected, asked.start, c.media);
    var k := Media.NormalizedStart(results, asked.start - |asked.exec.messages|);
    Media.SplitImages(results, k, c.media);
  }

  // Over a whole turn, overflows included: every image that a tool returned is shown to the model, once and in order,
  // if and only if none stands below the recorded start of the turn. Those that do are never shown.
  lemma {:induction false} ImagesShownIff(c: Config, rounds: seq<Round>, t: Conv)
    requires ProperRun(c, rounds, t) && Resolves(c, rounds)
    requires rounds != [] ==> rounds[0].resolve || NothingToShow(c, t.exec.messages)
    ensures |Due(c, rounds, t)| == |Hidden(c, rounds, t)| + |Inserted(c, rounds, t)|
    ensures Inserted(c, rounds, t) == Due(c, rounds, t) <==> Hidden(c, rounds, t) == []
    decreases |rounds|
  {
    hide Proper, Phase, After, ShownNext, Below, Results, NothingToShow;
    if |rounds| >= 2 {
      RoundShows(c, rounds[0], rounds[1], t);
      assert rounds[1..][0] == rounds[1];
      ResolvesRest(c, rounds);
      ImagesShownIff(c, rounds[1..], After(c, rounds[0], t));
    }
  }

  lemma ResolvesRest(c: Config, rounds: seq<Round>)
    requires Resolves(c, rounds) && |rounds| >= 2
    ensures Resolves(c, rounds[1..]) && rounds[1].resolve
  {
    assert forall k | 1 <= k < |rounds| - 1 :: rounds[1..][k] == rounds[k + 1];
  }

  // ----- where the start is in place nothing is hidden

  predicate InPlace(t: Conv) {
    t.start <= |t.exec.messages|
  }

  // A rebuild puts the start in place.
  lemma {:induction false} OverflowsInPlace(c: Config, t: Conv, overflows: seq<Overflow>)
    requires InPlace(t) || overflows != []
    ensures InPlace(AfterOverflows(c, t, overflows))
    decreases |overflows|
  {
    hide Rebuild;
    if overflows != [] {
      OverflowsInPlace(c, Overflowed(c, t, overflows[0]), overflows[1..]);
    }
  }

  lemma RoundInPlace(c: Config, r: Round, t: Conv)
    requires Proper(c, r, t) && c.hasStore && (InPlace(t) || r.overflows != [])
    ensures InPlace(Asked(c, r, t)) && InPlace(After(c, r, t))
    ensures Below(c, r, t) == []
  {
    hide AfterOverflows, Resolve, Phase, Fitting, Results;
    ResolvedShowsNothing(c, Opened(c, r, t), t.start);
    OverflowsInPlace(c, Injected(c, r, t), r.overflows);
    ResultsBehind(c, r, t);
  }

  lemma {:induction false} NothingHidden(c: Config, rounds: seq<Round>, t: Conv)
    requires ProperRun(c, rounds, t) && c.hasStore && InPlace(t)
    ensures Hidden(c, rounds, t) == []
    decreases |rounds|
  {
    hide Proper, Phase, After, Below, InPlace;
    if |rounds| >= 2 {
      RoundInPlace(c, rounds[0], t);
      NothingHidden(c, rounds[1..], After(c, rounds[0], t));
    }
  }

  // Otherwise an image of the first results is hidden if and only if its tool result stands below the start.
  lemma FirstHiddenIff(c: Config, r: Round, next: Round, t: Conv)
    ensures var asked, results := Asked(c, r, t), Results(c, r, t);
            Hidden(c, [r, next], t) != [] <==>
              exists k :: 0 <= k < |results| && |asked.exec.messages| + k < asked.start
                          && Media.Shown(results[k], true, c.media) != []
  {
    hide Asked, After, Results, Media.Shown, Media.ToolImages;
    assert [r, next][1..] == [next];
    var asked, results, below := Asked(c, r, t), Results(c, r, t), Below(c, r, t);
    Media.NoToolImagesIff(below, c.media);
    assert Media.ToolImages(below, c.media) + [] == Media.ToolImages(below, c.media);
    assert forall k | 0 <= k < |below| :: below[k] == results[k];
  }
}
