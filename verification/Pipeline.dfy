/**
 The stages together: over a whole turn the conversation for the model is built, extended by injected messages,
 resolved, rebuilt when it overflows, and extended by calls and their results.
 */
module Pipeline {
  import opened Messages
  import opened ExecuteTools
  import opened Prompt
  import opened TurnState
  import opened Wrappers
  import CB = ContextBudget
  import CR = ContextRetry
  import Compression
  import Media
  import Sanitizer

  // `system` is the text of the system prompt, which depends on the summary and the history.
  datatype Config = Config(
    system: (string, seq<Msg>) -> string,
    hasStore: bool,
    media: Media.Env,
    hint: Msg,
    budget: CB.Budget,
    note: nat -> string)

  // The conversation, and where the current turn starts in it.
  datatype Conv = Conv(exec: Exec, start: int)

  // One overflow of the context window in front of a response: what the trim keeps of the older history.
  datatype Overflow = Overflow(summary: string, trimmed: seq<Msg>)

  // One round of the turn that asks for tools and is not aborted. `injected` are the messages put in front of the
  // model call; from the second round on the whole conversation is resolved before the call.
  datatype Round = Round(
    injected: seq<Msg>,
    resolve: bool,
    overflows: seq<Overflow>,
    call: Msg,
    env: Env,
    late: seq<Msg>,
    summary: string,
    suspended: bool)

  function SystemText(c: Config, summary: string, history: seq<Msg>): string {
    c.system(summary, history)
  }

  // Without a media store nothing is resolved.
  function Resolve(c: Config, h: seq<Msg>, start: int): seq<Msg> {
    if c.hasStore then Media.ResolvedHistory(h, Media.NormalizedStart(h, start), c.media) else h
  }

  // A prompt without a current message, of which the last `tail` messages belong to the active turn.
  function Rebuild(c: Config, summary: string, history: seq<Msg>, tail: nat): seq<Msg> {
    var built := BuildMessages(SystemText(c, summary, history), history, None);
    Resolve(c, built, |built| - tail)
  }

  function PromptingOf(c: Config): CR.Prompting {
    CR.Prompting((summary: string, history: seq<Msg>, tail: nat) => Rebuild(c, summary, history, tail),
                 c.hint, c.budget, c.note)
  }

  // Stored and recorded, unless the turn keeps no history.
  function StoreAll(exec: Exec, ms: seq<Msg>): Exec {
    if exec.kind.noHistory then exec
    else exec.(session := exec.session + ms, persisted := exec.persisted + ms)
  }

  // The conversation with the injected messages, which are resolved on their own.
  function Opened(c: Config, r: Round, t: Conv): seq<Msg> {
    t.exec.messages + Resolve(c, r.injected, 0)
  }

  // The injected messages are stored as they came; then the conversation is resolved.
  function Injected(c: Config, r: Round, t: Conv): Conv {
    var h := Opened(c, r, t);
    t.(exec := StoreAll(t.exec, r.injected).(messages := if r.resolve then Resolve(c, h, t.start) else h))
  }

  // The session is compressed, and the conversation rebuilt from what is left of it.
  function Overflowed(c: Config, t: Conv, o: Overflow): Conv {
    var session := CR.Compacted(t.exec.session);
    var protected := CR.ProtectedPart(session, t.exec.persisted);
    var messages := Rebuild(c, o.summary, o.trimmed + protected, |protected|);
    Conv(t.exec.(session := session, messages := messages), |messages| - |protected|)
  }

  function AfterOverflows(c: Config, t: Conv, overflows: seq<Overflow>): Conv
    decreases |overflows|
  {
    if overflows == [] then t else AfterOverflows(c, Overflowed(c, t, overflows[0]), overflows[1..])
  }

  // What the model is asked with when it asks for tools.
  function Asked(c: Config, r: Round, t: Conv): Conv {
    AfterOverflows(c, Injected(c, r, t), r.overflows)
  }

  // The call message is stored and recorded; the phase starts with no steering waiting.
  function WithCall(r: Round, t: Conv): Exec {
    StoreAll(t.exec, [r.call]).(messages := t.exec.messages + [r.call], pending := [], allHandled := true)
  }

  function Phase(c: Config, r: Round, t: Conv): (Exec, Exit, ToolControl) {
    Executed(r.env, r.call.calls, r.late, r.summary, r.suspended, WithCall(r, Asked(c, r, t)))
  }

  function After(c: Config, r: Round, t: Conv): Conv {
    Conv(Phase(c, r, t).0, Asked(c, r, t).start)
  }

  // Every overflow is answered by a rebuild that fits, as the retry loop makes it; a turn that keeps no history gives
  // up instead.
  ghost predicate Fitting(c: Config, t: Conv, overflows: seq<Overflow>)
    decreases |overflows|
  {
    overflows == [] ||
    (&& !t.exec.kind.noHistory
     && CR.Rebuilt(PromptingOf(c), overflows[0].summary, CR.Compacted(t.exec.session), t.exec.persisted, false,
                   overflows[0].trimmed, true)
     && Fitting(c, Overflowed(c, t, overflows[0]), overflows[1..]))
  }

  predicate Completes(exit: Exit) {
    exit.Finished? || exit.Tripped?
  }

  // A round as the loop can produce it: user messages are injected, the model asks for tools, nothing aborts.
  ghost predicate Proper(c: Config, r: Round, t: Conv) {
    && IsCall(r.call)
    && (forall k | 0 <= k < |r.injected| :: IsUser(r.injected[k]))
    && Fitting(c, Injected(c, r, t), r.overflows)
    && Completes(Phase(c, r, t).1)
  }

  ghost predicate ProperRun(c: Config, rounds: seq<Round>, t: Conv)
    decreases |rounds|
  {
    rounds == [] ||
    (&& Proper(c, rounds[0], t)
     && (|rounds| > 1 ==> Phase(c, rounds[0], t).2.Continue?)
     && ProperRun(c, rounds[1..], After(c, rounds[0], t)))
  }

  function AfterRounds(c: Config, rounds: seq<Round>, t: Conv): Conv
    decreases |rounds|
  {
    if rounds == [] then t else AfterRounds(c, rounds[1..], After(c, rounds[0], t))
  }

  // Some call of the round is followed by a sub-turn result before the last one is answered.
  predicate Early(r: Round, exec: Exec) {
    !r.suspended && PollsEarly(r.env, exec.kind, r.call.calls, 0, exec.guard, false)
  }

  // The calls stand behind a user message or a tool result, their ids can be told apart, and no sub-turn result is
  // polled before the last of them.
  predicate Clean(c: Config, r: Round, t: Conv) {
    var asked := Asked(c, r, t).exec;
    OpensExchange(asked.messages) && Answerable(r.call.calls) && !Early(r, asked)
  }

  predicate CleanRun(c: Config, rounds: seq<Round>, t: Conv)
    decreases |rounds|
  {
    rounds == [] || (Clean(c, rounds[0], t) && CleanRun(c, rounds[1..], After(c, rounds[0], t)))
  }

  // A rebuild makes the conversation legal again; an unclean round spoils it.
  predicate StaysLegal(c: Config, rounds: seq<Round>, t: Conv, legal: bool)
    decreases |rounds|
  {
    if rounds == [] then legal
    else
      var r := rounds[0];
      StaysLegal(c, rounds[1..], After(c, r, t), (legal || r.overflows != []) && Clean(c, r, t))
  }

  // ----- one round

  lemma ResolveKeeps(c: Config, h: seq<Msg>, start: int)
    ensures LegalPrompt(Resolve(c, h, start)) <==> LegalPrompt(h)
    ensures OpensExchange(Resolve(c, h, start)) <==> OpensExchange(h)
  {
    Media.ResolvingKeepsPrompt(h, Media.NormalizedStart(h, start), c.media);
    Media.ResolvingKeepsOpening(h, Media.NormalizedStart(h, start), c.media);
  }

  lemma InjectedAreUsers(c: Config, injected: seq<Msg>)
    requires forall k | 0 <= k < |injected| :: IsUser(injected[k])
    ensures var h := Resolve(c, injected, 0);
            |h| == |injected| && forall k | 0 <= k < |h| :: IsUser(h[k])
  {
    if c.hasStore {
      Media.UsersResolved(injected, Media.NormalizedStart(injected, 0), c.media);
    }
  }

  // A rebuilt conversation is legal whatever the session holds.
  lemma RebuildIsLegal(c: Config, summary: string, history: seq<Msg>, tail: nat)
    ensures LegalPrompt(Rebuild(c, summary, history, tail))
  {
    hide LegalPrompt, BuildMessages;
    var built := BuildMessages(SystemText(c, summary, history), history, None);
    BuiltIsLegal(SystemText(c, summary, history), history, None);
    ResolveKeeps(c, built, |built| - tail);
  }

  lemma {:induction false} OverflowsMakeLegal(c: Config, t: Conv, overflows: seq<Overflow>)
    ensures LegalPrompt(AfterOverflows(c, t, overflows).exec.messages) <==>
              overflows != [] || LegalPrompt(t.exec.messages)
    decreases |overflows|
  {
    hide LegalPrompt, Rebuild;
    if overflows != [] {
      var o := overflows[0];
      var protected := CR.ProtectedPart(CR.Compacted(t.exec.session), t.exec.persisted);
      RebuildIsLegal(c, o.summary, o.trimmed + protected, |protected|);
      OverflowsMakeLegal(c, Overflowed(c, t, o), overflows[1..]);
    }
  }

  // Injecting users and resolving neither break nor repair the contract, and a rebuild restores it.
  lemma AskedLegalIff(c: Config, r: Round, t: Conv)
    requires forall k | 0 <= k < |r.injected| :: IsUser(r.injected[k])
    ensures LegalPrompt(Asked(c, r, t).exec.messages) <==> r.overflows != [] || LegalPrompt(t.exec.messages)
    ensures r.overflows == [] ==>
              (OpensExchange(Asked(c, r, t).exec.messages) <==> r.injected != [] || OpensExchange(t.exec.messages))
  {
    hide LegalPrompt, OpensExchange, Resolve;
    InjectedAreUsers(c, r.injected);
    UsersKeepPromptIff(t.exec.messages, Resolve(c, r.injected, 0));
    ResolveKeeps(c, Opened(c, r, t), t.start);
    OverflowsMakeLegal(c, Injected(c, r, t), r.overflows);
  }

  lemma RoundLegalIff(c: Config, r: Round, t: Conv)
    requires Proper(c, r, t)
    ensures LegalPrompt(After(c, r, t).exec.messages) <==>
              (LegalPrompt(t.exec.messages) || r.overflows != []) && Clean(c, r, t)
    ensures OpensExchange(After(c, r, t).exec.messages)
  {
    hide LegalPrompt, PollsEarly, Executed, Asked, OpensExchange, Answerable, Fitting;
    var asked := Asked(c, r, t);
    AskedLegalIff(c, r, t);
    var added := EveryCallAnswered(r.env, r.call.calls, r.late, r.summary, r.suspended, WithCall(r, asked),
                                   asked.exec.messages, r.call);
  }

  // ----- whole turns

  // Over a whole turn the conversation for the model is legal if and only if every round was clean since the last
  // rebuild, or since the start when that was legal; and only then would the sanitizer drop nothing behind the
  // system message.
  lemma {:induction false} ConversationLegalIff(c: Config, rounds: seq<Round>, t: Conv)
    requires ProperRun(c, rounds, t)
    ensures var end := AfterRounds(c, rounds, t).exec.messages;
            && (LegalPrompt(end) <==> StaysLegal(c, rounds, t, LegalPrompt(t.exec.messages)))
            && (Sanitizer.Sanitized(Body(end)) == Body(end) <==>
                  StaysLegal(c, rounds, t, LegalPrompt(t.exec.messages)))
    decreases |rounds|
  {
    hide Proper, Phase, After, WellFormed, Clean;
    if rounds == [] {
      Sanitizer.FixedPoints(Body(t.exec.messages));
    } else {
      RoundLegalIff(c, rounds[0], t);
      ConversationLegalIff(c, rounds[1..], After(c, rounds[0], t));
    }
  }

  // In a turn without a channel a round is clean whatever its tools do.
  lemma CleanWithoutChannel(c: Config, r: Round, t: Conv)
    requires Occurs(t.exec.kind) && !t.exec.kind.hasChannel
    ensures Clean(c, r, t) <==> OpensExchange(Asked(c, r, t).exec.messages) && Answerable(r.call.calls)
  {
    hide Asked, OpensExchange, Answerable, PollsEarly;
    RoundKeepsKind(c, r, t);
    QuietPolls(r.env, t.exec.kind, r.call.calls, 0, Asked(c, r, t).exec.guard, false);
  }

  predicate NoOverflow(rounds: seq<Round>) {
    forall k | 0 <= k < |rounds| :: rounds[k].overflows == []
  }

  // Without a rebuild every round counts.
  lemma {:induction false} WithoutRebuild(c: Config, rounds: seq<Round>, t: Conv, legal: bool)
    requires NoOverflow(rounds)
    ensures StaysLegal(c, rounds, t, legal) <==> legal && CleanRun(c, rounds, t)
    decreases |rounds|
  {
    hide After, Clean;
    if rounds != [] {
      forall k | 0 <= k < |rounds[1..]|
        ensures rounds[1..][k].overflows == []
      {
        assert rounds[1..][k] == rounds[k + 1];
      }
      WithoutRebuild(c, rounds[1..], After(c, rounds[0], t), legal && Clean(c, rounds[0], t));
    }
  }

  // With one, the rounds in front of the last rebuild do not count at all.
  lemma {:induction false} SinceRebuild(c: Config, before: seq<Round>, r: Round, behind: seq<Round>, t: Conv,
                                        legal: bool)
    requires r.overflows != [] && NoOverflow(behind)
    ensures StaysLegal(c, before + [r] + behind, t, legal) <==>
              CleanRun(c, [r] + behind, AfterRounds(c, before, t))
    decreases |before|
  {
    hide After, Clean;
    var rounds := before + [r] + behind;
    if before == [] {
      assert rounds == [r] + behind && ([r] + behind)[1..] == behind;
      WithoutRebuild(c, behind, After(c, r, t), Clean(c, r, t));
    } else {
      assert rounds[1..] == before[1..] + [r] + behind;
      var legal' := (legal || rounds[0].overflows != []) && Clean(c, rounds[0], t);
      SinceRebuild(c, before[1..], r, behind, After(c, rounds[0], t), legal');
    }
  }

  // A turn starts with the prompt built from the session, which is legal whatever is stored there; so without an
  // overflow its conversation is legal exactly when every round was clean.
  lemma TurnLegalIff(c: Config, system: string, history: seq<Msg>, current: Option<Msg>, start: int,
                     rounds: seq<Round>, t: Conv)
    requires current.Some? ==> IsUser(current.value)
    requires t.exec.messages == Resolve(c, BuildMessages(system, history, current), start)
    requires ProperRun(c, rounds, t) && NoOverflow(rounds)
    ensures LegalPrompt(AfterRounds(c, rounds, t).exec.messages) <==> CleanRun(c, rounds, t)
  {
    hide LegalPrompt, BuildMessages, ProperRun, StaysLegal, CleanRun;
    BuiltIsLegal(system, history, current);
    ResolveKeeps(c, BuildMessages(system, history, current), start);
    ConversationLegalIff(c, rounds, t);
    WithoutRebuild(c, rounds, t, true);
  }

  // What the model is asked with in the next round is legal under the same condition, or after a rebuild.
  lemma NextRequestIsLegal(c: Config, rounds: seq<Round>, next: Round, t: Conv)
    requires ProperRun(c, rounds, t)
    requires forall k | 0 <= k < |next.injected| :: IsUser(next.injected[k])
    ensures LegalPrompt(Asked(c, next, AfterRounds(c, rounds, t)).exec.messages) <==>
              next.overflows != [] || StaysLegal(c, rounds, t, LegalPrompt(t.exec.messages))
  {
    hide LegalPrompt, Asked, ProperRun, StaysLegal;
    ConversationLegalIff(c, rounds, t);
    AskedLegalIff(c, next, AfterRounds(c, rounds, t));
  }

  // ----- the session, and what a rebuild shows of it

  // The part of the session a rebuild is made from: it starts at a cut the trim tries, in front of the active turn
  // at the latest.
  lemma TrimmedIsCut(c: Config, t: Conv, o: Overflow) returns (k: nat)
    requires CR.Rebuilt(PromptingOf(c), o.summary, CR.Compacted(t.exec.session), t.exec.persisted, false, o.trimmed,
                        true)
    ensures var session := CR.Compacted(t.exec.session);
            var stable := CR.StablePart(session, t.exec.persisted);
            && k <= |stable| <= |session| && o.trimmed == stable[k..] && CB.Tried(stable, k)
            && session == stable + CR.ProtectedPart(session, t.exec.persisted)
            && o.trimmed + CR.ProtectedPart(session, t.exec.persisted) == session[k..]
  {
    hide CR.Compacted, CR.StablePart, CR.ProtectedPart, CR.Rebuilder, Rebuild, CB.Tried, CB.NoneTriedBefore;
    hide CB.FirstTriedFit;
    var session := CR.Compacted(t.exec.session);
    var stable := CR.StablePart(session, t.exec.persisted);
    var protected := CR.ProtectedPart(session, t.exec.persisted);
    var rebuilder := CR.Rebuilder(PromptingOf(c), o.summary, protected, false);
    k := CutOf(stable, CB.FitsBuilt(c.budget, rebuilder), o.trimmed);
    SessionInParts(session, t.exec.persisted);
    CutAcross(stable, protected, k);
  }

  lemma SessionInParts(session: seq<Msg>, persisted: seq<Msg>)
    ensures session == CR.StablePart(session, persisted) + CR.ProtectedPart(session, persisted)
  {
  }

  lemma CutAcross(stable: seq<Msg>, protected: seq<Msg>, k: nat)
    requires k <= |stable|
    ensures (stable + protected)[k..] == stable[k..] + protected
  {
  }

  lemma CutOf(h: seq<Msg>, fits: seq<Msg> -> bool, kept: seq<Msg>) returns (k: nat)
    requires CB.FirstTriedFit(h, fits, kept)
    ensures k <= |h| && CB.Tried(h, k) && kept == h[k..]
  {
    k :| k <= |h| && CB.Tried(h, k) && kept == h[k..] && fits(kept) && CB.NoneTriedBefore(h, fits, k);
  }

  lemma CompactedWellFormed(h: seq<Msg>)
    requires WellFormed(h)
    ensures WellFormed(CR.Compacted(h))
  {
    hide WellFormed;
    if Compression.Compress(h).Kept? {
      Compression.CompressKeepsExchanges(h);
    }
  }

  // Compression, trimming and sanitizing together: when the session was well formed, and the active turn starts with
  // a user message, the rebuilt prompt shows everything the trim kept, and the whole active turn as far as compression
  // left it: the sanitizer drops none of it.
  lemma RebuildShowsAll(c: Config, t: Conv, o: Overflow)
    requires WellFormed(t.exec.session)
    requires CR.Rebuilt(PromptingOf(c), o.summary, CR.Compacted(t.exec.session), t.exec.persisted, false, o.trimmed,
                        true)
    requires var protected := CR.ProtectedPart(CR.Compacted(t.exec.session), t.exec.persisted);
             protected != [] ==> IsUser(protected[0])
    ensures var history := o.trimmed + CR.ProtectedPart(CR.Compacted(t.exec.session), t.exec.persisted);
            && Sanitizer.Sanitized(history) == history
            && WellFormed(history)
  {
    var session := CR.Compacted(t.exec.session);
    CompactedWellFormed(t.exec.session);
    var k := TrimmedIsCut(c, t, o);
    var stable := CR.StablePart(session, t.exec.persisted);
    var protected := CR.ProtectedPart(session, t.exec.persisted);
    hide WellFormed, CR.Compacted, CR.StablePart, CR.ProtectedPart, CR.Rebuilt;
    if k == 0 {
      assert session[k..] == session;
    } else {
      if k < |stable| {
        assert session[k] == stable[k] && IsUser(stable[k]);
      } else if k < |session| {
        assert session[k] == protected[0];
      }
      WellFormedSuffix(session, k);
    }
    Sanitizer.FixedPoints(session[k..]);
  }

  lemma {:induction false} OverflowsKeepSession(c: Config, t: Conv, overflows: seq<Overflow>)
    requires WellFormed(t.exec.session)
    ensures WellFormed(AfterOverflows(c, t, overflows).exec.session)
    decreases |overflows|
  {
    hide WellFormed, Rebuild;
    if overflows != [] {
      CompactedWellFormed(t.exec.session);
      OverflowsKeepSession(c, Overflowed(c, t, overflows[0]), overflows[1..]);
    }
  }

  // The condition for the session the calls are stored into. No poll can spoil it: a turn that keeps a history has no
  // channel.
  predicate CleanStored(c: Config, r: Round, t: Conv) {
    t.exec.kind.noHistory || (OpensExchange(Asked(c, r, t).exec.session) && Answerable(r.call.calls))
  }

  predicate CleanStoredRun(c: Config, rounds: seq<Round>, t: Conv)
    decreases |rounds|
  {
    rounds == [] || (CleanStored(c, rounds[0], t) && CleanStoredRun(c, rounds[1..], After(c, rounds[0], t)))
  }

  lemma {:induction false} OverflowsKeepKind(c: Config, t: Conv, overflows: seq<Overflow>)
    ensures AfterOverflows(c, t, overflows).exec.kind == t.exec.kind
    ensures t.exec.kind.noHistory && Fitting(c, t, overflows) ==> AfterOverflows(c, t, overflows) == t
    decreases |overflows|
  {
    hide Rebuild, CR.Rebuilt;
    if overflows != [] {
      OverflowsKeepKind(c, Overflowed(c, t, overflows[0]), overflows[1..]);
    }
  }

  // A turn stays of its kind; and one that keeps no history leaves the session and the record alone.
  lemma RoundKeepsKind(c: Config, r: Round, t: Conv)
    requires Occurs(t.exec.kind)
    ensures Asked(c, r, t).exec.kind == After(c, r, t).exec.kind == t.exec.kind
    ensures t.exec.kind.noHistory && Fitting(c, Injected(c, r, t), r.overflows) ==>
              After(c, r, t).exec.session == t.exec.session && After(c, r, t).exec.persisted == t.exec.persisted
  {
    hide Executed, Fitting, AfterOverflows, Resolve;
    OverflowsKeepKind(c, Injected(c, r, t), r.overflows);
    var stored := PhasePersists(r.env, r.call.calls, r.late, r.summary, r.suspended, WithCall(r, Asked(c, r, t)));
  }

  lemma SessionResults(r: Round, exec: Exec) returns (added: seq<Stored>, summary: seq<Msg>)
    requires Completes(Executed(r.env, r.call.calls, r.late, r.summary, r.suspended, exec).1)
    requires IsCall(r.call) && exec.pending == [] && !exec.kind.noHistory && Occurs(exec.kind)
    ensures var st := Executed(r.env, r.call.calls, r.late, r.summary, r.suspended, exec).0;
            && st.session == exec.session + MessagesOf(added) + summary
            && (summary == [] || summary == [SummaryMsg(r.summary)])
    ensures forall k | 0 <= k < |added| :: added[k].recorded && IsTool(added[k].m)
    ensures ResultIdsOf(MessagesOf(added)) == IdsFrom(r.call.calls, 0)
  {
    hide Loop, SkipFrom;
    summary := [];
    if r.suspended {
      added := SkipAdds(exec, r.call.calls, 0, r.env.text(Suspended));
    } else {
      added := LoopAdds(r.env, r.call.calls, 0, exec);
      var st1 := Loop(r.env, r.call.calls, 0, exec).0;
      if Loop(r.env, r.call.calls, 0, exec).1.Finished? && st1.pending == [] && r.late == [] && st1.allHandled {
        summary := [SummaryMsg(r.summary)];
      }
    }
    assert exec.session + MessagesOf(added) + [] == exec.session + MessagesOf(added);
  }

  // What a round without an overflow adds to the session of a turn that keeps a history, and to its record: the
  // injected messages as they came, the call, one result per call with what it says, and possibly the summary.
  lemma RoundStores(c: Config, r: Round, t: Conv) returns (stored: seq<Msg>)
    requires Proper(c, r, t) && r.overflows == [] && Occurs(t.exec.kind) && !t.exec.kind.noHistory
    ensures After(c, r, t).exec.session == t.exec.session + (r.injected + [r.call] + stored)
    ensures After(c, r, t).exec.persisted == t.exec.persisted + (r.injected + [r.call] + stored)
    ensures ResultIdsOf(stored) == IdsFrom(r.call.calls, 0)
    ensures RepliesOf(stored) == if r.suspended then Skips(|r.call.calls|, r.env.text(Suspended))
                                 else Replies(r.env, r.call.calls, 0, Asked(c, r, t).exec.guard, false)
  {
    hide Executed, Fitting, Resolve, ResultIdsOf, RepliesOf, Replies, Skips;
    var exec := WithCall(r, Asked(c, r, t));
    stored := PhasePersists(r.env, r.call.calls, r.late, r.summary, r.suspended, exec);
    var added, summary := SessionResults(r, exec);
    var results := MessagesOf(added);
    SameStored(exec.session, stored, results, summary);
    ResultIdsAppend(results, summary);
    SummarySaysNothing(summary, r.summary);
    EveryReplyIsRight(r.env, r.call.calls, r.late, r.summary, r.suspended, exec);
    RepliesAppend(exec.session, stored);
    Cancel(RepliesOf(exec.session), RepliesOf(stored),
           if r.suspended then Skips(|r.call.calls|, r.env.text(Suspended))
           else Replies(r.env, r.call.calls, 0, exec.guard, false));
    Assoc(t.exec.session + r.injected, [r.call], stored);
    Assoc(t.exec.persisted + r.injected, [r.call], stored);
    Assoc(t.exec.session, r.injected, [r.call] + stored);
    Assoc(t.exec.persisted, r.injected, [r.call] + stored);
    Assoc(r.injected, [r.call], stored);
  }

  lemma SameStored(h: seq<Msg>, stored: seq<Msg>, results: seq<Msg>, summary: seq<Msg>)
    requires h + stored == h + results + summary
    ensures stored == results + summary
  {
    Assoc(h, results, summary);
    Cancel(h, stored, results + summary);
  }

  lemma SummarySaysNothing(summary: seq<Msg>, text: string)
    requires summary == [] || summary == [SummaryMsg(text)]
    ensures ResultIdsOf(summary) == []
  {
  }

  lemma SummaryKeepsContract(h: seq<Msg>, summary: string)
    requires WellFormed(h)
    ensures WellFormed(h + [SummaryMsg(summary)])
  {
    WellFormedOfParts(h, [SummaryMsg(summary)]);
  }

  lemma RoundKeepsSession(c: Config, r: Round, t: Conv)
    requires Proper(c, r, t) && Occurs(t.exec.kind) && WellFormed(t.exec.session) && CleanStored(c, r, t)
    ensures WellFormed(After(c, r, t).exec.session)
  {
    hide WellFormed, Executed, Answerable, OpensExchange, Fitting, AfterOverflows, Resolve;
    RoundKeepsKind(c, r, t);
    if !t.exec.kind.noHistory {
      var asked := Asked(c, r, t);
      UsersKeepContractIff(t.exec.session, r.injected);
      OverflowsKeepSession(c, Injected(c, r, t), r.overflows);
      var added, summary := SessionResults(r, WithCall(r, asked));
      var h := asked.exec.session;
      AllRecordedNotEarly(added);
      hide ExecuteTools.Early;
      ResultsBehindCallIff(h, r.call, added);
      var stored := h + [r.call] + MessagesOf(added);
      if summary != [] {
        SummaryKeepsContract(stored, r.summary);
      } else {
        assert stored + summary == stored;
      }
    }
  }

  // Clean rounds keep the session well formed as well, over injections, compressions and results.
  lemma {:induction false} SessionStaysWellFormed(c: Config, rounds: seq<Round>, t: Conv)
    requires ProperRun(c, rounds, t) && Occurs(t.exec.kind)
    requires WellFormed(t.exec.session) && CleanStoredRun(c, rounds, t)
    ensures WellFormed(AfterRounds(c, rounds, t).exec.session)
    decreases |rounds|
  {
    hide Phase, After, WellFormed, CleanStored, Fitting;
    if rounds != [] {
      RoundKeepsKind(c, rounds[0], t);
      RoundKeepsSession(c, rounds[0], t);
      SessionStaysWellFormed(c, rounds[1..], After(c, rounds[0], t));
    }
  }

  // ----- the restore point over the turn

  // What a refresh would make of the turn now.
  function Refreshed(exec: Exec): Memory {
    Memory(exec.session, RestoreFrom(exec.session, exec.persisted), exec.persisted)
  }

  // No compression of these finds the session to be one single turn of more than two messages.
  predicate KeepsSuffixes(c: Config, t: Conv, overflows: seq<Overflow>)
    decreases |overflows|
  {
    overflows == [] ||
    (&& (!Compression.IsOneTurn(t.exec.session) || |t.exec.session| <= 2)
     && KeepsSuffixes(c, Overflowed(c, t, overflows[0]), overflows[1..]))
  }

  predicate KeepsSuffixesRun(c: Config, rounds: seq<Round>, t: Conv)
    decreases |rounds|
  {
    rounds == [] ||
    (KeepsSuffixes(c, Injected(c, rounds[0], t), rounds[0].overflows) &&
     KeepsSuffixesRun(c, rounds[1..], After(c, rounds[0], t)))
  }

  lemma StoredStaysExact(exec: Exec, ms: seq<Msg>, before: seq<Msg>)
    requires Undoable(Refreshed(exec), before)
    ensures Undoable(Refreshed(StoreAll(exec, ms)), before)
  {
    hide IsSuffix;
    var k: nat :| SplitAt(Refreshed(exec), k);
    PersistsKeepSplit(Refreshed(exec), ms, k);
    hide SplitAt, RestoreFrom;
    assert StoreAll(exec, ms) == exec || SplitAt(Refreshed(StoreAll(exec, ms)), k);
  }

  lemma {:induction false} OverflowsStayExact(c: Config, t: Conv, overflows: seq<Overflow>, before: seq<Msg>)
    requires Undoable(Refreshed(t.exec), before) && KeepsSuffixes(c, t, overflows)
    ensures Undoable(Refreshed(AfterOverflows(c, t, overflows).exec), before)
    decreases |overflows|
  {
    hide Compression.IsOneTurn, Rebuild, SplitAt, IsSuffix, CR.Compacted, RestoreFrom;
    if overflows != [] {
      var k: nat :| SplitAt(Refreshed(t.exec), k);
      CR.CompactionTracelessIff(Refreshed(t.exec), k, before);
      OverflowsStayExact(c, Overflowed(c, t, overflows[0]), overflows[1..], before);
    }
  }

  lemma RoundStaysExact(c: Config, r: Round, t: Conv, before: seq<Msg>)
    requires Occurs(t.exec.kind) && Undoable(Refreshed(t.exec), before)
    requires KeepsSuffixes(c, Injected(c, r, t), r.overflows)
    ensures Undoable(Refreshed(After(c, r, t).exec), before)
  {
    hide Executed, AfterOverflows, Resolve, SplitAt, IsSuffix, RestoreFrom, KeepsSuffixes;
    RoundKeepsKind(c, r, t);
    StoredStaysExact(t.exec, r.injected, before);
    OverflowsStayExact(c, Injected(c, r, t), r.overflows, before);
    var asked := Asked(c, r, t).exec;
    StoredStaysExact(asked, [r.call], before);
    var called := WithCall(r, Asked(c, r, t));
    assert Refreshed(called) == Refreshed(StoreAll(asked, [r.call]));
    var k: nat :| SplitAt(Refreshed(called), k);
    RefreshStaysExact(r.env, r.call.calls, r.late, r.summary, r.suspended, called, Refreshed(called).restore, k);
  }

  // In every kind of turn there is, a refresh at any time finds the place where the turn began, over injections,
  // compressions, calls and results; what it finds in front of that place is a suffix of the history before the turn.
  lemma {:induction false} EveryRefreshIsExact(c: Config, rounds: seq<Round>, t: Conv, before: seq<Msg>)
    requires Occurs(t.exec.kind) && Undoable(Refreshed(t.exec), before) && KeepsSuffixesRun(c, rounds, t)
    ensures Undoable(Refreshed(AfterRounds(c, rounds, t).exec), before)
    decreases |rounds|
  {
    hide Undoable, Refreshed, Phase, After, KeepsSuffixes;
    if rounds != [] {
      RoundKeepsKind(c, rounds[0], t);
      RoundStaysExact(c, rounds[0], t, before);
      EveryRefreshIsExact(c, rounds[1..], After(c, rounds[0], t), before);
    }
  }
}
