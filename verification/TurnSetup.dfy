/**
 How a turn starts: the prompt is built from the session; when it is too long the session is compressed, the restore
 point refreshed, and the prompt rebuilt from a trimmed history; then the user message is stored.
 */
module TurnSetup {
  import opened Messages
  import opened ExecuteTools
  import opened Pipeline
  import opened Prompt
  import opened TurnImages
  import opened TurnState
  import opened Wrappers
  import CB = ContextBudget
  import CR = ContextRetry
  import Compression
  import Media
  import RepeatGuard

  // The message of the user as the model gets to see it, and as it is stored.
  datatype Current = Current(shown: Msg, stored: Msg)

  datatype Origin = Origin(kind: TurnKind, session: seq<Msg>, summary: string, current: Option<Current>)

  function ShownMsg(current: Option<Current>): Option<Msg> {
    if current.Some? then Some(current.value.shown) else None
  }

  function StoredMsgs(current: Option<Current>): seq<Msg> {
    if current.Some? then [current.value.stored] else []
  }

  function LoadedHistory(o: Origin): seq<Msg> {
    if o.kind.noHistory then [] else o.session
  }

  function LoadedSummary(o: Origin): string {
    if o.kind.noHistory then "" else o.summary
  }

  function Built(c: Config, summary: string, history: seq<Msg>, current: Option<Current>): seq<Msg> {
    BuildMessages(SystemText(c, summary, history), history, ShownMsg(current))
  }

  // Where the turn starts in a prompt: at the current message, or behind the end.
  function StartIn(built: seq<Msg>, current: Option<Current>): int {
    |built| - |StoredMsgs(current)|
  }

  function ResolvedPrompt(c: Config, summary: string, history: seq<Msg>, current: Option<Current>): seq<Msg> {
    var built := Built(c, summary, history, current);
    Resolve(c, built, StartIn(built, current))
  }

  function Builder(c: Config, summary: string, current: Option<Current>): seq<Msg> -> seq<Msg> {
    history => ResolvedPrompt(c, summary, history, current)
  }

  predicate TooLong(c: Config, o: Origin) {
    && !o.kind.noHistory
    && !CB.Fits(c.budget, ResolvedPrompt(c, LoadedSummary(o), LoadedHistory(o), o.current))
  }

  // Nothing has happened yet in the turn.
  function Fresh(kind: TurnKind, messages: seq<Msg>, session: seq<Msg>): Exec {
    Exec(kind, messages, session, [], [], RepeatGuard.FRESH, true)
  }

  // The conversation a turn starts with. `squeezed` is what the trim keeps behind a compression. The recorded start is
  // that of the first prompt, even if the conversation is the second one.
  function SetUp(c: Config, o: Origin, squeezed: Option<Overflow>): Conv {
    var built := Built(c, LoadedSummary(o), LoadedHistory(o), o.current);
    var session := if squeezed.Some? then CR.Compacted(o.session) else o.session;
    var messages :=
      if squeezed.Some? then ResolvedPrompt(c, squeezed.value.summary, squeezed.value.trimmed, o.current)
      else Resolve(c, built, StartIn(built, o.current));
    Conv(StoreAll(Fresh(o.kind, messages, session), StoredMsgs(o.current)), StartIn(built, o.current))
  }

  // It is compressed exactly when the first prompt is too long; the second one may still be.
  ghost predicate Squeezes(c: Config, o: Origin, squeezed: Option<Overflow>) {
    && (squeezed.Some? <==> TooLong(c, o))
    && (squeezed.Some? ==>
          var fits := CB.FitsBuilt(c.budget, Builder(c, squeezed.value.summary, o.current));
          exists fit :: CB.TrimResult(CR.Compacted(o.session), fits, squeezed.value.trimmed, fit))
  }

  method SetupTurn(turn: Turn, kind: TurnKind, c: Config, current: Option<Current>)
    returns (messages: seq<Msg>, start: int, ghost squeezed: Option<Overflow>)
    requires turn.persisted == []
    modifies turn, turn.session
    ensures var o := Origin(kind, old(turn.session.history), old(turn.session.summary), current);
            var t := SetUp(c, o, squeezed);
            && Squeezes(c, o, squeezed)
            && messages == t.exec.messages && start == t.start
            && start == |Built(c, LoadedSummary(o), LoadedHistory(o), current)| - (if current.Some? then 1 else 0)
            && turn.session.history == t.exec.session && turn.persisted == t.exec.persisted
            && turn.session.history ==
                 (if squeezed.Some? then CR.Compacted(o.session) else o.session)
                 + (if kind.noHistory then [] else StoredMsgs(current))
            && turn.persisted == (if kind.noHistory then [] else StoredMsgs(current))
            && (!kind.noHistory ==> turn.restoreHistory == CR.Compacted(o.session) || squeezed.None?)
            && (squeezed.None? ==> turn.restoreHistory == LoadedHistory(o))
  {
    hide CB.TrimResult, CR.Compacted, CB.Fits, Resolve, BuildMessages;
    ghost var o := Origin(kind, turn.session.history, turn.session.summary, current);
    var history: seq<Msg>, summary: string := [], "";
    if !kind.noHistory {
      history, summary := turn.session.history, turn.session.summary;
    }
    turn.CaptureRestorePoint(history, summary);
    var built := BuildMessagesFromPrompt(SystemText(c, summary, history), history, ShownMsg(current));
    start := |built|;
    if current.Some? {
      start := |built| - 1;
    }
    messages := ResolveAll(c, built, start);
    squeezed := None;
    if !kind.noHistory {
      var over := CB.IsOverContextBudget(c.budget, messages);
      if over {
        NothingPersisted(o.session);
        CR.CompactSession(turn, c.note);
        history, summary := turn.session.history, turn.session.summary;
        var fit;
        history, messages, fit := CB.TrimHistoryToFit(history, Builder(c, summary, current), c.budget);
        squeezed := Some(Overflow(summary, history));
      }
    }
    if !kind.noHistory && current.Some? {
      turn.StoreMessage(current.value.stored);
    }
  }

  method ResolveAll(c: Config, h: seq<Msg>, start: int) returns (resolved: seq<Msg>)
    ensures resolved == Resolve(c, h, start)
  {
    resolved := Media.ResolveMediaRefs(h, c.hasStore, c.media, start);
  }

  // Before anything is persisted all of the session is older than the turn.
  lemma NothingPersisted(session: seq<Msg>)
    ensures RestoreFrom(CR.Compacted(session), []) == CR.Compacted(session)
  {
  }

  // ----- every turn starts legal

  lemma PromptIsLegal(c: Config, summary: string, history: seq<Msg>, current: Option<Current>)
    requires current.Some? ==> IsUser(current.value.shown)
    ensures LegalPrompt(ResolvedPrompt(c, summary, history, current))
  {
    hide LegalPrompt, BuildMessages;
    var built := Built(c, summary, history, current);
    BuiltIsLegal(SystemText(c, summary, history), history, ShownMsg(current));
    ResolveKeeps(c, built, StartIn(built, current));
  }

  lemma SetupIsLegal(c: Config, o: Origin, squeezed: Option<Overflow>)
    requires o.current.Some? ==> IsUser(o.current.value.shown)
    ensures LegalPrompt(SetUp(c, o, squeezed).exec.messages)
  {
    hide LegalPrompt, ResolvedPrompt, Resolve;
    PromptIsLegal(c, LoadedSummary(o), LoadedHistory(o), o.current);
    if squeezed.Some? {
      PromptIsLegal(c, squeezed.value.summary, squeezed.value.trimmed, o.current);
    }
    assert ResolvedPrompt(c, LoadedSummary(o), LoadedHistory(o), o.current) ==
           SetUp(c, o, None).exec.messages by { FirstPrompt(c, o); }
    assert squeezed.None? ==> SetUp(c, o, squeezed) == SetUp(c, o, None);
  }

  lemma FirstPrompt(c: Config, o: Origin)
    ensures SetUp(c, o, None).exec.messages == ResolvedPrompt(c, LoadedSummary(o), LoadedHistory(o), o.current)
  {
  }

  // From the session to the last round: the conversation of a turn is legal if and only if every round was clean since
  // the last rebuild, or since the start.
  lemma TurnLegalFromSession(c: Config, o: Origin, squeezed: Option<Overflow>, rounds: seq<Round>)
    requires o.current.Some? ==> IsUser(o.current.value.shown)
    requires ProperRun(c, rounds, SetUp(c, o, squeezed))
    ensures var t := SetUp(c, o, squeezed);
            LegalPrompt(AfterRounds(c, rounds, t).exec.messages) <==> StaysLegal(c, rounds, t, true)
  {
    hide LegalPrompt, SetUp, ProperRun, StaysLegal, AfterRounds;
    SetupIsLegal(c, o, squeezed);
    ConversationLegalIff(c, rounds, SetUp(c, o, squeezed));
  }

  // ----- the restore point

  // After the setup a refresh finds the place where the turn began, with a suffix of the session in front of it, if and
  // only if nothing was compressed, or the session was no single turn of more than two messages.
  lemma SetupIsExactIff(c: Config, o: Origin, squeezed: Option<Overflow>)
    requires squeezed.Some? ==> !o.kind.noHistory
    ensures Undoable(Refreshed(SetUp(c, o, squeezed).exec), o.session) <==>
              squeezed.None? || !Compression.IsOneTurn(o.session) || |o.session| <= 2
  {
    hide Compression.IsOneTurn, CR.Compacted, Undoable, Refreshed, Resolve, ResolvedPrompt;
    var ms, messages := StoredMsgs(o.current), SetUp(c, o, squeezed).exec.messages;
    if squeezed.None? {
      FreshIsExact(o.kind, messages, o.session);
      StoredStaysExact(Fresh(o.kind, messages, o.session), ms, o.session);
    } else {
      var compacted := Fresh(o.kind, messages, CR.Compacted(o.session));
      CompactedIsExactIff(o.kind, messages, o.session);
      if Undoable(Refreshed(compacted), o.session) {
        StoredStaysExact(compacted, ms, o.session);
      } else {
        StaysTraced(compacted, ms, o.session);
      }
    }
  }

  lemma FreshIsExact(kind: TurnKind, messages: seq<Msg>, session: seq<Msg>)
    ensures Undoable(Refreshed(Fresh(kind, messages, session)), session)
    ensures SplitAt(Refreshed(Fresh(kind, messages, session)), 0)
  {
    NothingRecorded(session);
    TurnStartsUndoable(session);
    assert session == session + [][0..];
  }

  lemma CompactedIsExactIff(kind: TurnKind, messages: seq<Msg>, session: seq<Msg>)
    ensures Undoable(Refreshed(Fresh(kind, messages, CR.Compacted(session))), session) <==>
              !Compression.IsOneTurn(session) || |session| <= 2
  {
    hide Compression.IsOneTurn, CR.Compacted, SplitAt, RestoreFrom;
    var s := Refreshed(Fresh(kind, messages, session));
    FreshIsExact(kind, messages, session);
    NothingRecorded(session);
    CR.CompactionTracelessIff(s, 0, session);
  }

  lemma NothingRecorded(session: seq<Msg>)
    ensures RestoreFrom(session, []) == session && session + [] == session
  {
  }

  lemma StaysTraced(exec: Exec, ms: seq<Msg>, session: seq<Msg>)
    requires !exec.kind.noHistory && exec.persisted == [] && !Undoable(Refreshed(exec), session)
    ensures !Undoable(Refreshed(StoreAll(exec, ms)), session)
  {
    hide IsSuffix;
    NothingRecorded(exec.session);
    assert SplitAt(Refreshed(exec), 0);
    PersistsKeepSplit(Refreshed(exec), ms, 0);
  }

  // Over the whole turn, from the session on, every refresh is exact.
  lemma EveryRefreshFromSession(c: Config, o: Origin, squeezed: Option<Overflow>, rounds: seq<Round>)
    requires Occurs(o.kind) && (squeezed.Some? ==> !o.kind.noHistory)
    requires squeezed.None? || !Compression.IsOneTurn(o.session) || |o.session| <= 2
    requires KeepsSuffixesRun(c, rounds, SetUp(c, o, squeezed))
    ensures Undoable(Refreshed(AfterRounds(c, rounds, SetUp(c, o, squeezed)).exec), o.session)
  {
    hide Undoable, Refreshed, KeepsSuffixesRun, Compression.IsOneTurn;
    SetupIsExactIff(c, o, squeezed);
    EveryRefreshIsExact(c, rounds, SetUp(c, o, squeezed), o.session);
  }

  // ----- the recorded start

  // It is in place unless the setup compressed and the second prompt is so short that it ends below the start.
  lemma StartInPlaceIff(c: Config, o: Origin, squeezed: Option<Overflow>)
    requires c.hasStore
    ensures InPlace(SetUp(c, o, squeezed)) <==>
              squeezed.None?
              || StartIn(Built(c, LoadedSummary(o), LoadedHistory(o), o.current), o.current)
                 <= |ResolvedPrompt(c, squeezed.value.summary, squeezed.value.trimmed, o.current)|
  {
    hide Resolve, BuildMessages;
    var built := Built(c, LoadedSummary(o), LoadedHistory(o), o.current);
    ResolvedShowsNothing(c, built, StartIn(built, o.current));
  }

  // Every image of the turn is shown once, whatever the rounds, when the start is in place; and in any turn exactly
  // when no image stands below it.
  lemma TurnShowsImagesIff(c: Config, o: Origin, squeezed: Option<Overflow>, rounds: seq<Round>)
    requires ProperRun(c, rounds, SetUp(c, o, squeezed)) && Resolves(c, rounds)
    ensures var t := SetUp(c, o, squeezed);
            && (Inserted(c, rounds, t) == Due(c, rounds, t) <==> Hidden(c, rounds, t) == [])
            && (InPlace(t) ==> Hidden(c, rounds, t) == [])
  {
    hide ProperRun, Inserted, Due, Hidden, InPlace, Resolve;
    var t := SetUp(c, o, squeezed);
    var built := Built(c, LoadedSummary(o), LoadedHistory(o), o.current);
    ResolvedShowsNothing(c, built, StartIn(built, o.current));
    if squeezed.Some? {
      var again := Built(c, squeezed.value.summary, squeezed.value.trimmed, o.current);
      ResolvedShowsNothing(c, again, StartIn(again, o.current));
    }
    assert NothingToShow(c, t.exec.messages);
    ImagesShownIff(c, rounds, t);
    if InPlace(t) {
      NothingHidden(c, rounds, t);
    }
  }
}
