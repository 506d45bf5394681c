/**
 Emergency compression: the session drops about half of its turns, and its summary says how many messages went.
 */
module Compression {
  import opened Messages
  import opened ContextBudget
  import TurnState

  datatype Compressed = Unchanged | Kept(history: seq<Msg>)

  function Compress(h: seq<Msg>): Compressed {
    var turns := Turns(h);
    if |h| <= 2 then Unchanged
    else if |turns| >= 2 then
      TurnsAreUsers(h, 0);
      assert turns[|turns| / 2] in turns;
      Kept(h[turns[|turns| / 2]..])
    else if |turns| == 0 then Kept(h[|h| / 2..])
    else
      TurnsAreUsers(h, 0);
      assert turns[0] in turns;
      if turns[0] > 0 then Kept(h[turns[0]..]) else Kept([h[0]])
  }

  lemma CompressedIsShorter(h: seq<Msg>)
    ensures Compress(h).Kept? ==> |Compress(h).history| <= |h|
  {
    TurnsAreUsers(h, 0);
    var turns := Turns(h);
    assert |turns| > 0 ==> turns[|turns| / 2] in turns && turns[0] in turns;
  }

  method ForceCompression(session: TurnState.Session, note: nat -> string) returns (done: bool)
    modifies session
    ensures done == Compress(old(session.history)).Kept?
    ensures !done ==> session.history == old(session.history) && session.summary == old(session.summary)
    ensures done ==> session.history == Compress(old(session.history)).history
    ensures done ==>
              var dropped := |old(session.history)| - |session.history|;
              && dropped >= 0
              && session.summary == if old(session.summary) == "" then note(dropped)
                                    else old(session.summary) + "\n\n" + note(dropped)
  {
    hide UserIn;
    var history := session.history;
    if |history| <= 2 {
      return false;
    }
    var turns := ParseTurnBoundaries(history);
    TurnsAreUsers(history, 0);
    var mid: nat;
    if |turns| >= 2 {
      mid := turns[|turns| / 2];
      assert mid in turns && turns[0] in turns && turns[0] < mid;
    } else {
      mid := FindSafeBoundary(history, |history| / 2);
      OneTurnBoundary(history, mid);
    }
    var kept: seq<Msg> := [];
    if mid <= 0 {
      kept := LastUserMessage(history);
    } else {
      kept := history[mid..];
    }
    var dropped := |history| - |kept|;
    session.SetSummary(
      if session.summary != "" then session.summary + "\n\n" + note(dropped) else note(dropped));
    session.SetHistory(kept);
    return true;
  }

  // With at most one turn, the safe boundary next to the middle is that turn, or the middle when there is none.
  lemma OneTurnBoundary(h: seq<Msg>, cut: nat)
    requires |h| > 2 && |Turns(h)| < 2 && cut <= |h|
    requires if !UserIn(h, 0, |h|) then cut == |h| / 2
             else if UserIn(h, 1, |h| / 2 + 1) then 0 < cut <= |h| / 2 && IsUser(h[cut])
             else if UserIn(h, |h| / 2 + 1, |h|) then |h| / 2 < cut < |h| && IsUser(h[cut])
             else cut == 0
    ensures |Turns(h)| == 0 ==> cut == |h| / 2
    ensures |Turns(h)| == 1 ==> cut == Turns(h)[0]
  {
    TurnsAreUsers(h, 0);
    if |Turns(h)| == 1 {
      var t := Turns(h)[0];
      assert t in Turns(h);
      assert UserIn(h, 0, |h|);
      assert forall i | 0 <= i < |h| && IsUser(h[i]) :: i == t;
      assert 1 <= t <= |h| / 2 ==> UserIn(h, 1, |h| / 2 + 1);
      assert |h| / 2 < t ==> UserIn(h, |h| / 2 + 1, |h|);
    }
  }

  method LastUserMessage(history: seq<Msg>) returns (kept: seq<Msg>)
    ensures |Turns(history)| == 0 ==> kept == []
    ensures |Turns(history)| == 1 ==> Turns(history)[0] < |history| && kept == [history[Turns(history)[0]]]
  {
    TurnsAreUsers(history, 0);
    kept := [];
    var i := |history| - 1;
    while i >= 0
      invariant -1 <= i < |history|
      invariant forall j | i < j < |history| :: !IsUser(history[j])
    {
      if IsUser(history[i]) {
        assert i in Turns(history);
        return [history[i]];
      }
      i := i - 1;
    }
    TurnsUnfold(history, 0);
  }

  // ----- when the compressed history is a suffix

  predicate IsOneTurn(h: seq<Msg>) {
    |Turns(h)| == 1 && Turns(h)[0] == 0
  }

  // Compression keeps a suffix of the history if and only if the history is not one single turn; of a single
  // turn it keeps the user message alone.
  lemma CompressKeepsSuffixIff(h: seq<Msg>)
    requires Compress(h).Kept?
    ensures IsSuffix(Compress(h).history, h) <==> !IsOneTurn(h)
    ensures IsOneTurn(h) ==> Compress(h).history == [h[0]]
  {
    TurnsAreUsers(h, 0);
    var kept := Compress(h).history;
    if IsOneTurn(h) {
      assert Turns(h)[0] in Turns(h);
      assert IsUser(h[|h| - 1]) ==> |h| - 1 in Turns(h);
      assert IsUser(kept[0]) && !IsUser(h[|h| - 1]);
    } else if |Turns(h)| >= 1 {
      var t := if |Turns(h)| >= 2 then Turns(h)[|Turns(h)| / 2] else Turns(h)[0];
      assert t in Turns(h);
      assert kept == h[t..];
    }
  }

  // Compression of a well-formed history is well formed: it never splits an exchange.
  lemma CompressKeepsExchanges(h: seq<Msg>)
    requires WellFormed(h) && Compress(h).Kept?
    ensures WellFormed(Compress(h).history)
  {
    TurnsAreUsers(h, 0);
    var turns := Turns(h);
    if |turns| == 0 {
      assert forall i | 0 <= i < |h| :: !IsUser(h[i]);
      NoUserNoExchange(h, |h|);
      WellFormedSuffix(h, |h| / 2);
    } else if IsOneTurn(h) {
      assert WellPlaced(h, 0);
      assert turns[0] in turns;
      assert WellPlaced([h[0]], 0);
    } else {
      var k := if |turns| >= 2 then turns[|turns| / 2] else turns[0];
      assert k in turns;
      WellFormedSuffix(h, k);
    }
  }

  // Without a user message there is nothing that could start an exchange.
  lemma {:induction false} NoUserNoExchange(h: seq<Msg>, n: nat)
    requires WellFormed(h) && n <= |h|
    requires forall i | 0 <= i < n :: !IsUser(h[i])
    ensures forall i | 0 <= i < n :: !IsTool(h[i]) && !IsCall(h[i])
  {
    if n > 0 {
      NoUserNoExchange(h, n - 1);
      assert WellPlaced(h, n - 1);
    }
  }

  // Compression leaves a history that starts with a tool result, cut off from its call, if and only if there is no
  // user message and a tool result stands in the middle. A stored session lacks user messages only if every turn on
  // it began with neither text nor media.
  lemma CompressSplitsExchangeIff(h: seq<Msg>)
    requires Compress(h).Kept?
    ensures var kept := Compress(h).history;
            kept != [] && IsTool(kept[0]) <==> !UserIn(h, 0, |h|) && IsTool(h[|h| / 2])
  {
    TurnsAreUsers(h, 0);
    var turns := Turns(h);
    if |turns| == 0 {
      assert forall i | 0 <= i < |h| :: IsUser(h[i]) ==> i in turns;
    } else {
      assert turns[0] in turns && turns[|turns| / 2] in turns;
      assert IsUser(Compress(h).history[0]);
    }
  }
}
