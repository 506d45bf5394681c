/** The prompt of a turn: one system message, unless it is empty, the sanitized history, and the current message. */
module Prompt {
  import opened Messages
  import opened Sanitizer
  import opened Strings
  import opened Wrappers

  function SystemMsg(content: string): Msg {
    Msg(System, content, [], "", [], "system")
  }

  function EmptyUserMsg(): Msg {
    Msg(User, "", [], "", [], "user")
  }

  function Head(system: string): seq<Msg> {
    if TrimSpace(system) == "" then [] else [SystemMsg(system)]
  }

  function Tail(current: Option<Msg>): seq<Msg> {
    if current.Some? then [current.value] else []
  }

  function BuildMessages(system: string, history: seq<Msg>, current: Option<Msg>): seq<Msg> {
    var built := Head(system) + Sanitized(history) + Tail(current);
    if built == [] then [EmptyUserMsg()] else built
  }

  method BuildMessagesFromPrompt(system: string, history: seq<Msg>, current: Option<Msg>)
    returns (messages: seq<Msg>)
    ensures messages == BuildMessages(system, history, current)
  {
    hide TrimSpace, Sanitized;
    messages := [];
    var sanitized := Sanitize(history);
    if TrimSpace(system) != "" {
      messages := messages + [SystemMsg(system)];
    }
    messages := messages + sanitized;
    if current.Some? {
      messages := messages + [current.value];
    }
    if |messages| == 0 {
      messages := messages + [EmptyUserMsg()];
    }
  }

  // Users behind a well-formed history leave it well formed, and nothing else.
  lemma UsersKeepContractIff(h: seq<Msg>, users: seq<Msg>)
    requires forall k | 0 <= k < |users| :: IsUser(users[k])
    ensures WellFormed(h + users) <==> WellFormed(h)
  {
    var full := h + users;
    if users == [] {
      assert full == h;
    } else {
      WellFormedOfParts(h, users);
      forall i | |h| <= i < |full|
        ensures WellPlaced(full, i)
      {
        assert full[i] == users[i - |h|];
      }
    }
  }

  lemma UsersKeepPromptIff(h: seq<Msg>, users: seq<Msg>)
    requires forall k | 0 <= k < |users| :: IsUser(users[k])
    ensures LegalPrompt(h + users) <==> LegalPrompt(h)
    ensures OpensExchange(h + users) <==> users != [] || OpensExchange(h)
  {
    if users == [] {
      assert h + users == h;
    } else {
      assert IsUser(users[|users| - 1]);
      BodyAppend(h, users);
      UsersKeepContractIff(Body(h), users);
    }
  }

  // Whatever is stored, the prompt built from it is legal; behind the system message it shows the sanitized history,
  // and no message is added but the current one, or an empty one to an empty prompt.
  lemma BuiltIsLegal(system: string, history: seq<Msg>, current: Option<Msg>)
    requires current.Some? ==> IsUser(current.value)
    ensures LegalPrompt(BuildMessages(system, history, current))
    ensures TrimSpace(system) != "" ==>
              var built := BuildMessages(system, history, current);
              built[0].role.System? && built[0].content == system
    ensures Head(system) + Sanitized(history) + Tail(current) != [] ==>
              Body(BuildMessages(system, history, current)) == Sanitized(history) + Tail(current)
  {
    hide TrimSpace, Sanitized;
    var shown := Sanitized(history) + Tail(current);
    SanitizedWellFormed(history);
    UsersKeepContractIff(Sanitized(history), Tail(current));
    if Head(system) == [] {
      assert Head(system) + Sanitized(history) + Tail(current) == shown;
      NoHeadIsBody(shown);
      NoHeadIsBody([EmptyUserMsg()]);
    } else {
      assert (Head(system) + Sanitized(history) + Tail(current))[1..] == shown;
    }
    assert WellPlaced([EmptyUserMsg()], 0);
  }

  lemma NoHeadIsBody(h: seq<Msg>)
    requires WellFormed(h) || h == [EmptyUserMsg()]
    ensures Body(h) == h
  {
    if h != [] && WellFormed(h) {
      assert WellPlaced(h, 0);
    }
  }
}
