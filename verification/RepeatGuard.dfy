/**
 The guard against repeated tool calls: what it remembers, what it decides, and what that means over whole runs.
 A signature names tool and arguments and is never empty; a hash identifies a result.
 */
module RepeatGuard {
  import opened Wrappers

  datatype Guard = Guard(lastSig: string, lastHash: string, count: nat, warned: bool)

  datatype Decision = Allow | Warn | Stop

  const FRESH: Guard := Guard("", "", 0, false)

  predicate HeldBack(g: Guard, sig: string, limit: int) {
    limit > 0 && sig == g.lastSig && g.count >= limit - 1
  }

  function Decide(g: Guard, sig: string, limit: int): Decision {
    if !HeldBack(g, sig, limit) then Allow else if !g.warned then Warn else Stop
  }

  function Checked(g: Guard, sig: string, limit: int): Guard {
    if HeldBack(g, sig, limit) then g.(warned := true) else g
  }

  function Recorded(g: Guard, sig: string, hash: string): Guard {
    if sig == g.lastSig && hash == g.lastHash then g.(count := g.count + 1) else Guard(sig, hash, 1, false)
  }

  // The guard fields of a turn's execution.
  class GuardFields {
    var lastToolSig: string
    var lastResultHash: string
    var toolRepeatCount: nat
    var repeatGuardWarned: bool

    function State(): Guard
      reads this
    {
      Guard(lastToolSig, lastResultHash, toolRepeatCount, repeatGuardWarned)
    }

    constructor ()
      ensures State() == FRESH
    {
      lastToolSig, lastResultHash, toolRepeatCount, repeatGuardWarned := "", "", 0, false;
    }

    method CheckRepeatedToolCall(sig: string, limit: int) returns (d: Decision)
      modifies this`repeatGuardWarned
      ensures d == Decide(old(State()), sig, limit)
      ensures State() == Checked(old(State()), sig, limit)
    {
      if limit <= 0 || sig != lastToolSig || toolRepeatCount < limit - 1 {
        return Allow;
      }
      if !repeatGuardWarned {
        repeatGuardWarned := true;
        return Warn;
      }
      return Stop;
    }

    method RecordToolResult(sig: string, hash: string)
      modifies this
      ensures State() == Recorded(old(State()), sig, hash)
    {
      if sig == lastToolSig && hash == lastResultHash {
        toolRepeatCount := toolRepeatCount + 1;
        return;
      }
      lastToolSig := sig;
      lastResultHash := hash;
      toolRepeatCount := 1;
      repeatGuardWarned := false;
    }
  }

  // ----- runs

  // A call the model asks for: if the guard allows it, it may run with some result, or be denied or aborted.
  datatype Attempt = Attempt(sig: string, result: Option<string>)

  datatype Entry = Ran(sig: string, hash: string) | Warned(sig: string) | Stopped(sig: string)

  // The log has the newest entry in front.
  datatype Run = Run(guard: Guard, log: seq<Entry>)

  function Step(r: Run, a: Attempt, limit: int): Run {
    var g := Checked(r.guard, a.sig, limit);
    match Decide(r.guard, a.sig, limit)
    case Allow =>
      if a.result.Some? then Run(Recorded(g, a.sig, a.result.value), [Ran(a.sig, a.result.value)] + r.log)
      else r
    case Warn => Run(g, [Warned(a.sig)] + r.log)
    case Stop => Run(g, [Stopped(a.sig)] + r.log)
  }

  function Steps(r: Run, attempts: seq<Attempt>, limit: int): Run
    decreases |attempts|
  {
    if attempts == [] then r else Steps(Step(r, attempts[0], limit), attempts[1..], limit)
  }

  // How often, up to now, the same call ran in a row with the same result.
  function Trailing(log: seq<Entry>, sig: string, hash: string): nat {
    if log == [] then 0
    else if log[0].Ran? then if log[0] == Ran(sig, hash) then Trailing(log[1..], sig, hash) + 1 else 0
    else Trailing(log[1..], sig, hash)
  }

  // Was the model warned since that row began?
  predicate WarnedSince(log: seq<Entry>, sig: string, hash: string) {
    if log == [] then false
    else if log[0].Ran? then log[0] == Ran(sig, hash) && WarnedSince(log[1..], sig, hash)
    else (log[0].Warned? && Trailing(log[1..], sig, hash) > 0) || WarnedSince(log[1..], sig, hash)
  }

  function LastRun(log: seq<Entry>): Option<Entry> {
    if log == [] then None else if log[0].Ran? then Some(log[0]) else LastRun(log[1..])
  }

  function MaxCount(limit: int): int {
    if limit - 1 > 1 then limit - 1 else 1
  }

  // The guard remembers exactly what the log says.
  ghost predicate Remembers(r: Run, limit: int) {
    var g := r.guard;
    && (LastRun(r.log).None? ==> g == FRESH)
    && (LastRun(r.log).Some? ==> LastRun(r.log).value == Ran(g.lastSig, g.lastHash) && g.lastSig != "" && g.count >= 1)
    && g.count == Trailing(r.log, g.lastSig, g.lastHash)
    && g.warned == WarnedSince(r.log, g.lastSig, g.lastHash)
    && (limit > 0 ==> g.count <= MaxCount(limit))
  }

  lemma LogUnfold(log: seq<Entry>, e: Entry, sig: string, hash: string)
    ensures Trailing([e] + log, sig, hash) ==
              if e.Ran? then if e == Ran(sig, hash) then Trailing(log, sig, hash) + 1 else 0
              else Trailing(log, sig, hash)
    ensures WarnedSince([e] + log, sig, hash) ==
              if e.Ran? then e == Ran(sig, hash) && WarnedSince(log, sig, hash)
              else (e.Warned? && Trailing(log, sig, hash) > 0) || WarnedSince(log, sig, hash)
    ensures LastRun([e] + log) == if e.Ran? then Some(e) else LastRun(log)
  {
    assert ([e] + log)[1..] == log;
  }

  // An execution that is not the last one has no trailing row, and no warning since.
  lemma {:induction false} OtherRunIsOver(log: seq<Entry>, sig: string, hash: string)
    requires LastRun(log) != Some(Ran(sig, hash))
    ensures Trailing(log, sig, hash) == 0 && !WarnedSince(log, sig, hash)
  {
    if log != [] && !log[0].Ran? {
      OtherRunIsOver(log[1..], sig, hash);
    }
  }

  lemma StepRemembers(r: Run, a: Attempt, limit: int)
    requires Remembers(r, limit) && a.sig != ""
    ensures Remembers(Step(r, a, limit), limit)
  {
    hide Trailing, WarnedSince, LastRun;
    var g := r.guard;
    var d := Decide(g, a.sig, limit);
    if d.Warn? || d.Stop? {
      LogUnfold(r.log, if d.Warn? then Warned(a.sig) else Stopped(a.sig), g.lastSig, g.lastHash);
    } else if a.result.Some? {
      var hash := a.result.value;
      LogUnfold(r.log, Ran(a.sig, hash), a.sig, hash);
      if a.sig != g.lastSig || hash != g.lastHash {
        OtherRunIsOver(r.log, a.sig, hash);
      }
    }
  }

  // Over every run: the count is the length of the trailing run of equal executions, it never exceeds
  // max(1, limit - 1), and the warning flag says whether the model was warned during that run.
  lemma {:induction false} RunRemembers(r: Run, attempts: seq<Attempt>, limit: int)
    requires Remembers(r, limit)
    requires forall a | a in attempts :: a.sig != ""
    ensures Remembers(Steps(r, attempts, limit), limit)
    decreases |attempts|
  {
    if attempts != [] {
      assert attempts[0] in attempts;
      StepRemembers(r, attempts[0], limit);
      RunRemembers(Step(r, attempts[0], limit), attempts[1..], limit);
    }
  }

  lemma {:induction false} StepsAppend(r: Run, a: seq<Attempt>, b: seq<Attempt>, limit: int)
    ensures Steps(r, a + b, limit) == Steps(Steps(r, a, limit), b, limit)
    decreases |a|
  {
    hide Step;
    if a == [] {
      assert a + b == b;
    } else {
      assert (a + b)[1..] == a[1..] + b;
      StepsAppend(Step(r, a[0], limit), a[1..], b, limit);
    }
  }

  // So it is in every turn, which starts with a fresh guard.
  lemma FreshRunRemembers(attempts: seq<Attempt>, limit: int)
    requires forall a | a in attempts :: a.sig != ""
    ensures Remembers(Steps(Run(FRESH, []), attempts, limit), limit)
  {
    RunRemembers(Run(FRESH, []), attempts, limit);
  }

  // A call is held back exactly when the last calls to run were at least limit - 1 identical executions of it,
  // and then with exactly max(1, limit - 1) of them; the turn is ended only if a warning came in between.
  lemma HeldBackIff(r: Run, sig: string, limit: int)
    requires Remembers(r, limit) && sig != "" && limit > 0
    ensures !Decide(r.guard, sig, limit).Allow? <==>
              exists hash :: LastRun(r.log) == Some(Ran(sig, hash)) && Trailing(r.log, sig, hash) >= limit - 1
    ensures !Decide(r.guard, sig, limit).Allow? ==>
              Trailing(r.log, sig, r.guard.lastHash) == MaxCount(limit)
    ensures Decide(r.guard, sig, limit).Stop? ==> WarnedSince(r.log, sig, r.guard.lastHash)
    ensures Decide(r.guard, sig, limit).Warn? ==> !WarnedSince(r.log, sig, r.guard.lastHash)
  {
    if HeldBack(r.guard, sig, limit) {
      assert LastRun(r.log) == Some(Ran(sig, r.guard.lastHash));
    }
  }

  // ----- polling a tool whose output changes

  // Every attempt runs, and no two executions in a row are equal.
  predicate Changing(attempts: seq<Attempt>) {
    && (forall a | a in attempts :: a.sig != "" && a.result.Some?)
    && (forall i | 0 <= i < |attempts| - 1 :: attempts[i] != attempts[i + 1])
  }

  predicate NeverHeldBack(r: Run, attempts: seq<Attempt>, limit: int)
    decreases |attempts|
  {
    attempts == [] ||
    (Decide(r.guard, attempts[0].sig, limit).Allow? && NeverHeldBack(Step(r, attempts[0], limit), attempts[1..], limit))
  }

  lemma {:induction false} ChangingIsFree(r: Run, attempts: seq<Attempt>, limit: int)
    requires limit <= 0 || limit >= 3
    requires Changing(attempts)
    requires limit > 0 ==> r.guard.count <= 1
    requires attempts != [] ==> attempts[0] != Attempt(r.guard.lastSig, Some(r.guard.lastHash))
    ensures NeverHeldBack(r, attempts, limit)
    decreases |attempts|
  {
    if attempts != [] {
      assert attempts[0] in attempts;
      var next := Step(r, attempts[0], limit);
      if |attempts| > 1 { assert attempts[0] != attempts[0 + 1]; }
      assert Changing(attempts[1..]) by {
        assert forall i | 0 <= i < |attempts[1..]| - 1 :: attempts[1..][i] == attempts[i + 1];
      }
      ChangingIsFree(next, attempts[1..], limit);
    }
  }

  // Calls whose results keep changing are never held back if and only if the limit is off or at least 3: with a
  // limit of 1 or 2 one execution is already enough for the next call of the same signature to be held back.
  lemma ChangingIsFreeIff(limit: int)
    ensures (forall attempts | Changing(attempts) :: NeverHeldBack(Run(FRESH, []), attempts, limit))
            <==> (limit <= 0 || limit >= 3)
  {
    var start := Run(FRESH, []);
    if limit <= 0 || limit >= 3 {
      forall attempts | Changing(attempts)
        ensures NeverHeldBack(start, attempts, limit)
      {
        if attempts != [] { assert attempts[0] in attempts; }
        ChangingIsFree(start, attempts, limit);
      }
    } else {
      var one, two := Attempt("poll", Some("1")), Attempt("poll", Some("2"));
      var attempts := [one, two];
      assert one.result.value[0] != two.result.value[0];
      assert Changing(attempts);
      var next := Step(start, one, limit);
      assert next.guard == Guard("poll", "1", 1, false);
      assert attempts[1..][0] == two;
      assert !NeverHeldBack(next, attempts[1..], limit);
    }
  }
}
