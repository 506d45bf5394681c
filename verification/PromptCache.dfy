/**
 The cache of the system prompt. A cached prompt is served as long as the modification times of the tracked files
 say that nothing changed since a baseline was taken.
 */
module PromptCache {
  import opened Wrappers

  const AGENT_FILE := "AGENT.md"
  const EPOCH: nat := 1

  datatype File = File(mtime: nat, content: string)

  // The workspace: source files, the files below the skill roots, and the root directories, a missing one without a
  // time. `clock` is the latest time any of them was written.
  datatype Fs = Fs(
    files: map<string, File>,
    skills: map<string, File>,
    roots: map<string, Option<nat>>,
    clock: nat)

  // The files whose times and existence the cache watches: while AGENT.md exists, none of the legacy layout.
  function Tracked(fs: Fs): seq<string> {
    [AGENT_FILE, "SOUL.md", "USER.md"]
    + (if AGENT_FILE in fs.files then [] else ["AGENTS.md", "IDENTITY.md"])
    + ["memory/MEMORY.md"]
  }

  // Everything a build of the prompt reads, document by document.
  datatype View = View(
    agent: Option<string>,
    legacyAgent: Option<string>,
    soul: Option<string>,
    user: Option<string>,
    identity: Option<string>,
    memory: Option<string>,
    skills: map<string, string>)

  function ContentOf(fs: Fs, p: string): Option<string> {
    if p in fs.files then Some(fs.files[p].content) else None
  }

  // The documents of the legacy layout are read only where there is no AGENT.md.
  function Seen(fs: Fs): View {
    var legacy := AGENT_FILE !in fs.files;
    View(ContentOf(fs, AGENT_FILE),
         if legacy then ContentOf(fs, "AGENTS.md") else None,
         ContentOf(fs, "SOUL.md"),
         ContentOf(fs, "USER.md"),
         if legacy then ContentOf(fs, "IDENTITY.md") else None,
         ContentOf(fs, "memory/MEMORY.md"),
         map p | p in fs.skills :: fs.skills[p].content)
  }

  // ----- the baseline and the check against it

  datatype Baseline = Baseline(
    maxMtime: nat,                 // zero: no baseline
    existed: map<string, bool>,
    rootExisted: map<string, bool>,
    skillFiles: map<string, nat>)

  const NO_BASELINE: Baseline := Baseline(0, map[], map[], map[])

  function FileTimes(fs: Fs): set<nat> {
    set p | p in Tracked(fs) && p in fs.files :: fs.files[p].mtime
  }

  function RootTimes(fs: Fs): set<nat> {
    set r | r in fs.roots && fs.roots[r].Some? :: fs.roots[r].value
  }

  function SkillTimes(fs: Fs): set<nat> {
    set p | p in fs.skills :: fs.skills[p].mtime
  }

  function Times(fs: Fs): set<nat> {
    FileTimes(fs) + RootTimes(fs) + SkillTimes(fs)
  }

  ghost predicate IsLatest(m: nat, times: set<nat>) {
    (forall t | t in times :: t <= m) && (m == 0 || m in times)
  }

  ghost function Latest(times: set<nat>): (m: nat)
    ensures IsLatest(m, times)
  {
    if times == {} then 0
    else
      var t :| t in times;
      var m := Latest(times - {t});
      assert forall x | x in times :: x == t || x in times - {t};
      if t > m then t else m
  }

  ghost function BaselineOf(fs: Fs): Baseline {
    var m := Latest(Times(fs));
    Baseline(if m == 0 then EPOCH else m,
             map p | p in Tracked(fs) :: p in fs.files,
             map r | r in fs.roots :: fs.roots[r].Some?,
             map p | p in fs.skills :: fs.skills[p].mtime)
  }

  predicate Existed(existed: map<string, bool>, p: string) {
    p in existed && existed[p]
  }

  predicate FileChanged(b: Baseline, fs: Fs, p: string) {
    if Existed(b.existed, p) != (p in fs.files) then true
    else p in fs.files && fs.files[p].mtime > b.maxMtime
  }

  predicate RootChanged(b: Baseline, fs: Fs, r: string)
    requires r in fs.roots
  {
    if Existed(b.rootExisted, r) != fs.roots[r].Some? then true
    else fs.roots[r].Some? && fs.roots[r].value > b.maxMtime
  }

  predicate SkillDiffers(fs: Fs, skillFiles: map<string, nat>, p: string)
    requires p in skillFiles
  {
    p !in fs.skills || fs.skills[p].mtime != skillFiles[p]
  }

  predicate SkillsChanged(b: Baseline, fs: Fs) {
    || (exists p :: p in b.skillFiles && SkillDiffers(fs, b.skillFiles, p))
    || (exists p :: p in fs.skills && p !in b.skillFiles)
  }

  predicate Changed(b: Baseline, fs: Fs) {
    || b.maxMtime == 0
    || (exists p :: p in Tracked(fs) && FileChanged(b, fs, p))
    || (exists r :: r in fs.roots && RootChanged(b, fs, r))
    || SkillsChanged(b, fs)
  }

  // ----- time

  // No file is newer than the clock.
  predicate Timed(fs: Fs) {
    && fs.clock >= EPOCH
    && (forall p | p in fs.files :: fs.files[p].mtime <= fs.clock)
    && (forall p | p in fs.skills :: fs.skills[p].mtime <= fs.clock)
    && (forall r | r in fs.roots :: fs.roots[r].Some? ==> fs.roots[r].value <= fs.clock)
  }

  predicate FilesLater(earlier: map<string, File>, later: map<string, File>, clock: nat) {
    forall p | p in later :: later[p].mtime > clock || (p in earlier && earlier[p] == later[p])
  }

  // What `b` has it has from `a`, or it was written after everything in `a`.
  predicate Later(a: Fs, b: Fs) {
    && Timed(a)
    && Timed(b)
    && a.clock <= b.clock
    && FilesLater(a.files, b.files, a.clock)
    && FilesLater(a.skills, b.skills, a.clock)
    && a.roots.Keys == b.roots.Keys
    && (forall r | r in b.roots && b.roots[r].Some? :: b.roots[r].value > a.clock || a.roots[r] == b.roots[r])
  }

  lemma LaterTransitive(a: Fs, b: Fs, c: Fs)
    requires Later(a, b) && Later(b, c)
    ensures Later(a, c)
  {
  }

  datatype FsOp =
    | Write(path: string, content: string, pause: nat)
    | Delete(path: string)
    | WriteSkill(path: string, content: string, pause: nat)
    | DeleteSkill(path: string)
    | TouchRoot(root: string, pause: nat)
    | RemoveRoot(root: string)

  // Writes carry strictly increasing times.
  function Apply(fs: Fs, op: FsOp): Fs {
    match op
    case Write(p, content, pause) =>
      var now := fs.clock + 1 + pause;
      fs.(files := fs.files[p := File(now, content)], clock := now)
    case Delete(p) => fs.(files := fs.files - {p})
    case WriteSkill(p, content, pause) =>
      var now := fs.clock + 1 + pause;
      fs.(skills := fs.skills[p := File(now, content)], clock := now)
    case DeleteSkill(p) => fs.(skills := fs.skills - {p})
    case TouchRoot(r, pause) =>
      var now := fs.clock + 1 + pause;
      if r in fs.roots then fs.(roots := fs.roots[r := Some(now)], clock := now) else fs
    case RemoveRoot(r) =>
      if r in fs.roots then fs.(roots := fs.roots[r := None]) else fs
  }

  function ApplyAll(fs: Fs, ops: seq<FsOp>): Fs
    decreases |ops|
  {
    if ops == [] then fs else ApplyAll(Apply(fs, ops[0]), ops[1..])
  }

  lemma ApplyLater(fs: Fs, op: FsOp)
    requires Timed(fs)
    ensures Later(fs, Apply(fs, op))
  {
  }

  lemma {:induction false} ApplyAllLater(fs: Fs, ops: seq<FsOp>)
    requires Timed(fs)
    ensures Later(fs, ApplyAll(fs, ops))
    decreases |ops|
  {
    if ops != [] {
      hide Later;
      ApplyLater(fs, ops[0]);
      assert Timed(Apply(fs, ops[0])) by { LaterTimed(fs, Apply(fs, ops[0])); }
      ApplyAllLater(Apply(fs, ops[0]), ops[1..]);
      LaterTransitive(fs, Apply(fs, ops[0]), ApplyAll(fs, ops));
    } else {
      assert Later(fs, fs);
    }
  }

  lemma LaterTimed(a: Fs, b: Fs)
    requires Later(a, b)
    ensures Timed(a) && Timed(b)
  {
  }

  // ----- what the check is worth

  lemma BaselineBounds(fs: Fs)
    requires Timed(fs)
    ensures EPOCH <= BaselineOf(fs).maxMtime <= fs.clock
    ensures forall p | p in Tracked(fs) && p in fs.files :: fs.files[p].mtime <= BaselineOf(fs).maxMtime
    ensures forall r | r in fs.roots && fs.roots[r].Some? :: fs.roots[r].value <= BaselineOf(fs).maxMtime
  {
    forall p | p in Tracked(fs) && p in fs.files
      ensures fs.files[p].mtime <= BaselineOf(fs).maxMtime
    {
      assert fs.files[p].mtime in Times(fs);
    }
    forall r | r in fs.roots && fs.roots[r].Some?
      ensures fs.roots[r].value <= BaselineOf(fs).maxMtime
    {
      assert fs.roots[r].value in Times(fs);
    }
  }

  // A workspace that passes the check against the baseline of an earlier one shows a build the same files.
  lemma UnchangedMeansSame(a: Fs, c: Fs)
    requires Later(a, c) && !Changed(BaselineOf(a), c)
    ensures Seen(c) == Seen(a)
    ensures Tracked(c) == Tracked(a)
  {
    var b := BaselineOf(a);
    BaselineBounds(a);
    hide Latest;
    assert !FileChanged(b, c, AGENT_FILE);
    assert AGENT_FILE in Tracked(a);
    assert Tracked(c) == Tracked(a);
    forall p | p in Tracked(a)
      ensures p in c.files <==> p in a.files
      ensures p in c.files ==> c.files[p] == a.files[p]
    {
      assert !FileChanged(b, c, p);
    }
    SameFilesSeen(a, c);
    SameSkillsSeen(a, c);
  }

  // What a build reads is watched.
  lemma SameFilesSeen(a: Fs, c: Fs)
    requires AGENT_FILE in a.files <==> AGENT_FILE in c.files
    requires forall p | p in Tracked(a) :: ContentOf(a, p) == ContentOf(c, p)
    ensures Seen(c).(skills := map[]) == Seen(a).(skills := map[])
  {
    assert Tracked(a)[0] == AGENT_FILE && Tracked(a)[1] == "SOUL.md" && Tracked(a)[2] == "USER.md";
    assert Tracked(a)[|Tracked(a)| - 1] == "memory/MEMORY.md";
    if AGENT_FILE !in a.files {
      assert Tracked(a)[3] == "AGENTS.md" && Tracked(a)[4] == "IDENTITY.md";
    }
  }

  lemma SameSkillsSeen(a: Fs, c: Fs)
    requires Later(a, c) && !Changed(BaselineOf(a), c)
    ensures Seen(c).skills == Seen(a).skills
  {
    hide Latest;
    var b := BaselineOf(a);
    forall p
      ensures p in c.skills <==> p in a.skills
      ensures p in c.skills ==> c.skills[p] == a.skills[p]
    {
      if p in c.skills { assert p in b.skillFiles; }
      if p in a.skills { assert p in b.skillFiles; }
    }
  }

  // What `a` shows to a build, and its root directories, are still there in `b`, untouched.
  ghost predicate Intact(a: Fs, b: Fs) {
    var m := BaselineOf(a).maxMtime;
    && (forall p | p in Tracked(a) && p in a.files :: p in b.files && b.files[p].mtime <= m)
    && (forall p | p in a.skills :: p in b.skills && b.skills[p].mtime == a.skills[p].mtime)
    && (forall r | r in a.roots && r in b.roots && a.roots[r].Some? :: b.roots[r].Some? && b.roots[r].value <= m)
  }

  // What `b` has and `a` lacks, as far as the baseline of `a` looks at it.
  function NewFiles(a: Fs, b: Fs): set<string> {
    set p | p in Tracked(a) && p in b.files && p !in a.files
  }

  function NewSkills(a: Fs, b: Fs): set<string> {
    set p | p in b.skills && p !in a.skills
  }

  function NewRoots(a: Fs, b: Fs): set<string> {
    set r | r in b.roots && r in a.roots && a.roots[r].None?
  }

  function Cleared(roots: map<string, Option<nat>>, gone: set<string>): map<string, Option<nat>> {
    map r | r in roots :: if r in gone then None else roots[r]
  }

  function Without(fs: Fs, files: set<string>, skills: set<string>, roots: set<string>): Fs {
    fs.(files := fs.files - files,
        skills := fs.skills - skills,
        roots := Cleared(fs.roots, roots))
  }

  lemma {:induction false} ApplyAllAppend(fs: Fs, x: seq<FsOp>, y: seq<FsOp>)
    ensures ApplyAll(fs, x + y) == ApplyAll(ApplyAll(fs, x), y)
    decreases |x|
  {
    hide Apply;
    if x == [] {
      assert x + y == y;
    } else {
      assert (x + y)[1..] == x[1..] + y;
      ApplyAllAppend(Apply(fs, x[0]), x[1..], y);
    }
  }

  lemma {:induction false} FilesRemovable(fs: Fs, files: set<string>) returns (ops: seq<FsOp>)
    ensures ApplyAll(fs, ops) == fs.(files := fs.files - files)
    decreases |files|
  {
    if p :| p in files {
      var rest := FilesRemovable(Apply(fs, Delete(p)), files - {p});
      ops := [Delete(p)] + rest;
      assert fs.files - {p} - (files - {p}) == fs.files - files;
    } else {
      ops := [];
      assert fs.files - files == fs.files;
    }
  }

  lemma {:induction false} SkillsRemovable(fs: Fs, skills: set<string>) returns (ops: seq<FsOp>)
    ensures ApplyAll(fs, ops) == fs.(skills := fs.skills - skills)
    decreases |skills|
  {
    if p :| p in skills {
      var rest := SkillsRemovable(Apply(fs, DeleteSkill(p)), skills - {p});
      ops := [DeleteSkill(p)] + rest;
      assert fs.skills - {p} - (skills - {p}) == fs.skills - skills;
    } else {
      ops := [];
      assert fs.skills - skills == fs.skills;
    }
  }

  lemma {:induction false} RootsRemovable(fs: Fs, roots: set<string>) returns (ops: seq<FsOp>)
    ensures ApplyAll(fs, ops) == fs.(roots := Cleared(fs.roots, roots))
    decreases |roots|
  {
    if r :| r in roots {
      var rest := RootsRemovable(Apply(fs, RemoveRoot(r)), roots - {r});
      ops := [RemoveRoot(r)] + rest;
      assert Cleared(Apply(fs, RemoveRoot(r)).roots, roots - {r}) == Cleared(fs.roots, roots);
    } else {
      ops := [];
      assert Cleared(fs.roots, roots) == fs.roots;
    }
  }

  function WithoutNew(a: Fs, b: Fs): Fs {
    Without(b, NewFiles(a, b), NewSkills(a, b), NewRoots(a, b))
  }

  lemma FilesUnchanged(a: Fs, b: Fs)
    requires Later(a, b) && Intact(a, b)
    ensures forall p | p in Tracked(WithoutNew(a, b)) :: !FileChanged(BaselineOf(a), WithoutNew(a, b), p)
  {
    hide Latest, SkillsChanged, RootChanged, Later;
    var c := WithoutNew(a, b);
    assert AGENT_FILE in Tracked(a);
    assert AGENT_FILE in c.files <==> AGENT_FILE in a.files;
    assert Tracked(c) == Tracked(a);
    hide Tracked;
    forall p | p in Tracked(c)
      ensures !FileChanged(BaselineOf(a), c, p)
    {
      assert p in c.files <==> p in a.files;
    }
  }

  lemma RootsUnchanged(a: Fs, b: Fs)
    requires Later(a, b) && Intact(a, b)
    ensures forall r | r in WithoutNew(a, b).roots :: !RootChanged(BaselineOf(a), WithoutNew(a, b), r)
  {
    hide Latest, SkillsChanged, FileChanged, Tracked;
    var c := WithoutNew(a, b);
    assert forall r | r in c.roots :: r in a.roots && r in b.roots;
  }

  lemma SkillsUnchanged(a: Fs, b: Fs)
    requires Intact(a, b)
    ensures !SkillsChanged(BaselineOf(a), WithoutNew(a, b))
  {
    hide Latest, FileChanged, Tracked;
  }

  lemma WithoutNewIsUnchanged(a: Fs, b: Fs)
    requires Later(a, b) && Intact(a, b)
    ensures !Changed(BaselineOf(a), WithoutNew(a, b))
  {
    FilesUnchanged(a, b);
    RootsUnchanged(a, b);
    SkillsUnchanged(a, b);
    BaselineBounds(a);
    hide Intact, WithoutNew, BaselineOf, FileChanged, RootChanged, SkillsChanged, Tracked, Later;
  }

  // Deleting and writing again leaves a newer file, so what passes the check later was never touched in between.
  lemma UnchangedWasIntact(a: Fs, b: Fs, c: Fs)
    requires Later(a, b) && Later(b, c) && !Changed(BaselineOf(a), c)
    ensures Intact(a, b)
  {
    BaselineBounds(a);
    LaterTransitive(a, b, c);
    UnchangedMeansSame(a, c);
    FilesWereIntact(a, b, c);
    RootsWereIntact(a, b, c);
    SkillsWereIntact(a, b, c);
  }

  lemma FilesWereIntact(a: Fs, b: Fs, c: Fs)
    requires Later(a, b) && Later(b, c) && !Changed(BaselineOf(a), c) && Tracked(c) == Tracked(a)
    ensures forall p | p in Tracked(a) && p in a.files ::
              p in b.files && b.files[p].mtime <= BaselineOf(a).maxMtime
  {
    BaselineBounds(a);
    hide Latest, SkillsChanged, RootChanged, Tracked;
    forall p | p in Tracked(a) && p in a.files
      ensures p in b.files && b.files[p].mtime <= BaselineOf(a).maxMtime
    {
      assert !FileChanged(BaselineOf(a), c, p);
      assert p in c.files && c.files[p].mtime <= a.clock;
    }
  }

  lemma RootsWereIntact(a: Fs, b: Fs, c: Fs)
    requires Later(a, b) && Later(b, c) && !Changed(BaselineOf(a), c)
    ensures forall r | r in a.roots && r in b.roots && a.roots[r].Some? ::
              b.roots[r].Some? && b.roots[r].value <= BaselineOf(a).maxMtime
  {
    BaselineBounds(a);
    hide Latest, SkillsChanged, FileChanged, Tracked;
    forall r | r in a.roots && r in b.roots && a.roots[r].Some?
      ensures b.roots[r].Some? && b.roots[r].value <= BaselineOf(a).maxMtime
    {
      assert !RootChanged(BaselineOf(a), c, r);
      assert c.roots[r].Some? && c.roots[r].value <= a.clock;
    }
  }

  lemma SkillsWereIntact(a: Fs, b: Fs, c: Fs)
    requires Later(a, b) && Later(b, c) && !Changed(BaselineOf(a), c)
    ensures forall p | p in a.skills :: p in b.skills && b.skills[p].mtime == a.skills[p].mtime
  {
    hide Latest, RootChanged, FileChanged, Tracked;
    forall p | p in a.skills
      ensures p in b.skills && b.skills[p].mtime == a.skills[p].mtime
    {
      assert p in BaselineOf(a).skillFiles;
      assert p in c.skills && c.skills[p].mtime == a.skills[p].mtime;
      assert c.skills[p].mtime <= a.clock;
    }
  }

  // A prompt built from `b` is validated by the baseline of an earlier workspace `a`: so it is with a variant stored
  // while the cache is older, and with a build that a write overlaps. It can be served although it no longer shows
  // the workspace if and only if all that `a` had is intact in `b` and yet a build of `b` sees something else, that
  // is, files `a` did not have: deleting them again goes unnoticed.
  lemma StaleIff(a: Fs, b: Fs)
    requires Later(a, b)
    ensures (exists ops :: !Changed(BaselineOf(a), ApplyAll(b, ops)) && Seen(ApplyAll(b, ops)) != Seen(b))
            <==> Intact(a, b) && Seen(a) != Seen(b)
  {
    hide Intact, Changed, BaselineOf, Seen, Apply, Later, WithoutNew;
    if ops :| !Changed(BaselineOf(a), ApplyAll(b, ops)) && Seen(ApplyAll(b, ops)) != Seen(b) {
      var c := ApplyAll(b, ops);
      LaterTimed(a, b);
      ApplyAllLater(b, ops);
      LaterTransitive(a, b, c);
      UnchangedMeansSame(a, c);
      UnchangedWasIntact(a, b, c);
    }
    if Intact(a, b) && Seen(a) != Seen(b) {
      var ops := RemovalOf(a, b);
      var c := ApplyAll(b, ops);
      WithoutNewIsUnchanged(a, b);
      LaterTimed(a, b);
      ApplyAllLater(b, ops);
      LaterTransitive(a, b, c);
      UnchangedMeansSame(a, c);
    }
  }

  lemma RemovalOf(a: Fs, b: Fs) returns (ops: seq<FsOp>)
    ensures ApplyAll(b, ops) == WithoutNew(a, b)
  {
    hide Apply, ApplyAll, NewFiles, NewSkills, NewRoots, Cleared;
    var x := FilesRemovable(b, NewFiles(a, b));
    var y := SkillsRemovable(ApplyAll(b, x), NewSkills(a, b));
    var z := RootsRemovable(ApplyAll(ApplyAll(b, x), y), NewRoots(a, b));
    ApplyAllAppend(b, x, y);
    ApplyAllAppend(b, x + y, z);
    ops := x + y + z;
  }

  // ----- the cache

  // The shape of a non-default request; retrieved memory adds the floor it was retrieved for.
  datatype Key = Key(shape: string, floor: Option<string>)

  datatype Builder = Builder(standard: View -> string, variant: (Key, View) -> string)

  function BuildDefault(bd: Builder, fs: Fs): string {
    bd.standard(Seen(fs))
  }

  function BuildVariant(bd: Builder, key: Key, fs: Fs): string {
    bd.variant(key, Seen(fs))
  }

  datatype Cache = Cache(prompt: string, baseline: Baseline, variants: map<Key, string>)

  const EMPTY: Cache := Cache("", NO_BASELINE, map[])

  ghost function LookupDefault(bd: Builder, c: Cache, fs: Fs): (Cache, string) {
    if c.prompt != "" && !Changed(c.baseline, fs) then (c, c.prompt)
    else (Cache(BuildDefault(bd, fs), BaselineOf(fs), map[]), BuildDefault(bd, fs))
  }

  // A new floor retires the variants of the same shape with another one.
  predicate Retired(earlier: Key, key: Key) {
    key.floor.Some? && earlier != key && earlier.shape == key.shape && earlier.floor.Some?
  }

  function StoreVariant(variants: map<Key, string>, key: Key, prompt: string): map<Key, string> {
    (map k | k in variants && !Retired(k, key) :: variants[k])[key := prompt]
  }

  ghost function LookupVariant(bd: Builder, c: Cache, fs: Fs, key: Key): (Cache, string) {
    if !Changed(c.baseline, fs) && key in c.variants then (c, c.variants[key])
    else
      var prompt := BuildVariant(bd, key, fs);
      (Cache(c.prompt, if c.baseline.maxMtime == 0 then BaselineOf(fs) else c.baseline,
             StoreVariant(c.variants, key, prompt)),
       prompt)
  }

  // Root directories are watched as well: one that comes, goes, or is written to makes the cache build again.
  lemma RootsAreWatched(a: Fs, c: Fs, r: string)
    requires r in a.roots && r in c.roots
    requires || a.roots[r].Some? != c.roots[r].Some?
             || (c.roots[r].Some? && c.roots[r].value > BaselineOf(a).maxMtime)
    ensures Changed(BaselineOf(a), c)
  {
    hide Latest;
    assert RootChanged(BaselineOf(a), c, r);
  }

  // While nothing changed since it was built, the cached prompt is served whatever a build would give now.
  lemma ServedWhileUnchanged(bd: Builder, later: Builder, c: Cache, fs: Fs)
    requires Timed(fs)
    ensures var (c', prompt) := LookupDefault(bd, c, fs);
            prompt != "" ==> LookupDefault(later, c', fs) == (c', prompt)
  {
    hide Timed, BaselineOf, Changed;
    UnchangedItself(fs);
  }

  // The same for a variant, unless the files changed since the baseline of the cache.
  lemma VariantServedWhileUnchanged(bd: Builder, later: Builder, c: Cache, fs: Fs, key: Key)
    requires Timed(fs) && (c.baseline.maxMtime == 0 || !Changed(c.baseline, fs))
    ensures var (c', prompt) := LookupVariant(bd, c, fs, key);
            LookupVariant(later, c', fs, key) == (c', prompt)
  {
    hide Timed, BaselineOf, Changed;
    UnchangedItself(fs);
  }

  // After an invalidation nothing is served from the cache, even if no file changed.
  lemma InvalidatedIsRebuilt(bd: Builder, w: World, key: Key)
    ensures var c := Step(bd, w, Invalidate).cache;
            && LookupDefault(bd, c, w.fs).1 == BuildDefault(bd, w.fs)
            && LookupVariant(bd, c, w.fs, key).1 == BuildVariant(bd, key, w.fs)
  {
    hide BaselineOf;
  }

  // A variant with a new floor of retrieved memory takes the place of those of its shape with another floor.
  lemma StoredVariantsIff(variants: map<Key, string>, key: Key, prompt: string, k: Key)
    ensures k in StoreVariant(variants, key, prompt) <==>
              || k == key
              || (k in variants && !(key.floor.Some? && k.floor.Some? && k.shape == key.shape))
    ensures k != key && k in StoreVariant(variants, key, prompt) ==>
              StoreVariant(variants, key, prompt)[k] == variants[k]
  {
  }

  datatype Op = Disk(op: FsOp) | Default | Variant(key: Key) | Invalidate

  // `at` is the workspace the baseline was taken of, `built` the one each variant was built from.
  datatype World = World(fs: Fs, cache: Cache, at: Fs, built: map<Key, Fs>)

  ghost function Step(bd: Builder, w: World, op: Op): World {
    match op
    case Disk(d) => w.(fs := Apply(w.fs, d))
    case Default =>
      var c := LookupDefault(bd, w.cache, w.fs).0;
      if w.cache.prompt != "" && !Changed(w.cache.baseline, w.fs) then w else World(w.fs, c, w.fs, map[])
    case Variant(key) =>
      var c := LookupVariant(bd, w.cache, w.fs, key).0;
      if !Changed(w.cache.baseline, w.fs) && key in w.cache.variants then w
      else World(w.fs, c, if w.cache.baseline.maxMtime == 0 then w.fs else w.at, w.built[key := w.fs])
    case Invalidate => w.(cache := EMPTY)
  }

  ghost function Steps(bd: Builder, w: World, ops: seq<Op>): World
    decreases |ops|
  {
    if ops == [] then w else Steps(bd, Step(bd, w, ops[0]), ops[1..])
  }

  ghost predicate VariantAt(bd: Builder, w: World, k: Key) {
    k in w.cache.variants ==>
      && w.cache.baseline.maxMtime > 0
      && k in w.built
      && Later(w.at, w.built[k])
      && Later(w.built[k], w.fs)
      && w.cache.variants[k] == BuildVariant(bd, k, w.built[k])
  }

  ghost predicate Inv(bd: Builder, w: World) {
    && Timed(w.fs)
    && (w.cache.baseline.maxMtime == 0 ==> w.cache.prompt == "")
    && (w.cache.baseline.maxMtime > 0 ==> w.cache.baseline == BaselineOf(w.at) && Later(w.at, w.fs))
    && (w.cache.prompt != "" ==> w.cache.prompt == BuildDefault(bd, w.at))
    && (forall k :: VariantAt(bd, w, k))
  }

  lemma DiskKeepsInv(bd: Builder, w: World, op: FsOp)
    requires Inv(bd, w)
    ensures Inv(bd, Step(bd, w, Disk(op)))
  {
    hide BaselineOf, Later, Timed, Apply, BuildVariant, BuildDefault;
    var w' := Step(bd, w, Disk(op));
    ApplyLater(w.fs, op);
    LaterTimed(w.fs, w'.fs);
    if w.cache.baseline.maxMtime > 0 {
      LaterTransitive(w.at, w.fs, w'.fs);
    }
    forall k
      ensures VariantAt(bd, w', k)
    {
      assert VariantAt(bd, w, k);
      if k in w.cache.variants {
        LaterTransitive(w.built[k], w.fs, w'.fs);
      }
    }
  }

  lemma LookupKeepsInv(bd: Builder, w: World, op: Op)
    requires Inv(bd, w) && (op.Default? || op.Variant?)
    ensures Inv(bd, Step(bd, w, op))
  {
    hide BaselineOf, Later, Timed, Changed, BuildVariant, BuildDefault;
    var w' := Step(bd, w, op);
    Reflexive(w.fs);
    BaselineBounds(w.fs);
    forall k
      ensures VariantAt(bd, w', k)
    {
      assert VariantAt(bd, w, k);
    }
  }

  lemma Reflexive(fs: Fs)
    requires Timed(fs)
    ensures Later(fs, fs)
  {
  }

  lemma StepKeepsInv(bd: Builder, w: World, op: Op)
    requires Inv(bd, w)
    ensures Inv(bd, Step(bd, w, op))
  {
    match op
    case Disk(d) => DiskKeepsInv(bd, w, d);
    case Invalidate =>
    case _ => LookupKeepsInv(bd, w, op);
  }

  lemma {:induction false} RunKeepsInv(bd: Builder, w: World, ops: seq<Op>)
    requires Inv(bd, w)
    ensures Inv(bd, Steps(bd, w, ops))
    decreases |ops|
  {
    hide Inv, Step;
    if ops != [] {
      StepKeepsInv(bd, w, ops[0]);
      RunKeepsInv(bd, Step(bd, w, ops[0]), ops[1..]);
    }
  }

  // Over every run of writes with strictly increasing times, deletions and lookups, the default cache returns what
  // an uncached build of the present workspace returns.
  lemma DefaultCacheIsTransparent(bd: Builder, fs: Fs, ops: seq<Op>)
    requires Timed(fs)
    ensures var w := Steps(bd, World(fs, EMPTY, fs, map[]), ops);
            LookupDefault(bd, w.cache, w.fs).1 == BuildDefault(bd, w.fs)
  {
    var start := World(fs, EMPTY, fs, map[]);
    assert Inv(bd, start);
    RunKeepsInv(bd, start, ops);
    var w := Steps(bd, start, ops);
    hide Steps, Step, BaselineOf, Later;
    if w.cache.prompt != "" && !Changed(w.cache.baseline, w.fs) {
      UnchangedMeansSame(w.at, w.fs);
    }
  }

  // A variant is current as long as nothing a build sees had changed between the baseline and its own build.
  lemma VariantIsCurrentIf(bd: Builder, w: World, key: Key)
    requires Inv(bd, w)
    requires key in w.cache.variants && key in w.built ==> Seen(w.built[key]) == Seen(w.at)
    ensures LookupVariant(bd, w.cache, w.fs, key).1 == BuildVariant(bd, key, w.fs)
  {
    hide BaselineOf, Later, Timed, Changed, Seen;
    assert VariantAt(bd, w, key);
    if !Changed(w.cache.baseline, w.fs) && key in w.cache.variants {
      UnchangedMeansSame(w.at, w.fs);
    }
  }

  lemma StepsCons(bd: Builder, w: World, op: Op, rest: seq<Op>)
    ensures Steps(bd, w, [op] + rest) == Steps(bd, Step(bd, w, op), rest)
  {
    assert ([op] + rest)[1..] == rest;
  }

  lemma FourSteps(bd: Builder, w: World, a: Op, b: Op, c: Op, d: Op)
    ensures Steps(bd, w, [a, b, c, d]) == Step(bd, Step(bd, Step(bd, Step(bd, w, a), b), c), d)
  {
    hide Step;
    assert [a, b, c, d] == [a] + [b, c, d] && [b, c, d] == [b] + [c, d] && [c, d] == [c] + [d] && [d] == [d] + [];
    StepsCons(bd, w, a, [b, c, d]);
    StepsCons(bd, Step(bd, w, a), b, [c, d]);
    StepsCons(bd, Step(bd, Step(bd, w, a), b), c, [d]);
    StepsCons(bd, Step(bd, Step(bd, Step(bd, w, a), b), c), d, []);
  }

  // Deleting what was created since restores everything but the clock.
  lemma CreatedThenDeleted(fs: Fs, content: string)
    requires Timed(fs) && "USER.md" !in fs.files
    ensures var fs1 := Apply(fs, Write("USER.md", content, 0));
            && Changed(BaselineOf(fs), fs1)
            && !Changed(BaselineOf(fs), Apply(fs1, Delete("USER.md")))
            && Seen(Apply(fs1, Delete("USER.md"))) == Seen(fs)
  {
    var fs1 := Apply(fs, Write("USER.md", content, 0));
    var fs2 := Apply(fs1, Delete("USER.md"));
    CreationIsSeen(fs, fs1, "USER.md");
    assert fs2.files == fs.files;
    SameFilesSameAnswers(fs, fs2);
    UnchangedItself(fs);
  }

  lemma CreationIsSeen(fs: Fs, fs1: Fs, p: string)
    requires p !in fs.files && p in fs1.files && p in Tracked(fs1)
    ensures Changed(BaselineOf(fs), fs1)
  {
    hide Latest, Tracked;
    assert FileChanged(BaselineOf(fs), fs1, p);
  }

  lemma SameFilesSameAnswers(fs: Fs, fs2: Fs)
    requires fs2 == fs.(clock := fs2.clock)
    ensures Seen(fs2) == Seen(fs)
    ensures forall b :: Changed(b, fs2) == Changed(b, fs)
  {
    assert Tracked(fs2) == Tracked(fs);
    hide Tracked;
    forall b
      ensures Changed(b, fs2) == Changed(b, fs)
    {
      assert forall p :: FileChanged(b, fs2, p) == FileChanged(b, fs, p);
      assert forall r | r in fs.roots :: RootChanged(b, fs2, r) == RootChanged(b, fs, r);
      assert SkillsChanged(b, fs2) == SkillsChanged(b, fs);
    }
  }

  lemma UnchangedItself(fs: Fs)
    requires Timed(fs)
    ensures !Changed(BaselineOf(fs), fs)
  {
    BaselineBounds(fs);
    hide Latest, Tracked;
  }

  // A variant built while a file exists that the baseline does not know survives the deletion of that file.
  lemma VariantGoesStale(bd: Builder, fs: Fs, key: Key, content: string)
    requires Timed(fs) && "USER.md" !in fs.files
    requires BuildVariant(bd, key, Apply(fs, Write("USER.md", content, 0))) != BuildVariant(bd, key, fs)
    ensures var w := Steps(bd, World(fs, EMPTY, fs, map[]),
                           [Default, Disk(Write("USER.md", content, 0)), Variant(key), Disk(Delete("USER.md"))]);
            && Seen(w.fs) == Seen(fs)
            && LookupVariant(bd, w.cache, w.fs, key).1 != BuildVariant(bd, key, w.fs)
  {
    var write, delete := Write("USER.md", content, 0), Delete("USER.md");
    var w0 := World(fs, EMPTY, fs, map[]);
    FourSteps(bd, w0, Default, Disk(write), Variant(key), Disk(delete));
    CreatedThenDeleted(fs, content);
    BaselineBounds(fs);
    hide Steps, Apply, BaselineOf, Changed, Seen;
    var w1 := Step(bd, w0, Default);
    assert w1.cache.baseline == BaselineOf(fs) && w1.fs == fs;
    var w3 := Step(bd, Step(bd, w1, Disk(write)), Variant(key));
    assert w3.cache.baseline == BaselineOf(fs);
    assert w3.cache.variants[key] == BuildVariant(bd, key, Apply(fs, write));
  }

  // ----- the cache as the source keeps it

  function Stat(fs: Fs, p: string): Option<nat> {
    if p in fs.files then Some(fs.files[p].mtime) else None
  }

  lemma LatestIsUnique(m: nat, times: set<nat>)
    requires IsLatest(m, times)
    ensures m == Latest(times)
  {
  }

  lemma LatestAdds(m: nat, times: set<nat>, t: nat)
    requires IsLatest(m, times)
    ensures IsLatest(if t > m then t else m, times + {t})
  {
  }

  function ExistedAmong(fs: Fs, paths: seq<string>): map<string, bool> {
    map p | p in paths :: p in fs.files
  }

  function TimesAmong(fs: Fs, paths: seq<string>): set<nat> {
    set p | p in paths && p in fs.files :: fs.files[p].mtime
  }

  lemma AmongSnoc(fs: Fs, paths: seq<string>, p: string)
    ensures ExistedAmong(fs, paths + [p]) == ExistedAmong(fs, paths)[p := p in fs.files]
    ensures TimesAmong(fs, paths + [p]) ==
              TimesAmong(fs, paths) + (if p in fs.files then {fs.files[p].mtime} else {})
  {
    forall t | t in TimesAmong(fs, paths)
      ensures t in TimesAmong(fs, paths + [p])
    {
      var q :| q in paths && q in fs.files && fs.files[q].mtime == t;
      assert q in paths + [p];
    }
    if p in fs.files {
      assert p in paths + [p];
    }
  }

  method SnapshotFiles(fs: Fs) returns (m: nat, existed: map<string, bool>)
    ensures IsLatest(m, FileTimes(fs))
    ensures existed == map p | p in Tracked(fs) :: p in fs.files
  {
    hide IsLatest;
    var paths := Tracked(fs);
    ghost var seen: set<nat> := {};
    m, existed := 0, map[];
    LatestOfNothing();
    var k := 0;
    while k < |paths|
      invariant 0 <= k <= |paths|
      invariant existed == ExistedAmong(fs, paths[..k])
      invariant seen == TimesAmong(fs, paths[..k])
      invariant IsLatest(m, seen)
    {
      hide Tracked, ExistedAmong, TimesAmong;
      assert paths[..k + 1] == paths[..k] + [paths[k]];
      AmongSnoc(fs, paths[..k], paths[k]);
      var info := Stat(fs, paths[k]);
      existed := existed[paths[k] := info.Some?];
      if info.Some? {
        LatestAdds(m, seen, info.value);
        seen := seen + {info.value};
        if info.value > m {
          m := info.value;
        }
      }
      k := k + 1;
    }
    assert paths[..k] == paths;
  }

  method SnapshotRoots(fs: Fs) returns (m: nat, existed: map<string, bool>)
    ensures IsLatest(m, RootTimes(fs))
    ensures existed == map r | r in fs.roots :: fs.roots[r].Some?
  {
    hide IsLatest;
    var roots := fs.roots.Keys;
    ghost var seen: set<nat> := {};
    m, existed := 0, map[];
    LatestOfNothing();
    while roots != {}
      invariant roots <= fs.roots.Keys
      invariant existed == map r | r in fs.roots && r !in roots :: fs.roots[r].Some?
      invariant seen == set r | r in fs.roots && r !in roots && fs.roots[r].Some? :: fs.roots[r].value
      invariant IsLatest(m, seen)
      decreases |roots|
    {
      var r :| r in roots;
      var info := fs.roots[r];
      existed := existed[r := info.Some?];
      if info.Some? {
        LatestAdds(m, seen, info.value);
        seen := seen + {info.value};
        if info.value > m {
          m := info.value;
        }
      }
      roots := roots - {r};
    }
    assert seen == RootTimes(fs);
  }

  method SnapshotSkills(fs: Fs) returns (m: nat, skillFiles: map<string, nat>)
    ensures IsLatest(m, SkillTimes(fs))
    ensures skillFiles == map p | p in fs.skills :: fs.skills[p].mtime
  {
    hide IsLatest;
    var walked := fs.skills.Keys;
    ghost var seen: set<nat> := {};
    m, skillFiles := 0, map[];
    LatestOfNothing();
    while walked != {}
      invariant walked <= fs.skills.Keys
      invariant skillFiles == map p | p in fs.skills && p !in walked :: fs.skills[p].mtime
      invariant seen == set p | p in fs.skills && p !in walked :: fs.skills[p].mtime
      invariant IsLatest(m, seen)
      decreases |walked|
    {
      var p :| p in walked;
      var mtime := fs.skills[p].mtime;
      skillFiles := skillFiles[p := mtime];
      LatestAdds(m, seen, mtime);
      seen := seen + {mtime};
      if mtime > m {
        m := mtime;
      }
      walked := walked - {p};
    }
    assert seen == SkillTimes(fs);
  }

  lemma LatestOfNothing()
    ensures IsLatest(0, {})
  {
  }

  method BuildCacheBaseline(fs: Fs) returns (b: Baseline)
    ensures b == BaselineOf(fs)
  {
    var x, existed := SnapshotFiles(fs);
    var y, rootExisted := SnapshotRoots(fs);
    var z, skillFiles := SnapshotSkills(fs);
    var m := x;
    if y > m {
      m := y;
    }
    if z > m {
      m := z;
    }
    LatestIsUnique(m, Times(fs));
    if m == 0 {
      m := EPOCH;
    }
    b := Baseline(m, existed, rootExisted, skillFiles);
  }

  class ContextBuilder {
    var cachedSystemPrompt: string
    var cachedAt: nat
    var existedAtCache: map<string, bool>
    var rootsAtCache: map<string, bool>
    var skillFilesAtCache: map<string, nat>
    var cachedVariants: map<Key, string>

    ghost function State(): Cache
      reads this
    {
      Cache(cachedSystemPrompt, Baseline(cachedAt, existedAtCache, rootsAtCache, skillFilesAtCache), cachedVariants)
    }

    constructor ()
      ensures State() == EMPTY
    {
      cachedSystemPrompt, cachedAt := "", 0;
      existedAtCache, rootsAtCache, skillFilesAtCache, cachedVariants := map[], map[], map[], map[];
    }

    method InvalidateCache()
      modifies this
      ensures State() == EMPTY
    {
      cachedSystemPrompt, cachedAt := "", 0;
      existedAtCache, rootsAtCache, skillFilesAtCache, cachedVariants := map[], map[], map[], map[];
    }

    method FileChangedSince(fs: Fs, p: string) returns (changed: bool)
      ensures changed == FileChanged(State().baseline, fs, p)
    {
      var existedBefore := p in existedAtCache && existedAtCache[p];
      var info := Stat(fs, p);
      if existedBefore != info.Some? {
        return true;
      }
      if info.None? {
        return false;
      }
      changed := info.value > cachedAt;
    }

    method CachedSkillGone(fs: Fs) returns (gone: bool)
      ensures gone == exists p :: p in skillFilesAtCache && SkillDiffers(fs, skillFilesAtCache, p)
    {
      var cached := skillFilesAtCache.Keys;
      while cached != {}
        invariant cached <= skillFilesAtCache.Keys
        invariant forall p | p in skillFilesAtCache && p !in cached :: !SkillDiffers(fs, skillFilesAtCache, p)
        decreases |cached|
      {
        var p :| p in cached;
        if p !in fs.skills || fs.skills[p].mtime != skillFilesAtCache[p] {
          assert SkillDiffers(fs, skillFilesAtCache, p);
          return true;
        }
        cached := cached - {p};
      }
      gone := false;
    }

    method NewSkillWalked(fs: Fs) returns (found: bool)
      ensures found == exists p :: p in fs.skills && p !in skillFilesAtCache
    {
      var walked := fs.skills.Keys;
      while walked != {}
        invariant walked <= fs.skills.Keys
        invariant forall p | p in fs.skills && p !in walked :: p in skillFilesAtCache
        decreases |walked|
      {
        var p :| p in walked;
        if p !in skillFilesAtCache {
          return true;
        }
        walked := walked - {p};
      }
      found := false;
    }

    method SkillFilesChangedSince(fs: Fs) returns (changed: bool)
      ensures changed == SkillsChanged(State().baseline, fs)
    {
      changed := CachedSkillGone(fs);
      if !changed {
        changed := NewSkillWalked(fs);
      }
    }

    method SourceFilesChanged(fs: Fs) returns (changed: bool)
      ensures changed == Changed(State().baseline, fs)
    {
      hide FileChanged, SkillsChanged, Tracked;
      if cachedAt == 0 {
        return true;
      }
      var paths := Tracked(fs);
      var k := 0;
      while k < |paths|
        invariant 0 <= k <= |paths|
        invariant forall j | 0 <= j < k :: !FileChanged(State().baseline, fs, paths[j])
      {
        changed := FileChangedSince(fs, paths[k]);
        if changed {
          return;
        }
        k := k + 1;
      }
      var roots := fs.roots.Keys;
      while roots != {}
        invariant roots <= fs.roots.Keys
        invariant forall r | r in fs.roots && r !in roots :: !RootChanged(State().baseline, fs, r)
        decreases |roots|
      {
        var r :| r in roots;
        var existedBefore := r in rootsAtCache && rootsAtCache[r];
        var info := fs.roots[r];
        if existedBefore != info.Some? || (info.Some? && info.value > cachedAt) {
          assert RootChanged(State().baseline, fs, r);
          return true;
        }
        roots := roots - {r};
      }
      changed := SkillFilesChangedSince(fs);
    }

    method BuildSystemPromptWithCache(bd: Builder, fs: Fs) returns (prompt: string)
      modifies this
      ensures (State(), prompt) == LookupDefault(bd, old(State()), fs)
    {
      hide BaselineOf, Changed;
      var changed := SourceFilesChanged(fs);
      if cachedSystemPrompt != "" && !changed {
        return cachedSystemPrompt;
      }
      var baseline := BuildCacheBaseline(fs);
      prompt := BuildDefault(bd, fs);
      cachedSystemPrompt := prompt;
      TakeBaseline(baseline);
      cachedVariants := map[];
    }

    method TakeBaseline(b: Baseline)
      modifies this
      ensures State() == old(State()).(baseline := b)
    {
      cachedAt, existedAtCache, rootsAtCache, skillFilesAtCache := b.maxMtime, b.existed, b.rootExisted, b.skillFiles;
    }

    method CachedVariant(fs: Fs, key: Key) returns (entry: Option<string>)
      ensures entry == if !Changed(State().baseline, fs) && key in State().variants then Some(State().variants[key])
                       else None
    {
      hide Changed;
      var changed := SourceFilesChanged(fs);
      if changed || key !in cachedVariants {
        return None;
      }
      entry := Some(cachedVariants[key]);
    }

    method StoreCachedVariant(fs: Fs, key: Key, prompt: string)
      modifies this
      ensures var c := old(State());
              State() == Cache(c.prompt, if c.baseline.maxMtime == 0 then BaselineOf(fs) else c.baseline,
                               StoreVariant(c.variants, key, prompt))
    {
      hide BaselineOf;
      if cachedAt == 0 {
        var baseline := BuildCacheBaseline(fs);
        TakeBaseline(baseline);
      }
      if key.floor.Some? {
        cachedVariants := map k | k in cachedVariants && !Retired(k, key) :: cachedVariants[k];
      } else {
        assert (map k | k in cachedVariants && !Retired(k, key) :: cachedVariants[k]) == cachedVariants;
      }
      cachedVariants := cachedVariants[key := prompt];
    }

    method BuildSystemPromptForVariant(bd: Builder, fs: Fs, key: Key) returns (prompt: string)
      modifies this
      ensures (State(), prompt) == LookupVariant(bd, old(State()), fs, key)
    {
      hide BaselineOf, Changed, StoreVariant;
      var entry := CachedVariant(fs, key);
      if entry.Some? {
        return entry.value;
      }
      prompt := BuildVariant(bd, key, fs);
      StoreCachedVariant(fs, key, prompt);
    }
  }
}
