/**
  The copying and bookkeeping of the sync script: the output tree as an
  object updated in place, the structure-preserving sync with its plugin
  pass, the flat fallback, the attribution record and the category summary
  that `main` computes.

  Both sync functions are specified by one fold, RunJobs, over the list of
  skills they copy: each step writes the skill's files, then records its
  metadata, and an exception ends the run with what was written so far.
*/
module SkillSync {
  import opened FileTree
  import opened SkillDiscovery

  /** official/microsoft, relative to the output root. */
  const OfficialDir: Path := ["official", "microsoft"]

  /**
    The copies lines 105-107 make of the entries `names` of `from`, in
    order: each regular file other than SKILL.md lands in `dest` under its
    own name.
  */
  ghost function CopiedFiles(t: Tree, from: Path, dest: Path, names: seq<string>): map<Path, string>
    decreases |names|
  {
    if names == [] then map[]
    else
      var n := names[|names| - 1];
      var rest := CopiedFiles(t, from, dest, names[..|names| - 1]);
      if n != Marker && IsFile(t, from + [n]) then rest[dest + [n] := ReadFile(t, from + [n])] else rest
  }

  /** The copies are children of `dest`, each the same-named regular file of `from`, never SKILL.md. */
  lemma {:induction false} CopiedFilesShape(t: Tree, from: Path, dest: Path, names: seq<string>)
    ensures forall p | p in CopiedFiles(t, from, dest, names) ::
      |p| == |dest| + 1 && p[..|dest|] == dest && p[|dest|] != Marker && p[|dest|] in names
      && IsFile(t, from + [p[|dest|]]) && CopiedFiles(t, from, dest, names)[p] == ReadFile(t, from + [p[|dest|]])
    decreases |names|
  {
    if names != [] {
      var init := names[..|names| - 1];
      CopiedFilesShape(t, from, dest, init);
      var n := names[|names| - 1];
      assert (dest + [n])[..|dest|] == dest && (dest + [n])[|dest|] == n;
      forall m | m in init ensures m in names { }
    }
  }

  /** Every regular file among `names` other than SKILL.md is copied to `dest` under its own name. */
  lemma {:induction false} CopiedFilesComplete(t: Tree, from: Path, dest: Path, names: seq<string>)
    ensures forall n | n in names && n != Marker && IsFile(t, from + [n]) ::
      dest + [n] in CopiedFiles(t, from, dest, names)
      && CopiedFiles(t, from, dest, names)[dest + [n]] == ReadFile(t, from + [n])
    decreases |names|
  {
    if names != [] {
      var init := names[..|names| - 1];
      var last := names[|names| - 1];
      CopiedFilesComplete(t, from, dest, init);
      forall n | n in names && n != Marker && IsFile(t, from + [n])
        ensures dest + [n] in CopiedFiles(t, from, dest, names)
        ensures CopiedFiles(t, from, dest, names)[dest + [n]] == ReadFile(t, from + [n])
      {
        if n != last {
          assert names == init + [last];
          assert n in init;
          assert (dest + [n])[|dest|] != (dest + [last])[|dest|];
        }
      }
    }
  }

  /** Everything one skill copy writes: SKILL.md, then each other regular file directly inside `from`. */
  ghost function SkillFiles(t: Tree, from: Path, dest: Path): map<Path, string> {
    var marker := if IsFile(t, from + [Marker]) then map[dest + [Marker] := ReadFile(t, from + [Marker])] else map[];
    marker + CopiedFiles(t, from, dest, Entries(t, from))
  }

  /** A skill copy writes only direct children of `dest`, each a copy of the same-named file of `from`. */
  lemma SkillFilesShape(t: Tree, from: Path, dest: Path)
    ensures forall p | p in SkillFiles(t, from, dest) ::
      |p| == |dest| + 1 && p[..|dest|] == dest && IsFile(t, from + [p[|dest|]])
      && SkillFiles(t, from, dest)[p] == ReadFile(t, from + [p[|dest|]])
    ensures IsFile(t, from + [Marker]) ==> dest + [Marker] in SkillFiles(t, from, dest)
    ensures forall n | n in Entries(t, from) && IsFile(t, from + [n]) ::
      dest + [n] in SkillFiles(t, from, dest) && SkillFiles(t, from, dest)[dest + [n]] == ReadFile(t, from + [n])
  {
    CopiedFilesShape(t, from, dest, Entries(t, from));
    CopiedFilesComplete(t, from, dest, Entries(t, from));
    assert (dest + [Marker])[..|dest|] == dest && (dest + [Marker])[|dest|] == Marker;
  }

  lemma OverlayUpdate(a: map<Path, string>, b: map<Path, string>, k: Path, v: string)
    ensures (a + b)[k := v] == a + b[k := v]
  {
  }

  lemma OverlayAssoc(a: map<Path, string>, b: map<Path, string>, c: map<Path, string>)
    ensures (a + b) + c == a + (b + c)
  {
  }

  /** The output tree beneath the target directory. */
  class Target {
    /** Regular files by path relative to the output root; directories are implicit. */
    var files: map<Path, string>

    constructor (existing: map<Path, string>)
      ensures files == existing
    {
      files := existing;
    }

    /**
      Lines 101-107 (also 128-134 and 178-184): copy SKILL.md, then every
      other regular file directly inside `from`, into `dest`, overwriting.
      Copying a SKILL.md that is not a regular file raises before anything
      is written.
    */
    method CopySkill(t: Tree, from: Path, dest: Path) returns (ok: bool)
      modifies this
      ensures ok == IsFile(t, from + [Marker])
      ensures files == if ok then old(files) + SkillFiles(t, from, dest) else old(files)
    {
      if !IsFile(t, from + [Marker]) {
        return false;
      }
      var marker := ReadFile(t, from + [Marker]);
      files := files[dest + [Marker] := marker];
      assert files == old(files) + map[dest + [Marker] := marker];
      var names := Entries(t, from);
      var i := 0;
      while i < |names|
        invariant 0 <= i <= |names|
        invariant files == old(files) + map[dest + [Marker] := marker] + CopiedFiles(t, from, dest, names[..i])
      {
        var n := names[i];
        assert names[..i + 1][..i] == names[..i];
        if n != Marker && IsFile(t, from + [n]) {
          OverlayUpdate(old(files) + map[dest + [Marker] := marker], CopiedFiles(t, from, dest, names[..i]),
            dest + [n], ReadFile(t, from + [n]));
          files := files[dest + [n] := ReadFile(t, from + [n])];
        }
        i := i + 1;
      }
      assert names[..i] == names;
      OverlayAssoc(old(files), map[dest + [Marker] := marker], CopiedFiles(t, from, dest, names));
      ok := true;
    }
  }

  // ---------------------------------------------------------------------------
  // The fold that specifies a sync run

  /** One skill of a run: its content, its destination, its metadata (None where `relative_to` raises). */
  datatype Job = Job(from: Path, dest: Path, entry: Option<SkillEntry>)

  /** The exceptions that end a run: copying a SKILL.md that is a directory, or content outside the root. */
  datatype SyncError = MarkerNotAFile(skill: Path) | OutsideSource(skill: Path)

  /**
    How far a run got: how many leading jobs had their files written, the
    metadata collected, and the exception that ended the run, if any.
  */
  datatype RunState = RunState(written: nat, entries: seq<SkillEntry>, error: Option<SyncError>)

  /** One loop iteration: copy (which may raise), then record (which may raise after the copy). */
  function Step(t: Tree, s: RunState, j: Job): RunState {
    if s.error.Some? then s
    else if !IsFile(t, j.from + [Marker]) then RunState(s.written, s.entries, Some(MarkerNotAFile(j.from)))
    else
      match j.entry
      case None => RunState(s.written + 1, s.entries, Some(OutsideSource(j.from)))
      case Some(e) => RunState(s.written + 1, s.entries + [e], None)
  }

  /** The outcome of running `jobs` in order; a raise ends the run. */
  function RunJobs(t: Tree, jobs: seq<Job>): (r: RunState)
    ensures r.written <= |jobs| && |r.entries| <= r.written
    ensures r.error.None? ==> r.written == |jobs| == |r.entries|
    decreases |jobs|
  {
    if jobs == [] then RunState(0, [], None)
    else Step(t, RunJobs(t, jobs[..|jobs| - 1]), jobs[|jobs| - 1])
  }

  /** The output after writing the files of `jobs` in order over `files0`. */
  ghost function Written(t: Tree, files0: map<Path, string>, jobs: seq<Job>): map<Path, string>
    decreases |jobs|
  {
    if jobs == [] then files0
    else Written(t, files0, jobs[..|jobs| - 1]) + SkillFiles(t, jobs[|jobs| - 1].from, jobs[|jobs| - 1].dest)
  }

  /** The output after a run of `jobs` over `files0`: the files of the jobs it got to copy. */
  ghost function Performed(t: Tree, files0: map<Path, string>, jobs: seq<Job>): map<Path, string> {
    Written(t, files0, jobs[..RunJobs(t, jobs).written])
  }

  /** Lines 98-115 as jobs: placed at official/microsoft/<path under skills/>. */
  function StructuredJobs(root: Path, plan: seq<Placement>): (r: seq<Job>)
    ensures |r| == |plan|
  {
    seq(|plan|, i requires 0 <= i < |plan| =>
      Job(plan[i].from, OfficialDir + plan[i].rel, StructuredEntry(root, plan[i])))
  }

  /** Lines 124-141 as jobs: placed at official/microsoft/plugins/<name>. */
  function PluginJobs(root: Path, skills: seq<PluginSkill>): (r: seq<Job>)
    ensures |r| == |skills|
  {
    seq(|skills|, i requires 0 <= i < |skills| =>
      Job(skills[i].source, OfficialDir + ["plugins", skills[i].name], PluginEntry(root, skills[i])))
  }

  /** Lines 174-190 as jobs, in the dictionary's insertion order: placed at official/microsoft/<name>. */
  function FlatJobs(idx: SkillIndex): (r: seq<Job>)
    requires idx.Valid()
    ensures |r| == |idx.names|
  {
    seq(|idx.names|, i requires 0 <= i < |idx.names| =>
      Job(idx.dirs[idx.names[i]], OfficialDir + [idx.names[i]], Some(FlatEntry(idx.names[i]))))
  }

  lemma AllSkillsValid(t: Tree, root: Path, l: Listings)
    ensures AllSkills(t, root, l).Valid() && KeyedByName(AllSkills(t, root, l))
  {
    GithubStageSound(t, EmptyIndex, if Exists(t, GithubSkillsDir(root)) then l.githubSkills else []);
    var gh := if Exists(t, GithubSkillsDir(root)) then GithubStage(t, EmptyIndex, l.githubSkills) else EmptyIndex;
    PluginNamesKeyed(gh, l.pluginMarkers);
  }

  /** The flat fallback's jobs (lines 167-195). */
  function FallbackJobs(t: Tree, root: Path, l: Listings): seq<Job> {
    AllSkillsValid(t, root, l);
    FlatJobs(AllSkills(t, root, l))
  }

  /** The structured walk's jobs (lines 65-118). */
  function WalkJobs(t: Tree, root: Path, l: Listings): seq<Job> {
    StructuredJobs(root, StructuredPlan(t, root, l.skillsTree))
  }

  /** The plugin pass's skills, given the metadata the walk produced (lines 121, 148-165). */
  function PluginPass(t: Tree, root: Path, l: Listings, synced: seq<SkillEntry>): seq<PluginSkill> {
    if Exists(t, GithubPluginsDir(root)) then PluginCandidates(l.pluginMarkers, NamesOf(synced)) else []
  }

  /**
    The skills `sync_skills_preserve_structure` works through (lines 46-146):
    without skills/, the flat fallback's; otherwise the walk's and then, if
    the walk did not raise, the plugin pass's.
  */
  function SyncJobs(t: Tree, root: Path, l: Listings): seq<Job> {
    if !Exists(t, SkillsDir(root)) then FallbackJobs(t, root, l)
    else
      var walked := RunJobs(t, WalkJobs(t, root, l));
      if walked.error.Some? then WalkJobs(t, root, l)
      else WalkJobs(t, root, l) + PluginJobs(root, PluginPass(t, root, l, walked.entries))
  }

  /** The pair `(synced_count, skill_metadata)`, or the exception. */
  datatype SyncOutcome = Synced(count: nat, metadata: seq<SkillEntry>) | Failed(error: SyncError)

  function OutcomeOf(s: RunState): SyncOutcome {
    if s.error.Some? then Failed(s.error.value) else Synced(|s.entries|, s.entries)
  }

  // ---------------------------------------------------------------------------
  // Properties of the fold

  /** Once a run has raised, later jobs change nothing. */
  lemma {:induction false} RunJobsSticky(t: Tree, files0: map<Path, string>, a: seq<Job>, b: seq<Job>)
    requires RunJobs(t, a).error.Some?
    ensures RunJobs(t, a + b) == RunJobs(t, a)
    ensures Performed(t, files0, a + b) == Performed(t, files0, a)
    decreases |b|
  {
    if b != [] {
      assert (a + b)[..|a + b| - 1] == a + b[..|b| - 1];
      RunJobsSticky(t, files0, a, b[..|b| - 1]);
    } else {
      assert a + b == a;
    }
    var w := RunJobs(t, a).written;
    assert (a + b)[..w] == a[..w];
  }

  /** One more job is one more step of the fold. */
  lemma RunJobsStep(t: Tree, jobs: seq<Job>, j: Job)
    ensures RunJobs(t, jobs + [j]) == Step(t, RunJobs(t, jobs), j)
  {
    assert (jobs + [j])[..|jobs|] == jobs;
  }

  /** A job that raises, or comes after a raise, adds nothing to the output. */
  lemma PerformedSkip(t: Tree, files0: map<Path, string>, jobs: seq<Job>, j: Job)
    requires RunJobs(t, jobs).error.Some? || !IsFile(t, j.from + [Marker])
    ensures Performed(t, files0, jobs + [j]) == Performed(t, files0, jobs)
  {
    RunJobsStep(t, jobs, j);
    var w := RunJobs(t, jobs).written;
    assert (jobs + [j])[..w] == jobs[..w];
  }

  /** A job whose SKILL.md is a regular file adds its files to the output, whether or not it raises afterwards. */
  lemma PerformedCopy(t: Tree, files0: map<Path, string>, jobs: seq<Job>, j: Job)
    requires RunJobs(t, jobs).error.None? && IsFile(t, j.from + [Marker])
    ensures Performed(t, files0, jobs + [j]) == Performed(t, files0, jobs) + SkillFiles(t, j.from, j.dest)
  {
    RunJobsStep(t, jobs, j);
    assert (jobs + [j])[..|jobs| + 1] == jobs + [j];
    assert jobs[..|jobs|] == jobs;
    assert (jobs + [j])[..|jobs|] == jobs;
  }

  /** A run that did not raise recorded exactly one entry per job, in order, and copied each. */
  lemma {:induction false} RunJobsCompleted(t: Tree, jobs: seq<Job>)
    requires RunJobs(t, jobs).error.None?
    ensures forall i | 0 <= i < |jobs| ::
      jobs[i].entry.Some? && RunJobs(t, jobs).entries[i] == jobs[i].entry.value
      && IsFile(t, jobs[i].from + [Marker])
    decreases |jobs|
  {
    if jobs != [] {
      var init := jobs[..|jobs| - 1];
      RunJobsCompleted(t, init);
      forall i | 0 <= i < |init| ensures init[i] == jobs[i] { }
    }
  }

  /** Writing over existing files is an overlay of what writing over nothing gives. */
  lemma {:induction false} WrittenOverlay(t: Tree, files0: map<Path, string>, jobs: seq<Job>)
    ensures Written(t, files0, jobs) == files0 + Written(t, map[], jobs)
    decreases |jobs|
  {
    if jobs != [] {
      var init := jobs[..|jobs| - 1];
      WrittenOverlay(t, files0, init);
      OverlayAssoc(files0, Written(t, map[], init), SkillFiles(t, jobs[|jobs| - 1].from, jobs[|jobs| - 1].dest));
    }
  }

  /** Nothing is deleted, and files outside every job's destination keep their content. */
  lemma {:induction false} WrittenFrame(t: Tree, files0: map<Path, string>, jobs: seq<Job>)
    ensures files0.Keys <= Written(t, files0, jobs).Keys
    ensures forall p | p in files0 && (p == [] || forall i | 0 <= i < |jobs| :: jobs[i].dest != Parent(p)) ::
      Written(t, files0, jobs)[p] == files0[p]
    decreases |jobs|
  {
    if jobs != [] {
      var init := jobs[..|jobs| - 1];
      var j := jobs[|jobs| - 1];
      WrittenFrame(t, files0, init);
      SkillFilesShape(t, j.from, j.dest);
      forall i | 0 <= i < |init| ensures init[i] == jobs[i] { }
    }
  }

  /** Every file a run adds lies directly inside some job's destination. */
  lemma {:induction false} WrittenNew(t: Tree, files0: map<Path, string>, jobs: seq<Job>)
    ensures forall p | p in Written(t, files0, jobs) && p !in files0 ::
      p != [] && exists i | 0 <= i < |jobs| :: Parent(p) == jobs[i].dest
    decreases |jobs|
  {
    if jobs != [] {
      var init := jobs[..|jobs| - 1];
      var j := jobs[|jobs| - 1];
      WrittenNew(t, files0, init);
      SkillFilesShape(t, j.from, j.dest);
      forall p | p in Written(t, files0, jobs) && p !in files0
        ensures p != [] && exists i | 0 <= i < |jobs| :: Parent(p) == jobs[i].dest
      {
        if p in SkillFiles(t, j.from, j.dest) {
          assert Parent(p) == p[..|j.dest|] == jobs[|jobs| - 1].dest;
        } else {
          var i :| 0 <= i < |init| && Parent(p) == init[i].dest;
          assert Parent(p) == jobs[i].dest;
        }
      }
    }
  }

  /** After a run that did not raise, every job's destination holds a SKILL.md. */
  lemma {:induction false} PerformedPlacesMarkers(t: Tree, files0: map<Path, string>, jobs: seq<Job>)
    requires RunJobs(t, jobs).error.None?
    ensures forall i | 0 <= i < |jobs| :: jobs[i].dest + [Marker] in Performed(t, files0, jobs)
  {
    assert jobs[..|jobs|] == jobs;
    RunJobsCompleted(t, jobs);
    forall i | 0 <= i < |jobs| ensures jobs[i].dest + [Marker] in Written(t, files0, jobs) {
      WrittenKeeps(t, files0, jobs, i);
    }
  }

  lemma {:induction false} WrittenKeeps(t: Tree, files0: map<Path, string>, jobs: seq<Job>, i: nat)
    requires i < |jobs| && IsFile(t, jobs[i].from + [Marker])
    ensures jobs[i].dest + [Marker] in Written(t, files0, jobs)
    decreases |jobs|
  {
    var init := jobs[..|jobs| - 1];
    if i == |jobs| - 1 {
      SkillFilesShape(t, jobs[i].from, jobs[i].dest);
    } else {
      assert init[i] == jobs[i];
      WrittenKeeps(t, files0, init, i);
    }
  }

  /** Re-running the same jobs over their own output leaves it as it was. */
  lemma PerformedIdempotent(t: Tree, files0: map<Path, string>, jobs: seq<Job>)
    ensures Performed(t, Performed(t, files0, jobs), jobs) == Performed(t, files0, jobs)
  {
    var done := jobs[..RunJobs(t, jobs).written];
    var c := Written(t, map[], done);
    WrittenOverlay(t, files0, done);
    WrittenOverlay(t, files0 + c, done);
    assert (files0 + c) + c == files0 + c;
  }

  /** The output of the whole sync (Target.files afterwards). */
  ghost function SyncFiles(t: Tree, files0: map<Path, string>, root: Path, l: Listings): map<Path, string> {
    Performed(t, files0, SyncJobs(t, root, l))
  }

  /** Running the sync twice against an unchanged source gives the same files as running it once. */
  lemma SyncIdempotent(t: Tree, files0: map<Path, string>, root: Path, l: Listings)
    ensures SyncFiles(t, SyncFiles(t, files0, root, l), root, l) == SyncFiles(t, files0, root, l)
  {
    PerformedIdempotent(t, files0, SyncJobs(t, root, l));
  }

  /** The sync never deletes, and touches only files directly inside its destinations. */
  lemma SyncFrame(t: Tree, files0: map<Path, string>, root: Path, l: Listings)
    ensures var jobs := SyncJobs(t, root, l);
      var out := SyncFiles(t, files0, root, l);
      && files0.Keys <= out.Keys
      && (forall p | p in out && p !in files0 ::
            p != [] && exists i | 0 <= i < |jobs| :: Parent(p) == jobs[i].dest)
      && (forall p | p in files0 && (p == [] || forall i | 0 <= i < |jobs| :: jobs[i].dest != Parent(p)) ::
            out[p] == files0[p])
  {
    var jobs := SyncJobs(t, root, l);
    var done := jobs[..RunJobs(t, jobs).written];
    WrittenFrame(t, files0, done);
    WrittenNew(t, files0, done);
    forall p | p in SyncFiles(t, files0, root, l) && p !in files0
      ensures p != [] && exists i | 0 <= i < |jobs| :: Parent(p) == jobs[i].dest
    {
      var i :| 0 <= i < |done| && Parent(p) == done[i].dest;
      assert done[i] == jobs[i];
    }
    forall p | p in files0 && (p == [] || forall i | 0 <= i < |jobs| :: jobs[i].dest != Parent(p))
      ensures SyncFiles(t, files0, root, l)[p] == files0[p]
    {
      forall i | 0 <= i < |done| ensures done[i] == jobs[i] { }
    }
  }

  /** In structured mode the flat discovery of .github/skills plays no part in what is synced. */
  lemma StructuredIgnoresGithubSkills(t: Tree, root: Path, l: Listings, other: seq<Path>)
    requires Exists(t, SkillsDir(root))
    ensures SyncJobs(t, root, l.(githubSkills := other)) == SyncJobs(t, root, l)
  {
  }

  /** Running `a` then `b` is running `b` from where `a` left off, when `a` did not raise. */
  lemma {:induction false} RunJobsAppend(t: Tree, a: seq<Job>, b: seq<Job>)
    requires RunJobs(t, a).error.None?
    ensures var ra := RunJobs(t, a);
      var rb := RunJobs(t, b);
      RunJobs(t, a + b) == RunState(ra.written + rb.written, ra.entries + rb.entries, rb.error)
    decreases |b|
  {
    if b == [] {
      assert a + b == a;
    } else {
      var init := b[..|b| - 1];
      DropLast(a, b);
      assert RunJobs(t, a + b) == Step(t, RunJobs(t, a + init), b[|b| - 1]);
      RunJobsAppend(t, a, init);
      StepShift(t, RunJobs(t, a), RunJobs(t, init), b[|b| - 1]);
    }
  }

  /** Dropping the last element of `a + b` drops the last element of `b`. */
  lemma DropLast<T>(a: seq<T>, b: seq<T>)
    requires b != []
    ensures (a + b)[..|a + b| - 1] == a + b[..|b| - 1]
    ensures (a + b)[|a + b| - 1] == b[|b| - 1]
  {
  }

  /** A step after an error-free prefix `p` acts on the rest of the state alone. */
  lemma StepShift(t: Tree, p: RunState, s: RunState, j: Job)
    requires p.error.None?
    ensures var s' := Step(t, s, j);
      Step(t, RunState(p.written + s.written, p.entries + s.entries, s.error), j)
        == RunState(p.written + s'.written, p.entries + s'.entries, s'.error)
  {
    if s.error.None? && IsFile(t, j.from + [Marker]) && j.entry.Some? {
      assert (p.entries + s.entries) + [j.entry.value] == p.entries + (s.entries + [j.entry.value]);
    }
  }

  /** A completed walk recorded the name of every one of its placements. */
  lemma WalkNames(t: Tree, root: Path, items: seq<Path>)
    requires RunJobs(t, StructuredJobs(root, StructuredPlan(t, root, items))).error.None?
    ensures var plan := StructuredPlan(t, root, items);
      forall j | 0 <= j < |plan| :: plan[j].name in NamesOf(RunJobs(t, StructuredJobs(root, plan)).entries)
  {
    var plan := StructuredPlan(t, root, items);
    var md := RunJobs(t, StructuredJobs(root, plan)).entries;
    RunJobsCompleted(t, StructuredJobs(root, plan));
    forall j | 0 <= j < |plan| ensures plan[j].name in NamesOf(md) {
      assert md[j] in md;
    }
  }

  /** The plugin pass skips every name already synced. */
  lemma PluginPassFresh(t: Tree, root: Path, l: Listings, synced: seq<SkillEntry>)
    ensures forall i | 0 <= i < |PluginPass(t, root, l, synced)| :: PluginPass(t, root, l, synced)[i].name !in NamesOf(synced)
  {
    if Exists(t, GithubPluginsDir(root)) {
      PluginCandidatesFresh(l.pluginMarkers, NamesOf(synced));
    }
  }

  /**
    A structured run that did not raise records first one entry per walk
    placement, in walk order, then the plugin pass's entries; no plugin
    skill shares a name with a walk placement.
  */
  lemma StructuredOutcome(t: Tree, root: Path, l: Listings)
    requires Exists(t, SkillsDir(root))
    requires RunJobs(t, SyncJobs(t, root, l)).error.None?
    ensures var plan := StructuredPlan(t, root, l.skillsTree);
      var md := RunJobs(t, SyncJobs(t, root, l)).entries;
      var ps := PluginPass(t, root, l, md[..|plan|]);
      && |md| == |plan| + |ps|
      && (forall i | 0 <= i < |plan| :: Some(md[i]) == StructuredEntry(root, plan[i]))
      && (forall i, j | 0 <= i < |ps| && 0 <= j < |plan| :: ps[i].name != plan[j].name)
  {
    var plan := StructuredPlan(t, root, l.skillsTree);
    var walked := RunJobs(t, WalkJobs(t, root, l));
    var ps := PluginPass(t, root, l, walked.entries);
    StructuredSplit(t, root, l);
    var md := RunJobs(t, SyncJobs(t, root, l)).entries;
    WalkEntries(t, root, plan);
    PluginEntries(t, root, ps);
    EntriesSplit(root, md, walked.entries, RunJobs(t, PluginJobs(root, ps)).entries, plan, ps);
    WalkNames(t, root, l.skillsTree);
    PluginPassFresh(t, root, l, walked.entries);
  }

  /** A structured run that did not raise leaves SKILL.md at official/microsoft/<rel> for every walk placement. */
  lemma StructuredWalkFiles(t: Tree, files0: map<Path, string>, root: Path, l: Listings)
    requires Exists(t, SkillsDir(root))
    requires RunJobs(t, SyncJobs(t, root, l)).error.None?
    ensures var plan := StructuredPlan(t, root, l.skillsTree);
      forall i | 0 <= i < |plan| :: OfficialDir + plan[i].rel + [Marker] in SyncFiles(t, files0, root, l)
  {
    var plan := StructuredPlan(t, root, l.skillsTree);
    var jobs := SyncJobs(t, root, l);
    StructuredSplit(t, root, l);
    PerformedPlacesMarkers(t, files0, jobs);
    forall i | 0 <= i < |plan| ensures OfficialDir + plan[i].rel + [Marker] in SyncFiles(t, files0, root, l) {
      assert jobs[i] == WalkJobs(t, root, l)[i];
    }
  }

  /**
    A structured run that did not raise leaves SKILL.md at
    official/microsoft/plugins/<name> for every skill of the plugin pass.
  */
  lemma StructuredPluginFiles(t: Tree, files0: map<Path, string>, root: Path, l: Listings)
    requires Exists(t, SkillsDir(root))
    requires RunJobs(t, SyncJobs(t, root, l)).error.None?
    ensures var plan := StructuredPlan(t, root, l.skillsTree);
      var md := RunJobs(t, SyncJobs(t, root, l)).entries;
      var ps := PluginPass(t, root, l, md[..|plan|]);
      forall i | 0 <= i < |ps| :: OfficialDir + ["plugins", ps[i].name, Marker] in SyncFiles(t, files0, root, l)
  {
    var plan := StructuredPlan(t, root, l.skillsTree);
    var wj := WalkJobs(t, root, l);
    StructuredSplit(t, root, l);
    WalkEntries(t, root, plan);
    var walked := RunJobs(t, wj).entries;
    assert RunJobs(t, SyncJobs(t, root, l)).entries[..|plan|] == walked;
    var ps := PluginPass(t, root, l, walked);
    SuffixMarkers(t, files0, wj, PluginJobs(root, ps));
    PluginMarkers(t, files0, root, wj, ps);
  }

  /** After a run of `a + b` that did not raise, every destination of `b` holds SKILL.md. */
  lemma SuffixMarkers(t: Tree, files0: map<Path, string>, a: seq<Job>, b: seq<Job>)
    requires RunJobs(t, a + b).error.None?
    ensures forall i | 0 <= i < |b| :: b[i].dest + [Marker] in Performed(t, files0, a + b)
  {
    PerformedPlacesMarkers(t, files0, a + b);
    forall i | 0 <= i < |b| ensures b[i].dest + [Marker] in Performed(t, files0, a + b) {
      assert (a + b)[|a| + i] == b[i];
    }
  }

  /** The plugin jobs' SKILL.md paths are official/microsoft/plugins/<name>/SKILL.md. */
  lemma PluginMarkers(t: Tree, files0: map<Path, string>, root: Path, a: seq<Job>, ps: seq<PluginSkill>)
    requires forall i | 0 <= i < |ps| :: PluginJobs(root, ps)[i].dest + [Marker] in Performed(t, files0, a + PluginJobs(root, ps))
    ensures forall i | 0 <= i < |ps| :: OfficialDir + ["plugins", ps[i].name, Marker] in Performed(t, files0, a + PluginJobs(root, ps))
  {
    forall i | 0 <= i < |ps| ensures OfficialDir + ["plugins", ps[i].name, Marker] in Performed(t, files0, a + PluginJobs(root, ps)) {
      assert PluginJobs(root, ps)[i].dest + [Marker] == OfficialDir + ["plugins", ps[i].name, Marker];
    }
  }

  /** A completed walk recorded one entry per placement, in order. */
  lemma WalkEntries(t: Tree, root: Path, plan: seq<Placement>)
    requires RunJobs(t, StructuredJobs(root, plan)).error.None?
    ensures |RunJobs(t, StructuredJobs(root, plan)).entries| == |plan|
    ensures forall i | 0 <= i < |plan| :: Some(RunJobs(t, StructuredJobs(root, plan)).entries[i]) == StructuredEntry(root, plan[i])
  {
    RunJobsCompleted(t, StructuredJobs(root, plan));
  }

  /** A completed plugin pass recorded one entry per plugin skill, in order. */
  lemma PluginEntries(t: Tree, root: Path, ps: seq<PluginSkill>)
    requires RunJobs(t, PluginJobs(root, ps)).error.None?
    ensures |RunJobs(t, PluginJobs(root, ps)).entries| == |ps|
    ensures forall i | 0 <= i < |ps| :: Some(RunJobs(t, PluginJobs(root, ps)).entries[i]) == PluginEntry(root, ps[i])
  {
    RunJobsCompleted(t, PluginJobs(root, ps));
  }

  /** The positions of a walk's entries followed by a plugin pass's. */
  lemma EntriesSplit(root: Path, md: seq<SkillEntry>, we: seq<SkillEntry>, pe: seq<SkillEntry>,
                     plan: seq<Placement>, ps: seq<PluginSkill>)
    requires md == we + pe && |we| == |plan| && |pe| == |ps|
    requires forall i | 0 <= i < |plan| :: Some(we[i]) == StructuredEntry(root, plan[i])
    requires forall i | 0 <= i < |ps| :: Some(pe[i]) == PluginEntry(root, ps[i])
    ensures md[..|plan|] == we && |md| == |plan| + |ps|
    ensures forall i | 0 <= i < |plan| :: Some(md[i]) == StructuredEntry(root, plan[i])
    ensures forall i | 0 <= i < |ps| :: Some(md[|plan| + i]) == PluginEntry(root, ps[i])
  {
    forall i | 0 <= i < |ps| ensures Some(md[|plan| + i]) == PluginEntry(root, ps[i]) {
      assert md[|plan| + i] == pe[i];
    }
  }

  /** A structured run that did not raise is a completed walk followed by a completed plugin pass. */
  lemma StructuredSplit(t: Tree, root: Path, l: Listings)
    requires Exists(t, SkillsDir(root))
    requires RunJobs(t, SyncJobs(t, root, l)).error.None?
    ensures RunJobs(t, WalkJobs(t, root, l)).error.None?
    ensures var walked := RunJobs(t, WalkJobs(t, root, l));
      var pj := PluginJobs(root, PluginPass(t, root, l, walked.entries));
      && SyncJobs(t, root, l) == WalkJobs(t, root, l) + pj
      && RunJobs(t, pj).error.None?
      && RunJobs(t, SyncJobs(t, root, l)).entries == walked.entries + RunJobs(t, pj).entries
  {
    var wj := WalkJobs(t, root, l);
    assert RunJobs(t, wj).error.None?;
    var pj := PluginJobs(root, PluginPass(t, root, l, RunJobs(t, wj).entries));
    assert SyncJobs(t, root, l) == wj + pj;
    RunJobsAppend(t, wj, pj);
  }

  /**
    Without skills/, a run that did not raise places each dictionary entry
    once, at official/microsoft/<name>, with category "root" and no source.
  */
  lemma FlatOutcome(t: Tree, files0: map<Path, string>, root: Path, l: Listings)
    requires !Exists(t, SkillsDir(root))
    requires RunJobs(t, SyncJobs(t, root, l)).error.None?
    ensures var idx := AllSkills(t, root, l);
      var md := RunJobs(t, SyncJobs(t, root, l)).entries;
      && |md| == |idx.names|
      && (forall i | 0 <= i < |idx.names| ::
            md[i] == SkillEntry(idx.names[i], idx.names[i], "root", None)
            && OfficialDir + [idx.names[i], Marker] in SyncFiles(t, files0, root, l))
  {
    AllSkillsValid(t, root, l);
    var jobs := FlatJobs(AllSkills(t, root, l));
    assert SyncJobs(t, root, l) == jobs;
    RunJobsCompleted(t, jobs);
    PerformedPlacesMarkers(t, files0, jobs);
    forall i | 0 <= i < |jobs|
      ensures OfficialDir + [AllSkills(t, root, l).names[i], Marker] == jobs[i].dest + [Marker]
    { }
  }

  // ---------------------------------------------------------------------------
  // The sync functions, on the output object

  /** Lines 46-146, `sync_skills_preserve_structure`, with the fallback of lines 53-55. */
  method SyncPreserveStructure(target: Target, t: Tree, root: Path, l: Listings) returns (outcome: SyncOutcome)
    modifies target
    ensures target.files == SyncFiles(t, old(target.files), root, l)
    ensures outcome == OutcomeOf(RunJobs(t, SyncJobs(t, root, l)))
  {
    if !Exists(t, SkillsDir(root)) {
      outcome := SyncFlat(target, t, root, l);
      assert SyncJobs(t, root, l) == FallbackJobs(t, root, l);
      return;
    }
    ghost var files0 := target.files;
    ghost var wj := WalkJobs(t, root, l);
    var count, metadata, failure := SyncWalk(target, t, root, l.skillsTree);
    if failure.Some? {
      assert SyncJobs(t, root, l) == wj;
      return Failed(failure.value);
    }
    var pluginSkills := FindPluginSkills(t, root, l, metadata);
    assert SyncJobs(t, root, l) == wj + PluginJobs(root, pluginSkills);
    count, metadata, failure := SyncPlugins(target, t, root, pluginSkills, count, metadata, files0, wj);
    if failure.Some? {
      return Failed(failure.value);
    }
    outcome := Synced(count, metadata);
  }

  /** Lines 61-118: the walk over skills/, copying and recording each skill it meets. */
  method SyncWalk(target: Target, t: Tree, root: Path, items: seq<Path>)
    returns (count: nat, metadata: seq<SkillEntry>, failure: Option<SyncError>)
    modifies target
    ensures var jobs := StructuredJobs(root, StructuredPlan(t, root, items));
      && target.files == Performed(t, old(target.files), jobs)
      && metadata == RunJobs(t, jobs).entries && failure == RunJobs(t, jobs).error
      && count == |metadata|
  {
    ghost var files0 := target.files;
    count := 0;
    metadata := [];
    failure := None;
    var i := 0;
    ghost var done: seq<Job> := [];
    assert items[..0] == [];
    while i < |items| && failure.None?
      invariant 0 <= i <= |items|
      invariant done == StructuredJobs(root, StructuredPlan(t, root, items[..i]))
      invariant target.files == Performed(t, files0, done)
      invariant metadata == RunJobs(t, done).entries && failure == RunJobs(t, done).error
      invariant count == |metadata|
    {
      WalkJobsStep(t, root, items, i);
      count, metadata, failure := WalkItem(target, t, root, items[i], count, metadata, files0, done);
      done := done + PlacementJobs(root, WalkPlacement(t, root, items[i]));
      i := i + 1;
    }
    WalkPrefix(t, files0, root, items, i);
  }

  /**
    One iteration of the three copy loops: copy the skill's files (lines
    101-107, 128-134, 178-184), then append its metadata, where computing
    it may raise after the copy (lines 110-117, 136-143, 186-192).
  */
  method CopyAndRecord(target: Target, t: Tree, from: Path, dest: Path, entry: Option<SkillEntry>,
                       count0: nat, metadata0: seq<SkillEntry>, ghost files0: map<Path, string>, ghost done: seq<Job>)
    returns (count: nat, metadata: seq<SkillEntry>, failure: Option<SyncError>)
    requires RunJobs(t, done).error.None? && RunJobs(t, done).entries == metadata0 && count0 == |metadata0|
    requires target.files == Performed(t, files0, done)
    modifies target
    ensures var after := RunJobs(t, done + [Job(from, dest, entry)]);
      && target.files == Performed(t, files0, done + [Job(from, dest, entry)])
      && metadata == after.entries && failure == after.error && count == |metadata|
  {
    ghost var job := Job(from, dest, entry);
    RunJobsStep(t, done, job);
    count, metadata, failure := count0, metadata0, None;
    var ok := target.CopySkill(t, from, dest);
    if !ok {
      PerformedSkip(t, files0, done, job);
      failure := Some(MarkerNotAFile(from));
      return;
    }
    PerformedCopy(t, files0, done, job);
    match entry {
      case None =>
        failure := Some(OutsideSource(from));
      case Some(e) =>
        metadata := metadata + [e];
        count := count + 1;
    }
  }

  /** Lines 65-118 for one entry of the walk: skip it, or copy and record the skill it holds. */
  method WalkItem(target: Target, t: Tree, root: Path, item: Path,
                  count0: nat, metadata0: seq<SkillEntry>, ghost files0: map<Path, string>, ghost done: seq<Job>)
    returns (count: nat, metadata: seq<SkillEntry>, failure: Option<SyncError>)
    requires RunJobs(t, done).error.None? && RunJobs(t, done).entries == metadata0 && count0 == |metadata0|
    requires target.files == Performed(t, files0, done)
    modifies target
    ensures var jobs := done + PlacementJobs(root, WalkPlacement(t, root, item));
      && target.files == Performed(t, files0, jobs)
      && metadata == RunJobs(t, jobs).entries && failure == RunJobs(t, jobs).error
      && count == |metadata|
  {
    count, metadata, failure := count0, metadata0, None;
    match SkillSource(t, item) {
      case None =>
        assert done + PlacementJobs(root, WalkPlacement(t, root, item)) == done;
      case Some(from) =>
        match RelativeTo(item, SkillsDir(root)) {
          case None =>
            assert done + PlacementJobs(root, WalkPlacement(t, root, item)) == done;
          case Some(rel) =>
            count, metadata, failure := CopyAndRecord(target, t, from, OfficialDir + rel,
              StructuredEntry(root, Placement(rel, Name(item), from)), count, metadata, files0, done);
        }
    }
  }

  /** Lines 120-144: the plugin pass, continuing the walk's count and metadata. */
  method SyncPlugins(target: Target, t: Tree, root: Path, pluginSkills: seq<PluginSkill>,
                      count0: nat, metadata0: seq<SkillEntry>, ghost files0: map<Path, string>, ghost wj: seq<Job>)
    returns (count: nat, metadata: seq<SkillEntry>, failure: Option<SyncError>)
    requires RunJobs(t, wj).error.None? && RunJobs(t, wj).entries == metadata0 && count0 == |metadata0|
    requires target.files == Performed(t, files0, wj)
    modifies target
    ensures var jobs := wj + PluginJobs(root, pluginSkills);
      && target.files == Performed(t, files0, jobs)
      && metadata == RunJobs(t, jobs).entries && failure == RunJobs(t, jobs).error
      && count == |metadata|
  {
    ghost var pj := PluginJobs(root, pluginSkills);
    ghost var done := wj;
    count, metadata, failure := count0, metadata0, None;
    var k := 0;
    AppendSlice(wj, pj, 0);
    while k < |pluginSkills| && failure.None?
      invariant 0 <= k <= |pluginSkills|
      invariant done == wj + pj[..k]
      invariant target.files == Performed(t, files0, done)
      invariant metadata == RunJobs(t, done).entries && failure == RunJobs(t, done).error
      invariant count == |metadata|
    {
      var skill := pluginSkills[k];
      AppendSlice(wj, pj, k + 1);
      assert pj[k] == Job(skill.source, OfficialDir + ["plugins", skill.name], PluginEntry(root, skill));
      count, metadata, failure := CopyAndRecord(target, t, skill.source, OfficialDir + ["plugins", skill.name],
        PluginEntry(root, skill), count, metadata, files0, done);
      done := done + [pj[k]];
      k := k + 1;
    }
    if failure.Some? {
      RunJobsSticky(t, files0, done, pj[k..]);
    }
    AppendSlice(wj, pj, k);
  }

  /** A sequence is its prefix followed by the rest. */
  lemma SplitAt<T>(s: seq<T>, k: nat)
    requires k <= |s|
    ensures s[..k] + s[k..] == s
  {
  }

  lemma SliceExtend<T>(s: seq<T>, k: nat)
    requires k < |s|
    ensures s[..k + 1] == s[..k] + [s[k]]
  {
  }

  /** Growing a slice of `b` after `a` by one element, and reassembling it. */
  lemma AppendSlice<T>(a: seq<T>, b: seq<T>, k: nat)
    requires k <= |b|
    ensures k > 0 ==> a + b[..k] == (a + b[..k - 1]) + [b[k - 1]]
    ensures (a + b[..k]) + b[k..] == a + b
    ensures k == |b| ==> a + b[..k] == a + b
    ensures k == 0 ==> a + b[..k] == a
  {
    if k > 0 {
      assert b[..k] == b[..k - 1] + [b[k - 1]];
    }
    assert b[..k] + b[k..] == b;
  }

  /** The job a walk entry contributes: none, or the one of its placement. */
  function PlacementJobs(root: Path, p: Option<Placement>): (r: seq<Job>)
    ensures |r| <= 1
  {
    match p
    case None => []
    case Some(q) => [Job(q.from, OfficialDir + q.rel, StructuredEntry(root, q))]
  }

  /** One more walk entry adds the job of its placement, if it yields one. */
  lemma WalkJobsStep(t: Tree, root: Path, items: seq<Path>, i: nat)
    requires i < |items|
    ensures StructuredJobs(root, StructuredPlan(t, root, items[..i + 1])) ==
      StructuredJobs(root, StructuredPlan(t, root, items[..i])) + PlacementJobs(root, WalkPlacement(t, root, items[i]))
  {
    assert items[..i + 1][..i] == items[..i];
  }

  /** The walk's jobs for a prefix of the listing are a prefix of its jobs, so a raise there, or the end of the listing, ends it. */
  lemma WalkPrefix(t: Tree, files0: map<Path, string>, root: Path, items: seq<Path>, i: nat)
    requires i <= |items|
    requires i == |items| || RunJobs(t, StructuredJobs(root, StructuredPlan(t, root, items[..i]))).error.Some?
    ensures var whole := StructuredJobs(root, StructuredPlan(t, root, items));
      var part := StructuredJobs(root, StructuredPlan(t, root, items[..i]));
      RunJobs(t, whole) == RunJobs(t, part) && Performed(t, files0, whole) == Performed(t, files0, part)
  {
    if i == |items| {
      assert items[..i] == items;
      return;
    }
    var a := StructuredPlan(t, root, items[..i]);
    var full := StructuredPlan(t, root, items);
    PlanPrefix(t, root, items, i);
    var b := full[|a|..];
    assert full == a + b;
    assert StructuredJobs(root, full) == StructuredJobs(root, a) + StructuredJobs(root, b);
    RunJobsSticky(t, files0, StructuredJobs(root, a), StructuredJobs(root, b));
  }

  lemma {:induction false} PlanPrefix(t: Tree, root: Path, items: seq<Path>, i: nat)
    requires i <= |items|
    ensures StructuredPlan(t, root, items[..i]) <= StructuredPlan(t, root, items)
    decreases |items| - i
  {
    if i < |items| {
      PlanPrefix(t, root, items, i + 1);
      assert items[..i + 1][..i] == items[..i];
    } else {
      assert items[..i] == items;
    }
  }

  /** Lines 167-195, `sync_skills_flat`. */
  method SyncFlat(target: Target, t: Tree, root: Path, l: Listings) returns (outcome: SyncOutcome)
    modifies target
    ensures target.files == Performed(t, old(target.files), FallbackJobs(t, root, l))
    ensures outcome == OutcomeOf(RunJobs(t, FallbackJobs(t, root, l)))
  {
    ghost var files0 := target.files;
    var all := FindAllSkills(t, root, l);
    ghost var jobs := FlatJobs(all);
    var count := 0;
    var metadata: seq<SkillEntry> := [];
    var failure: Option<SyncError> := None;
    var i := 0;
    ghost var done: seq<Job> := [];
    assert jobs[..0] == [];
    while i < |all.names| && failure.None?
      invariant 0 <= i <= |all.names|
      invariant done == jobs[..i]
      invariant target.files == Performed(t, files0, done)
      invariant metadata == RunJobs(t, done).entries && failure == RunJobs(t, done).error
      invariant count == |metadata|
    {
      var name := all.names[i];
      SliceExtend(jobs, i);
      assert jobs[i] == Job(all.dirs[name], OfficialDir + [name], Some(FlatEntry(name)));
      count, metadata, failure := CopyAndRecord(target, t, all.dirs[name], OfficialDir + [name],
        Some(FlatEntry(name)), count, metadata, files0, done);
      done := done + [jobs[i]];
      i := i + 1;
    }
    if failure.Some? {
      RunJobsSticky(t, files0, done, jobs[i..]);
      SplitAt(jobs, i);
      return Failed(failure.value);
    }
    assert done == jobs;
    outcome := Synced(count, metadata);
  }

  // ---------------------------------------------------------------------------
  // The attribution record and main

  /** The record `create_attribution_file` writes (lines 199-206). */
  datatype Attribution = Attribution(
    source: string, repository: string, license: string,
    syncedSkills: nat, skills: seq<SkillEntry>, note: string)

  function CreateAttribution(metadata: seq<SkillEntry>): (a: Attribution)
    ensures a.syncedSkills == |a.skills| && a.skills == metadata
    ensures a.source == "microsoft/skills" && a.license == "MIT"
  {
    Attribution(
      "microsoft/skills", "https://github.com/microsoft/skills", "MIT", |metadata|, metadata,
      "Symlinks resolved and content copied for compatibility. Original directory structure preserved.")
  }

  /** `cat.split('/')[0] if '/' in cat else cat`: the text before the first "/". */
  function FirstSegment(s: string): (r: string)
    ensures r <= s && '/' !in r
    ensures |r| < |s| ==> s[|r|] == '/'
  {
    if s == [] then []
    else if s[0] == '/' then []
    else [s[0]] + FirstSegment(s[1..])
  }

  /** The categories of the summary (lines 257-261). */
  function CategorySet(metadata: seq<SkillEntry>): set<string> {
    set e | e in metadata && e.category != "root" :: FirstSegment(e.category)
  }

  /** Lines 257-261: collect the first segment of every category other than "root". */
  method Summary(metadata: seq<SkillEntry>) returns (categories: set<string>)
    ensures categories == CategorySet(metadata)
    ensures forall c | c in categories :: '/' !in c
  {
    categories := {};
    var i := 0;
    while i < |metadata|
      invariant 0 <= i <= |metadata|
      invariant categories == CategorySet(metadata[..i])
    {
      var cat := metadata[i].category;
      assert metadata[..i + 1] == metadata[..i] + [metadata[i]];
      if cat != "root" {
        categories := categories + {FirstSegment(cat)};
      }
      i := i + 1;
    }
    assert metadata[..i] == metadata;
  }

  /** The first segment of a joined path is its first segment, when that holds no "/". */
  lemma FirstSegmentOfJoin(segs: seq<string>)
    requires segs != [] && '/' !in segs[0]
    ensures FirstSegment(Join(segs)) == segs[0]
  {
    assert segs[0] <= Join(segs);
    if |segs| > 1 {
      assert Join(segs)[|segs[0]|] == '/';
    }
  }

  /**
    The summary category of a walk placement: the top segment of its path
    under skills/ for a nested skill, "." for a skill directly in skills/;
    and a skill directly in skills/root/ has category "root", which the
    summary skips.
  */
  lemma StructuredCategory(root: Path, p: Placement)
    requires root <= p.from && p.rel != [] && '/' !in p.rel[0]
    ensures var cat := StructuredEntry(root, p).value.category;
      && (cat == "root" <==> Parent(p.rel) == ["root"])
      && FirstSegment(cat) == if |p.rel| >= 2 then p.rel[0] else "."
  {
    var cat := Join(Parent(p.rel));
    if |p.rel| >= 2 {
      FirstSegmentOfJoin(Parent(p.rel));
      if |p.rel| > 2 {
        assert cat[|p.rel[0]|] == '/';
        assert cat != "root";
      }
    }
  }

  /** Lines 225-282, `main`, after the clone: exit status, attribution record, summary categories. */
  method Run(target: Target, t: Tree, root: Path, l: Listings)
    returns (status: int, record: Option<Attribution>, categories: set<string>)
    modifies target
    ensures target.files == SyncFiles(t, old(target.files), root, l)
    ensures var s := RunJobs(t, SyncJobs(t, root, l));
      && (status == 0 <==> s.error.None?)
      && (status == 0 || status == 1)
      && (s.error.None? ==> record == Some(CreateAttribution(s.entries)) && categories == CategorySet(s.entries))
      && (s.error.Some? ==> record == None && categories == {})
  {
    var outcome := SyncPreserveStructure(target, t, root, l);
    match outcome
    case Failed(_) =>
      return 1, None, {};
    case Synced(count, metadata) =>
      record := Some(CreateAttribution(metadata));
      categories := Summary(metadata);
      status := 0;
  }
}
