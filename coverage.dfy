/**
  The coverage checker: every SKILL.md found anywhere in the fetched
  repository is put in a location bucket by substring tests on its path and
  then by symlink tests on its ancestors; the buckets the sync script handles
  are summed, a verdict is drawn, and the plain (non-symlinked) skills under
  skills/ are listed.
*/
module Coverage {
  import opened FileTree
  import opened SkillDiscovery

  // ---------------------------------------------------------------------------
  // Substring tests on `str(path)`

  predicate OccursAt(s: string, pat: string, i: nat) {
    i + |pat| <= |s| && s[i..i + |pat|] == pat
  }

  /** Python's `pat in s` on strings. */
  predicate Contains(s: string, pat: string) {
    exists i | 0 <= i <= |s| :: OccursAt(s, pat, i)
  }

  lemma SlashEachAppend(a: Path, b: Path)
    ensures SlashEach(a + b) == SlashEach(a) + SlashEach(b)
    decreases |a|
  {
    if a != [] {
      assert (a + b)[1..] == a[1..] + b;
      SlashEachAppend(a[1..], b);
    } else {
      assert a + b == b;
    }
  }

  /** `str()` of a path that continues below `base`: the string of `base`, then "/" and the rest. */
  lemma AbsStringBelow(base: Path, f: Path)
    requires base < f
    ensures AbsString(f) == SlashEach(base) + ("/" + f[|base|] + SlashEach(f[|base| + 1..]))
  {
    var rest := f[|base|..];
    assert f == base + rest;
    SlashEachAppend(base, rest);
    assert AbsString(f) == SlashEach(base) + SlashEach(rest);
    assert rest[1..] == f[|base| + 1..];
  }

  lemma OccursInMiddle(a: string, pat: string, b: string)
    ensures OccursAt(a + pat + b, pat, |a|)
  {
    assert (a + pat + b)[|a|..|a| + |pat|] == pat;
  }

  /** A path strictly below <root>/.github/skills spells ".github/skills". */
  lemma GithubSkillsPathString(root: Path, f: Path)
    requires GithubSkillsDir(root) < f
    ensures Contains(AbsString(f), ".github/skills")
  {
    var d := GithubSkillsDir(root);
    AbsStringBelow(d, f);
    var rest := "/" + f[|d|] + SlashEach(f[|d| + 1..]);
    SlashEachAppend(root, [".github", "skills"]);
    assert SlashEach([".github", "skills"]) == "/.github" + "/skills" + "";
    assert AbsString(f) == (SlashEach(root) + "/") + ".github/skills" + rest;
    OccursInMiddle(SlashEach(root) + "/", ".github/skills", rest);
  }

  /** A path strictly below <root>/.github/plugins spells ".github/plugins". */
  lemma GithubPluginsPathString(root: Path, f: Path)
    requires GithubPluginsDir(root) < f
    ensures Contains(AbsString(f), ".github/plugins")
  {
    var d := GithubPluginsDir(root);
    AbsStringBelow(d, f);
    var rest := "/" + f[|d|] + SlashEach(f[|d| + 1..]);
    SlashEachAppend(root, [".github", "plugins"]);
    assert SlashEach([".github", "plugins"]) == "/.github" + "/plugins" + "";
    assert AbsString(f) == (SlashEach(root) + "/") + ".github/plugins" + rest;
    OccursInMiddle(SlashEach(root) + "/", ".github/plugins", rest);
  }

  /** A path strictly below <root>/skills spells "/skills/". */
  lemma SkillsPathString(root: Path, f: Path)
    requires SkillsDir(root) < f
    ensures Contains(AbsString(f), "/skills/")
  {
    var d := SkillsDir(root);
    AbsStringBelow(d, f);
    var rest := f[|d|] + SlashEach(f[|d| + 1..]);
    SlashEachAppend(root, ["skills"]);
    assert SlashEach(["skills"]) == "/skills" + "";
    assert AbsString(f) == SlashEach(root) + "/skills/" + rest;
    OccursInMiddle(SlashEach(root), "/skills/", rest);
  }

  // ---------------------------------------------------------------------------
  // The ancestor loop (lines 59-65 and 164-170)

  /**
    What the loop over `p.parents` finds: a link among the ancestors it
    visits, nearest first, before it reaches `stop`.
  */
  predicate SymlinkParentBefore(t: Tree, p: Path, stop: Path) {
    exists k | 0 <= k < |p| :: IsSymlink(t, p[..k]) && forall m | k <= m < |p| :: p[..m] != stop
  }

  /** Lines 59-65: walk up from the parent of `p`, stop at `stop`, flag the first link met. */
  method HasSymlinkParent(t: Tree, p: Path, stop: Path) returns (found: bool)
    ensures found == SymlinkParentBefore(t, p, stop)
  {
    found := false;
    var k := |p|;
    while k > 0
      invariant 0 <= k <= |p|
      invariant forall m | k <= m < |p| :: p[..m] != stop && !IsSymlink(t, p[..m])
    {
      k := k - 1;
      var parent := p[..k];
      if parent == stop {
        break;
      }
      if IsSymlink(t, parent) {
        found := true;
        break;
      }
    }
  }

  /** Below `stop`, the loop finds a link exactly when some ancestor strictly between `stop` and `p` is one. */
  lemma SymlinkParentBelow(t: Tree, p: Path, stop: Path)
    requires stop < p
    ensures SymlinkParentBefore(t, p, stop) <==> exists k | |stop| < k < |p| :: IsSymlink(t, p[..k])
  {
    assert p[..|stop|] == stop;
    if SymlinkParentBefore(t, p, stop) {
      var k :| 0 <= k < |p| && IsSymlink(t, p[..k]) && forall m | k <= m < |p| :: p[..m] != stop;
      assert |stop| < k;
    }
    if exists k | |stop| < k < |p| :: IsSymlink(t, p[..k]) {
      var k :| |stop| < k < |p| && IsSymlink(t, p[..k]);
      forall m | k <= m < |p| ensures p[..m] != stop {
        assert |p[..m]| != |stop|;
      }
    }
  }

  // ---------------------------------------------------------------------------
  // Classification (lines 39-74)

  /** The location types the checker tallies; "unknown" (an OS error while testing) is not modelled. */
  datatype Bucket = GithubSkills | GithubPlugins | SkillsSymlinked | SkillsViaSymlinkParent | SkillsDirect | Other

  /**
    The bucket of one SKILL.md, or None for a path that spells "/skills/"
    without lying below <root>/skills, which the checker tallies nowhere.
  */
  function Classify(t: Tree, root: Path, f: Path): Option<Bucket> {
    var s := AbsString(f);
    if Contains(s, ".github/skills") then Some(GithubSkills)
    else if Contains(s, ".github/plugins") then Some(GithubPlugins)
    else if Contains(s, "/skills/") then
      if !(SkillsDir(root) < f) then None
      else if IsSymlink(t, Parent(f)) then Some(SkillsSymlinked)
      else if SymlinkParentBefore(t, f, SkillsDir(root)) then Some(SkillsViaSymlinkParent)
      else Some(SkillsDirect)
    else Some(Other)
  }

  /** The buckets whose files the sync script picks up (lines 132-133). */
  predicate Handled(b: Bucket) {
    b == GithubSkills || b == GithubPlugins || b == SkillsSymlinked || b == SkillsDirect
  }

  /** Every marker under .github/skills is tallied there. */
  lemma ClassifyGithubSkills(t: Tree, root: Path, f: Path)
    requires GithubSkillsDir(root) < f
    ensures Classify(t, root, f) == Some(GithubSkills)
  {
    GithubSkillsPathString(root, f);
  }

  /** Every marker under .github/plugins is tallied in a handled .github bucket. */
  lemma ClassifyGithubPlugins(t: Tree, root: Path, f: Path)
    requires GithubPluginsDir(root) < f
    ensures Classify(t, root, f) == Some(GithubSkills) || Classify(t, root, f) == Some(GithubPlugins)
  {
    GithubPluginsPathString(root, f);
  }

  /**
    A marker under <root>/skills whose path spells neither .github name is
    always tallied: as symlinked when its directory is a link, as reached
    through a linked ancestor when one lies strictly below skills/, and as
    direct otherwise.
  */
  lemma ClassifySkills(t: Tree, root: Path, f: Path)
    requires SkillsDir(root) < f
    requires !Contains(AbsString(f), ".github/skills") && !Contains(AbsString(f), ".github/plugins")
    ensures Classify(t, root, f).Some?
    ensures Classify(t, root, f) == Some(SkillsSymlinked) <==> IsSymlink(t, Parent(f))
    ensures Classify(t, root, f) == Some(SkillsViaSymlinkParent) <==>
      !IsSymlink(t, Parent(f)) && exists k | |SkillsDir(root)| < k < |f| :: IsSymlink(t, f[..k])
    ensures Classify(t, root, f) == Some(SkillsDirect) <==>
      !IsSymlink(t, Parent(f)) && forall k | |SkillsDir(root)| < k < |f| :: !IsSymlink(t, f[..k])
  {
    SkillsPathString(root, f);
    SymlinkParentBelow(t, f, SkillsDir(root));
  }

  /** Lines 39-74 for one file: the tests in order, with the ancestor loop. */
  method LocationType(t: Tree, root: Path, f: Path) returns (b: Option<Bucket>)
    ensures b == Classify(t, root, f)
  {
    var s := AbsString(f);
    if Contains(s, ".github/skills") {
      b := Some(GithubSkills);
    } else if Contains(s, ".github/plugins") {
      b := Some(GithubPlugins);
    } else if Contains(s, "/skills/") {
      var skillsRoot := SkillsDir(root);
      if !(skillsRoot < f) {
        b := None;
      } else if IsSymlink(t, Parent(f)) {
        b := Some(SkillsSymlinked);
      } else {
        var hasSymlinkParent := HasSymlinkParent(t, f, skillsRoot);
        b := if hasSymlinkParent then Some(SkillsViaSymlinkParent) else Some(SkillsDirect);
      }
    } else {
      b := Some(Other);
    }
  }

  /** The elements of `s` that `keep` accepts, in order. */
  function Filter<T>(s: seq<T>, keep: T -> bool): seq<T>
    decreases |s|
  {
    if s == [] then []
    else
      var prev := Filter(s[..|s| - 1], keep);
      if keep(s[|s| - 1]) then prev + [s[|s| - 1]] else prev
  }

  lemma {:induction false} FilterSound<T>(s: seq<T>, keep: T -> bool)
    ensures forall x | x in Filter(s, keep) :: x in s && keep(x)
    decreases |s|
  {
    if s != [] {
      var init := s[..|s| - 1];
      FilterSound(init, keep);
      assert s == init + [s[|s| - 1]];
    }
  }

  lemma {:induction false} FilterComplete<T>(s: seq<T>, keep: T -> bool)
    ensures forall i | 0 <= i < |s| && keep(s[i]) :: s[i] in Filter(s, keep)
    decreases |s|
  {
    if s != [] {
      var init := s[..|s| - 1];
      FilterComplete(init, keep);
      forall i | 0 <= i < |init| ensures s[i] == init[i] { }
    }
  }

  /** Nothing is kept exactly when `keep` accepts no element. */
  lemma {:induction false} FilterEmpty<T>(s: seq<T>, keep: T -> bool)
    ensures Filter(s, keep) == [] <==> forall x | x in s :: !keep(x)
    decreases |s|
  {
    if s != [] {
      var init := s[..|s| - 1];
      FilterEmpty(init, keep);
      assert s == init + [s[|s| - 1]];
    }
  }

  /** The files tallied under `key` (None: tallied nowhere), in discovery order. */
  function Bucketed(t: Tree, root: Path, files: seq<Path>, key: Option<Bucket>): seq<Path> {
    Filter(files, f => Classify(t, root, f) == key)
  }

  /** A tally lists only files classified under its key. */
  lemma BucketedSound(t: Tree, root: Path, files: seq<Path>, key: Option<Bucket>)
    ensures forall f | f in Bucketed(t, root, files, key) :: f in files && Classify(t, root, f) == key
  {
    FilterSound(files, f => Classify(t, root, f) == key);
  }

  /** A tally lists every file classified under its key. */
  lemma BucketedComplete(t: Tree, root: Path, files: seq<Path>, key: Option<Bucket>)
    ensures forall i | 0 <= i < |files| && Classify(t, root, files[i]) == key :: files[i] in Bucketed(t, root, files, key)
  {
    FilterComplete(files, f => Classify(t, root, f) == key);
  }

  /** The tallies of the six buckets and the untallied files add up to all the files. */
  function TallySum(t: Tree, root: Path, files: seq<Path>): nat {
    |Bucketed(t, root, files, Some(GithubSkills))| + |Bucketed(t, root, files, Some(GithubPlugins))|
    + |Bucketed(t, root, files, Some(SkillsSymlinked))| + |Bucketed(t, root, files, Some(SkillsViaSymlinkParent))|
    + |Bucketed(t, root, files, Some(SkillsDirect))| + |Bucketed(t, root, files, Some(Other))|
    + |Bucketed(t, root, files, None)|
  }

  /** Each file is tallied exactly once, counting "nowhere" as a tally. */
  lemma {:induction false} Partition(t: Tree, root: Path, files: seq<Path>)
    ensures TallySum(t, root, files) == |files|
    decreases |files|
  {
    if files != [] {
      Partition(t, root, files[..|files| - 1]);
    }
  }

  // ---------------------------------------------------------------------------
  // The tally (lines 37-74) and the summary (lines 102-144, 186-190)

  /** `location_types[b].append(f)` on a defaultdict of lists. */
  function Append(lt: map<Bucket, seq<Path>>, b: Bucket, f: Path): (r: map<Bucket, seq<Path>>)
    ensures r.Keys == lt.Keys + {b}
    ensures r[b] == (if b in lt then lt[b] else []) + [f]
    ensures forall c | c in lt && c != b :: r[c] == lt[c]
  {
    lt[b := (if b in lt then lt[b] else []) + [f]]
  }

  /** The defaultdict of lists after appending every file to the list of its bucket, in order. */
  function Tally(t: Tree, root: Path, files: seq<Path>): map<Bucket, seq<Path>>
    decreases |files|
  {
    if files == [] then map[]
    else
      var prev := Tally(t, root, files[..|files| - 1]);
      match Classify(t, root, files[|files| - 1])
      case None => prev
      case Some(b) => Append(prev, b, files[|files| - 1])
  }

  /** One more file extends the tally of a prefix by that file's bucket. */
  lemma TallyStep(t: Tree, root: Path, files: seq<Path>, i: nat, b: Option<Bucket>)
    requires i < |files| && b == Classify(t, root, files[i])
    ensures Tally(t, root, files[..i + 1]) ==
      if b.Some? then Append(Tally(t, root, files[..i]), b.value, files[i]) else Tally(t, root, files[..i])
  {
    assert files[..i + 1][..i] == files[..i];
  }

  /** The defaultdict holds a key exactly for each non-empty bucket, mapped to that bucket's files. */
  lemma {:induction false} TallyBuckets(t: Tree, root: Path, files: seq<Path>)
    ensures forall b :: b in Tally(t, root, files) <==> Bucketed(t, root, files, Some(b)) != []
    ensures forall b | b in Tally(t, root, files) :: Tally(t, root, files)[b] == Bucketed(t, root, files, Some(b))
    decreases |files|
  {
    if files != [] {
      TallyBuckets(t, root, files[..|files| - 1]);
    }
  }

  /** Lines 37-74: the defaultdict of lists, filled in discovery order. */
  method TallyLocations(t: Tree, root: Path, files: seq<Path>) returns (lt: map<Bucket, seq<Path>>)
    ensures lt == Tally(t, root, files)
    ensures forall b :: b in lt <==> Bucketed(t, root, files, Some(b)) != []
    ensures forall b | b in lt :: lt[b] == Bucketed(t, root, files, Some(b))
  {
    lt := map[];
    var i := 0;
    while i < |files|
      invariant 0 <= i <= |files|
      invariant lt == Tally(t, root, files[..i])
    {
      var f := files[i];
      var b := LocationType(t, root, f);
      TallyStep(t, root, files, i, b);
      if b.Some? {
        lt := Append(lt, b.value, f);
      }
      i := i + 1;
    }
    assert files[..i] == files;
    TallyBuckets(t, root, files);
  }

  /** A defaultdict read (lines 102-106): the key is present afterwards, with [] if it was missing. */
  function Touch(lt: map<Bucket, seq<Path>>, b: Bucket): (r: map<Bucket, seq<Path>>)
    ensures r.Keys == lt.Keys + {b}
    ensures forall c | c in r :: r[c] == if c in lt then lt[c] else []
  {
    if b in lt then lt else lt[b := []]
  }

  /** The messages of lines 138-144. */
  datatype Verdict = FullCoverage | NearFullCoverage | PartialCoverage

  /** Lines 138-144, with `handled >= total * 0.99` read exactly as `100 * handled >= 99 * total`. */
  function AnalysisVerdict(handled: nat, total: nat): (v: Verdict)
    ensures v == FullCoverage <==> handled == total
    ensures v == NearFullCoverage <==> handled != total && 100 * handled >= 99 * total
    ensures v == PartialCoverage <==> 100 * handled < 99 * total
  {
    if handled == total then FullCoverage
    else if 100 * handled >= 99 * total then NearFullCoverage
    else PartialCoverage
  }

  /** What `analyze_skill_locations` returns (lines 186-190). */
  datatype Analysis = Analysis(total: nat, handled: nat, breakdown: map<Bucket, nat>)

  /** The size of the handled tallies (lines 132-133). */
  function HandledCount(t: Tree, root: Path, files: seq<Path>): nat {
    |Bucketed(t, root, files, Some(GithubSkills))| + |Bucketed(t, root, files, Some(GithubPlugins))|
    + |Bucketed(t, root, files, Some(SkillsSymlinked))| + |Bucketed(t, root, files, Some(SkillsDirect))|
  }

  /** The five keys lines 102-106 read, and so always present in the breakdown. */
  const ReadKeys: set<Bucket> := {GithubSkills, GithubPlugins, SkillsSymlinked, SkillsDirect, SkillsViaSymlinkParent}

  /**
    Everything handled is found, and the count falls short of the total by
    exactly the files reached through a linked ancestor, the files elsewhere,
    and the files tallied nowhere.
  */
  lemma HandledShortfall(t: Tree, root: Path, files: seq<Path>)
    ensures HandledCount(t, root, files) <= |files|
    ensures HandledCount(t, root, files) + |Bucketed(t, root, files, Some(SkillsViaSymlinkParent))|
      + |Bucketed(t, root, files, Some(Other))| + |Bucketed(t, root, files, None)| == |files|
  {
    Partition(t, root, files);
  }

  /** Handled equals the total exactly when every file lands in a handled bucket. */
  lemma HandledAll(t: Tree, root: Path, files: seq<Path>)
    ensures HandledCount(t, root, files) == |files| <==>
      forall f | f in files :: Classify(t, root, f).Some? && Handled(Classify(t, root, f).value)
  {
    HandledShortfall(t, root, files);
    FilterEmpty(files, f => Classify(t, root, f) == Some(SkillsViaSymlinkParent));
    FilterEmpty(files, f => Classify(t, root, f) == Some(Other));
    FilterEmpty(files, f => Classify(t, root, f) == None);
  }

  /** The five defaultdict reads of lines 102-106, in their order. */
  function TouchReads(lt: map<Bucket, seq<Path>>): map<Bucket, seq<Path>> {
    Touch(Touch(Touch(Touch(Touch(lt, GithubSkills), GithubPlugins), SkillsSymlinked), SkillsDirect), SkillsViaSymlinkParent)
  }

  /** The reads add the five keys, each with an empty list if it was missing, and change nothing else. */
  lemma TouchReadsDefault(lt: map<Bucket, seq<Path>>)
    ensures TouchReads(lt).Keys == lt.Keys + ReadKeys
    ensures forall b | b in TouchReads(lt) :: TouchReads(lt)[b] == if b in lt then lt[b] else []
  {
    var l1 := Touch(lt, GithubSkills);
    var l2 := Touch(l1, GithubPlugins);
    var l3 := Touch(l2, SkillsSymlinked);
    var l4 := Touch(l3, SkillsDirect);
    assert l4.Keys == lt.Keys + {GithubSkills, GithubPlugins, SkillsSymlinked, SkillsDirect};
  }

  /** The breakdown the analysis reports: a count for each key read, and for Other when some file landed there. */
  function SkillBreakdown(t: Tree, root: Path, files: seq<Path>): map<Bucket, nat> {
    map b | b in BreakdownKeys(t, root, files) :: |Bucketed(t, root, files, Some(b))|
  }

  function BreakdownKeys(t: Tree, root: Path, files: seq<Path>): set<Bucket> {
    if Bucketed(t, root, files, Some(Other)) != [] then ReadKeys + {Other} else ReadKeys
  }

  /** Adding the five keys read leaves them, and Other when it was there already. */
  lemma ReadKeysCover(lt: map<Bucket, seq<Path>>)
    ensures lt.Keys + ReadKeys == if Other in lt then ReadKeys + {Other} else ReadKeys
  {
    forall b | b in lt ensures b in ReadKeys + {Other} {
      if b != Other { assert b in ReadKeys; }
    }
  }

  /** Line 189: `{k: len(v) for k, v in location_types.items()}`. */
  function Sizes(lt: map<Bucket, seq<Path>>): map<Bucket, nat> {
    map b | b in lt :: |lt[b]|
  }

  /** After the reads (`r`, from the tally `lt`), every key holds its bucket's files. */
  lemma ReadsBuckets(t: Tree, root: Path, files: seq<Path>, lt: map<Bucket, seq<Path>>, r: map<Bucket, seq<Path>>)
    requires forall b :: b in lt <==> Bucketed(t, root, files, Some(b)) != []
    requires forall b | b in lt :: lt[b] == Bucketed(t, root, files, Some(b))
    requires forall b | b in r :: r[b] == if b in lt then lt[b] else []
    ensures forall b | b in r :: r[b] == Bucketed(t, root, files, Some(b))
  {
    forall b | b in r ensures r[b] == Bucketed(t, root, files, Some(b)) {
      if b !in lt {
        assert Bucketed(t, root, files, Some(b)) == [];
      }
    }
  }

  /** After the reads, the keys are the five read and Other when some file was tallied there. */
  lemma ReadsKeys(t: Tree, root: Path, files: seq<Path>, lt: map<Bucket, seq<Path>>, r: map<Bucket, seq<Path>>)
    requires Other in lt <==> Bucketed(t, root, files, Some(Other)) != []
    requires r.Keys == lt.Keys + ReadKeys
    ensures r.Keys == BreakdownKeys(t, root, files)
  {
    ReadKeysCover(lt);
  }

  /** A dictionary over the breakdown's keys holding each bucket's files has the breakdown as its sizes. */
  lemma SizesBreakdown(t: Tree, root: Path, files: seq<Path>, r: map<Bucket, seq<Path>>)
    requires r.Keys == BreakdownKeys(t, root, files)
    requires forall b | b in r :: r[b] == Bucketed(t, root, files, Some(b))
    ensures Sizes(r) == SkillBreakdown(t, root, files)
  {
    var m := Sizes(r);
    var sb := SkillBreakdown(t, root, files);
    assert m.Keys == sb.Keys;
    forall b | b in m ensures m[b] == sb[b] {
    }
  }

  /** After the reads (`r`, from the tally `lt`), the dictionary's sizes are the breakdown. */
  lemma ReadsBreakdown(t: Tree, root: Path, files: seq<Path>, lt: map<Bucket, seq<Path>>, r: map<Bucket, seq<Path>>)
    requires forall b :: b in lt <==> Bucketed(t, root, files, Some(b)) != []
    requires forall b | b in lt :: lt[b] == Bucketed(t, root, files, Some(b))
    requires r.Keys == lt.Keys + ReadKeys
    requires forall b | b in r :: r[b] == if b in lt then lt[b] else []
    ensures forall b | b in r :: r[b] == Bucketed(t, root, files, Some(b))
    ensures Sizes(r) == SkillBreakdown(t, root, files)
  {
    ReadsBuckets(t, root, files, lt, r);
    ReadsKeys(t, root, files, lt, r);
    SizesBreakdown(t, root, files, r);
  }

  /** The breakdown's counts summed over its keys. */
  function BreakdownSum(bd: map<Bucket, nat>): nat {
    (if GithubSkills in bd then bd[GithubSkills] else 0)
    + (if GithubPlugins in bd then bd[GithubPlugins] else 0)
    + (if SkillsSymlinked in bd then bd[SkillsSymlinked] else 0)
    + (if SkillsViaSymlinkParent in bd then bd[SkillsViaSymlinkParent] else 0)
    + (if SkillsDirect in bd then bd[SkillsDirect] else 0)
    + (if Other in bd then bd[Other] else 0)
  }

  /** Every file tallied somewhere is counted once in the breakdown. */
  lemma BreakdownCountsTallied(t: Tree, root: Path, files: seq<Path>)
    ensures BreakdownSum(SkillBreakdown(t, root, files)) == |files| - |Bucketed(t, root, files, None)|
  {
    Partition(t, root, files);
  }

  /** `len(location_types[b])` on the defaultdict: 0 for a missing key. */
  function Count(lt: map<Bucket, seq<Path>>, b: Bucket): nat {
    if b in lt then |lt[b]| else 0
  }

  /** Each count read from the tally is the size of its bucket. */
  lemma TallyCounts(t: Tree, root: Path, files: seq<Path>, lt: map<Bucket, seq<Path>>)
    requires forall b :: b in lt <==> Bucketed(t, root, files, Some(b)) != []
    requires forall b | b in lt :: lt[b] == Bucketed(t, root, files, Some(b))
    ensures forall b :: Count(lt, b) == |Bucketed(t, root, files, Some(b))|
  {
  }

  /** Lines 102-106 and 132-133: the five defaultdict reads, and the sum of the four handled counts. */
  method ReadCounts(lt0: map<Bucket, seq<Path>>) returns (lt: map<Bucket, seq<Path>>, totalHandled: nat)
    ensures lt == TouchReads(lt0)
    ensures lt.Keys == lt0.Keys + ReadKeys
    ensures forall b | b in lt :: lt[b] == if b in lt0 then lt0[b] else []
    ensures totalHandled == Count(lt0, GithubSkills) + Count(lt0, GithubPlugins) + Count(lt0, SkillsSymlinked) + Count(lt0, SkillsDirect)
  {
    lt := Touch(lt0, GithubSkills);
    var githubSkillsCount := |lt[GithubSkills]|;
    lt := Touch(lt, GithubPlugins);
    var githubPluginsCount := |lt[GithubPlugins]|;
    lt := Touch(lt, SkillsSymlinked);
    var skillsSymlinkedCount := |lt[SkillsSymlinked]|;
    lt := Touch(lt, SkillsDirect);
    var skillsDirectCount := |lt[SkillsDirect]|;
    lt := Touch(lt, SkillsViaSymlinkParent);
    totalHandled := githubSkillsCount + githubPluginsCount + skillsSymlinkedCount + skillsDirectCount;
    TouchReadsDefault(lt0);
  }

  /** Lines 37-74, 102-106, 132-133 and 189: the tally, the handled sum and the breakdown. */
  method TallyAndCount(t: Tree, root: Path, files: seq<Path>) returns (totalHandled: nat, breakdown: map<Bucket, nat>)
    ensures totalHandled == HandledCount(t, root, files)
    ensures breakdown == SkillBreakdown(t, root, files)
  {
    var lt := TallyLocations(t, root, files);
    ghost var tallied := lt;
    lt, totalHandled := ReadCounts(lt);
    TallyCounts(t, root, files, tallied);
    ReadsBreakdown(t, root, files, tallied, lt);
    breakdown := Sizes(lt);
  }

  /** Lines 14-190 after the clone, given the files `rglob("SKILL.md")` yields in its order. */
  method AnalyzeSkillLocations(t: Tree, root: Path, allSkillFiles: seq<Path>, skillsListing: seq<Path>)
    returns (result: Analysis, verdict: Verdict, nonSymlinked: Option<seq<Path>>)
    ensures result.total == |allSkillFiles|
    ensures result.handled == HandledCount(t, root, allSkillFiles)
    ensures result.breakdown == SkillBreakdown(t, root, allSkillFiles)
    ensures verdict == AnalysisVerdict(result.handled, result.total)
    ensures nonSymlinked == if Exists(t, SkillsDir(root)) then Some(PlainSkills(t, SkillsDir(root), skillsListing)) else None
  {
    var totalHandled, breakdown := TallyAndCount(t, root, allSkillFiles);
    verdict := AnalysisVerdict(totalHandled, |allSkillFiles|);
    nonSymlinked := None;
    var skillsDir := SkillsDir(root);
    if Exists(t, skillsDir) {
      var found := NonSymlinkSkills(t, skillsDir, skillsListing);
      nonSymlinked := Some(found);
    }
    result := Analysis(|allSkillFiles|, totalHandled, breakdown);
  }

  // ---------------------------------------------------------------------------
  // The scan for plain skills under skills/ (lines 154-173)

  /** An entry of the scan that is kept: a plain directory with SKILL.md and no link above it before `skillsDir`. */
  predicate PlainSkill(t: Tree, skillsDir: Path, item: Path) {
    IsDir(t, item) && !IsSymlink(t, item) && HasMarker(t, item) && !SymlinkParentBefore(t, item, skillsDir)
  }

  /** The entries the scan keeps, in `rglob("*")` order. */
  function PlainSkills(t: Tree, skillsDir: Path, items: seq<Path>): seq<Path>
    decreases |items|
  {
    if items == [] then []
    else
      var prev := PlainSkills(t, skillsDir, items[..|items| - 1]);
      if PlainSkill(t, skillsDir, items[|items| - 1]) then prev + [items[|items| - 1]] else prev
  }

  /** Lines 158-173: keep the plain directories holding SKILL.md with no linked ancestor below skills/. */
  method NonSymlinkSkills(t: Tree, skillsDir: Path, items: seq<Path>) returns (found: seq<Path>)
    ensures found == PlainSkills(t, skillsDir, items)
  {
    found := [];
    var i := 0;
    while i < |items|
      invariant 0 <= i <= |items|
      invariant found == PlainSkills(t, skillsDir, items[..i])
    {
      var item := items[i];
      assert items[..i + 1][..i] == items[..i];
      if IsDir(t, item) && !IsSymlink(t, item) {
        if HasMarker(t, item) {
          var hasSymlinkParent := HasSymlinkParent(t, item, skillsDir);
          if !hasSymlinkParent {
            found := found + [item];
          }
        }
      }
      i := i + 1;
    }
    assert items[..i] == items;
  }

  /** The scan keeps exactly the listed plain skills below skills/ with no linked ancestor strictly below skills/. */
  lemma {:induction false} PlainSkillsMembers(t: Tree, skillsDir: Path, items: seq<Path>)
    requires forall i | 0 <= i < |items| :: skillsDir < items[i]
    ensures forall x :: x in PlainSkills(t, skillsDir, items) <==>
      x in items && IsDir(t, x) && !IsSymlink(t, x) && HasMarker(t, x)
      && forall k | |skillsDir| < k < |x| :: !IsSymlink(t, x[..k])
    decreases |items|
  {
    if items != [] {
      var init := items[..|items| - 1];
      var last := items[|items| - 1];
      assert forall i | 0 <= i < |init| :: init[i] == items[i];
      PlainSkillsMembers(t, skillsDir, init);
      SymlinkParentBelow(t, last, skillsDir);
      assert items == init + [last];
    }
  }

  /**
    Every entry the scan keeps is picked up by the sync walk when it meets
    it: placed at its own path under skills/, named after itself, with
    itself as the content (lines 83-85 of the sync script).
  */
  lemma PlainSkillsAreSynced(t: Tree, root: Path, items: seq<Path>, x: Path)
    requires x in PlainSkills(t, SkillsDir(root), items) && SkillsDir(root) <= x
    ensures WalkPlacement(t, root, x) == Some(Placement(x[|SkillsDir(root)|..], Name(x), x))
  {
    PlainSkillsKept(t, SkillsDir(root), items);
    assert SkillsDir(root) + x[|SkillsDir(root)|..] == x;
  }

  lemma {:induction false} PlainSkillsKept(t: Tree, skillsDir: Path, items: seq<Path>)
    ensures forall x | x in PlainSkills(t, skillsDir, items) :: PlainSkill(t, skillsDir, x)
    decreases |items|
  {
    if items != [] {
      PlainSkillsKept(t, skillsDir, items[..|items| - 1]);
    }
  }

  // ---------------------------------------------------------------------------
  // The final verdict (lines 200-210)

  /** Line 200: the coverage in percent, 0 for an empty repository. */
  function CoveragePercent(handled: nat, total: nat): (pct: real)
    ensures total == 0 ==> pct == 0.0
    ensures total > 0 ==> pct * (total as real) == 100.0 * (handled as real)
  {
    if total > 0 then (handled as real) / (total as real) * 100.0 else 0.0
  }

  /** Line 205: the script is called comprehensive at 99 percent or more. */
  function Comprehensive(handled: nat, total: nat): (ok: bool)
    ensures ok <==> total > 0 && 100 * handled >= 99 * total
  {
    var pct := CoveragePercent(handled, total);
    assert total > 0 ==> (pct >= 99.0 <==> pct * (total as real) >= 99.0 * (total as real));
    pct >= 99.0
  }

  /**
    An empty repository passes the analysis as full coverage (0 == 0) but
    fails the final verdict, whose percentage is 0 there.
  */
  lemma EmptyRepositoryVerdicts()
    ensures AnalysisVerdict(0, 0) == FullCoverage && !Comprehensive(0, 0)
  {
  }

  /** In a non-empty repository the final verdict agrees with the analysis: comprehensive means full or near-full. */
  lemma VerdictsAgree(handled: nat, total: nat)
    requires total > 0 && handled <= total
    ensures Comprehensive(handled, total) <==> AnalysisVerdict(handled, total) != PartialCoverage
  {
  }
}
