/**
  Skill discovery in the sync script: the flat, name-keyed merge of
  `.github/skills` and `.github/plugins`, the decision per entry of the
  structure-preserving walk over `skills/`, and the supplemental plugin pass.
  The orders in which `iterdir` and `rglob` enumerate are inputs.
*/
module SkillDiscovery {
  import opened FileTree

  /** The marker file whose presence makes a directory a skill. */
  const Marker: string := "SKILL.md"

  function GithubSkillsDir(root: Path): Path { root + [".github", "skills"] }
  function GithubPluginsDir(root: Path): Path { root + [".github", "plugins"] }
  function SkillsDir(root: Path): Path { root + ["skills"] }

  /** `(d / "SKILL.md").exists()`. */
  predicate HasMarker(t: Tree, d: Path) {
    Exists(t, d + [Marker])
  }

  /** The enumerations the file system supplies, in the order it supplies them. */
  datatype Listings = Listings(
    githubSkills: seq<Path>,   // iterdir() of <root>/.github/skills
    pluginMarkers: seq<Path>,  // rglob("SKILL.md") under <root>/.github/plugins
    skillsTree: seq<Path>)     // rglob("*") under <root>/skills

  /** What `base.rglob("SKILL.md")` yields: existing marker files strictly below `base`. */
  predicate MarkerListing(t: Tree, base: Path, files: seq<Path>) {
    forall i | 0 <= i < |files| :: base < files[i] && Name(files[i]) == Marker && Exists(t, files[i])
  }

  // ---------------------------------------------------------------------------
  // find_all_skills

  /** A name-keyed dictionary that keeps first-insertion order, as a Python dict does. */
  datatype SkillIndex = SkillIndex(names: seq<string>, dirs: map<string, Path>) {

    predicate Valid() {
      && (forall i, j | 0 <= i < j < |names| :: names[i] != names[j])
      && dirs.Keys == set n | n in names
    }

    /** `d[k] = v`: a new key goes to the end, an existing key keeps its place. */
    function Set(k: string, v: Path): (r: SkillIndex)
      ensures r.dirs == dirs[k := v]
      ensures Valid() ==> r.Valid()
      ensures k in dirs ==> r.names == names
      ensures k !in dirs ==> r.names == names + [k]
    {
      if k in dirs then SkillIndex(names, dirs[k := v]) else SkillIndex(names + [k], dirs[k := v])
    }
  }

  const EmptyIndex := SkillIndex([], map[])

  /** Every key is the base name of the directory it maps to. */
  predicate KeyedByName(idx: SkillIndex) {
    forall k | k in idx.dirs :: Name(idx.dirs[k]) == k
  }

  /** Every directory in the index contains the marker file. */
  predicate AllMarked(t: Tree, idx: SkillIndex) {
    forall k | k in idx.dirs :: HasMarker(t, idx.dirs[k])
  }

  /** Lines 31-33: the entries of .github/skills that are directories holding SKILL.md. */
  function GithubStage(t: Tree, idx: SkillIndex, entries: seq<Path>): SkillIndex
    decreases |entries|
  {
    if entries == [] then idx
    else
      var prev := GithubStage(t, idx, entries[..|entries| - 1]);
      var e := entries[|entries| - 1];
      if IsDir(t, e) && HasMarker(t, e) then prev.Set(Name(e), e) else prev
  }

  /** Every listed directory holding SKILL.md is keyed by its name after the `.github/skills` loop. */
  lemma {:induction false} GithubStageAdds(t: Tree, idx: SkillIndex, entries: seq<Path>)
    ensures forall i | 0 <= i < |entries| && IsDir(t, entries[i]) && HasMarker(t, entries[i]) ::
      Name(entries[i]) in GithubStage(t, idx, entries).dirs
    decreases |entries|
  {
    if entries != [] {
      var init := entries[..|entries| - 1];
      GithubStageAdds(t, idx, init);
      assert GithubStage(t, idx, init).dirs.Keys <= GithubStage(t, idx, entries).dirs.Keys;
      forall i | 0 <= i < |init| ensures entries[i] == init[i] { }
    }
  }

  /** Lines 38-42: the parent of each plugin SKILL.md, unless its name is already taken. */
  function PluginStage(idx: SkillIndex, files: seq<Path>): SkillIndex
    decreases |files|
  {
    if files == [] then idx
    else
      var prev := PluginStage(idx, files[..|files| - 1]);
      var d := Parent(files[|files| - 1]);
      if Name(d) in prev.dirs then prev else prev.Set(Name(d), d)
  }

  /** The dictionary `find_all_skills` returns. */
  function AllSkills(t: Tree, root: Path, l: Listings): SkillIndex {
    var gh := if Exists(t, GithubSkillsDir(root)) then GithubStage(t, EmptyIndex, l.githubSkills) else EmptyIndex;
    if Exists(t, GithubPluginsDir(root)) then PluginStage(gh, l.pluginMarkers) else gh
  }

  lemma {:induction false} GithubStageSound(t: Tree, idx: SkillIndex, entries: seq<Path>)
    requires idx.Valid() && KeyedByName(idx) && AllMarked(t, idx)
    ensures var r := GithubStage(t, idx, entries);
      r.Valid() && KeyedByName(r) && AllMarked(t, r)
    ensures forall k | k in GithubStage(t, idx, entries).dirs && k !in idx.dirs ::
      var d := GithubStage(t, idx, entries).dirs[k]; IsDir(t, d) && d in entries
    decreases |entries|
  {
    if entries != [] {
      var init := entries[..|entries| - 1];
      GithubStageSound(t, idx, init);
      forall k | k in GithubStage(t, idx, init).dirs && k !in idx.dirs
        ensures GithubStage(t, idx, init).dirs[k] in entries
      {
        assert GithubStage(t, idx, init).dirs[k] in init;
      }
    }
  }

  lemma {:induction false} PluginStageMarked(t: Tree, base: Path, idx: SkillIndex, files: seq<Path>)
    requires MarkerListing(t, base, files)
    ensures AllMarked(t, idx) ==> AllMarked(t, PluginStage(idx, files))
    decreases |files|
  {
    if files != [] {
      var init := files[..|files| - 1];
      var f := files[|files| - 1];
      assert MarkerListing(t, base, init) by {
        forall i | 0 <= i < |init| ensures init[i] == files[i] { }
      }
      PluginStageMarked(t, base, idx, init);
      assert Parent(f) + [Marker] == f by {
        assert Name(f) == Marker;
        assert f == f[..|f| - 1] + [f[|f| - 1]];
      }
    }
  }

  /** A .github/skills entry is never replaced by a plugin, and the order of earlier names is kept. */
  lemma {:induction false} PluginStageKeeps(idx: SkillIndex, files: seq<Path>)
    ensures var r := PluginStage(idx, files);
      (forall k | k in idx.dirs :: k in r.dirs && r.dirs[k] == idx.dirs[k])
      && idx.names <= r.names
    decreases |files|
  {
    if files != [] {
      PluginStageKeeps(idx, files[..|files| - 1]);
    }
  }

  /** Every name the plugin stage adds is the name of some marker file's parent. */
  lemma {:induction false} PluginStageOnly(idx: SkillIndex, files: seq<Path>)
    ensures forall k | k in PluginStage(idx, files).dirs && k !in idx.dirs ::
      exists i | 0 <= i < |files| :: Name(Parent(files[i])) == k
    decreases |files|
  {
    if files != [] {
      var init := files[..|files| - 1];
      PluginStageOnly(idx, init);
      forall k | k in PluginStage(idx, files).dirs && k !in idx.dirs
        ensures exists i | 0 <= i < |files| :: Name(Parent(files[i])) == k
      {
        if k in PluginStage(idx, init).dirs {
          var i :| 0 <= i < |init| && Name(Parent(init[i])) == k;
          assert files[i] == init[i];
        } else {
          assert Name(Parent(files[|files| - 1])) == k;
        }
      }
    }
  }

  /** The name of every marker file's parent is a key after the plugin stage. */
  lemma {:induction false} PluginStageAdds(idx: SkillIndex, files: seq<Path>)
    ensures forall i | 0 <= i < |files| :: Name(Parent(files[i])) in PluginStage(idx, files).dirs
    decreases |files|
  {
    if files != [] {
      var init := files[..|files| - 1];
      PluginStageAdds(idx, init);
      assert PluginStage(idx, init).dirs.Keys <= PluginStage(idx, files).dirs.Keys;
      forall i | 0 <= i < |init| ensures files[i] == init[i] { }
    }
  }

  /** Among plugin marker files, the first one whose parent has a given fresh name wins. */
  lemma {:induction false} PluginFirstWins(idx: SkillIndex, files: seq<Path>, i: nat)
    requires i < |files|
    requires Name(Parent(files[i])) !in idx.dirs
    requires forall j | 0 <= j < i :: Name(Parent(files[j])) != Name(Parent(files[i]))
    ensures var k := Name(Parent(files[i]));
      k in PluginStage(idx, files).dirs && PluginStage(idx, files).dirs[k] == Parent(files[i])
    decreases |files|
  {
    var k := Name(Parent(files[i]));
    var init := files[..|files| - 1];
    if i == |files| - 1 {
      PluginStageOnly(idx, init);
      forall j | 0 <= j < |init| ensures Name(Parent(init[j])) != k {
        assert init[j] == files[j];
      }
    } else {
      assert init[i] == files[i];
      forall j | 0 <= j < i ensures Name(Parent(init[j])) != k {
        assert init[j] == files[j];
      }
      PluginFirstWins(idx, init, i);
    }
  }

  /** Lines 24-44, `find_all_skills`. */
  method FindAllSkills(t: Tree, root: Path, l: Listings) returns (index: SkillIndex)
    ensures index == AllSkills(t, root, l)
    ensures index.Valid() && KeyedByName(index)
  {
    index := EmptyIndex;
    if Exists(t, GithubSkillsDir(root)) {
      var i := 0;
      while i < |l.githubSkills|
        invariant 0 <= i <= |l.githubSkills|
        invariant index == GithubStage(t, EmptyIndex, l.githubSkills[..i])
      {
        var dir := l.githubSkills[i];
        if IsDir(t, dir) && HasMarker(t, dir) {
          index := index.Set(Name(dir), dir);
        }
        assert l.githubSkills[..i + 1][..i] == l.githubSkills[..i];
        i := i + 1;
      }
      assert l.githubSkills[..i] == l.githubSkills;
    }
    ghost var gh := index;
    GithubStageSound(t, EmptyIndex, if Exists(t, GithubSkillsDir(root)) then l.githubSkills else []);
    if Exists(t, GithubPluginsDir(root)) {
      var i := 0;
      while i < |l.pluginMarkers|
        invariant 0 <= i <= |l.pluginMarkers|
        invariant index == PluginStage(gh, l.pluginMarkers[..i])
      {
        var dir := Parent(l.pluginMarkers[i]);
        if Name(dir) !in index.dirs {
          index := index.Set(Name(dir), dir);
        }
        assert l.pluginMarkers[..i + 1][..i] == l.pluginMarkers[..i];
        i := i + 1;
      }
      assert l.pluginMarkers[..i] == l.pluginMarkers;
      PluginNamesKeyed(gh, l.pluginMarkers);
    }
  }

  /** With a well-formed plugin listing, every directory found holds SKILL.md. */
  lemma AllSkillsMarked(t: Tree, root: Path, l: Listings)
    requires MarkerListing(t, GithubPluginsDir(root), l.pluginMarkers)
    ensures AllMarked(t, AllSkills(t, root, l))
  {
    var ghFiles := if Exists(t, GithubSkillsDir(root)) then l.githubSkills else [];
    GithubStageSound(t, EmptyIndex, ghFiles);
    var gh := GithubStage(t, EmptyIndex, ghFiles);
    if Exists(t, GithubPluginsDir(root)) {
      PluginStageMarked(t, GithubPluginsDir(root), gh, l.pluginMarkers);
    }
  }

  /** Whatever the listing, the plugin stage keeps the dictionary valid and keyed by name. */
  lemma {:induction false} PluginNamesKeyed(idx: SkillIndex, files: seq<Path>)
    requires idx.Valid() && KeyedByName(idx)
    ensures PluginStage(idx, files).Valid() && KeyedByName(PluginStage(idx, files))
    decreases |files|
  {
    if files != [] {
      PluginNamesKeyed(idx, files[..|files| - 1]);
    }
  }

  // ---------------------------------------------------------------------------
  // sync_skills_preserve_structure: the decision per walk entry

  /**
    Lines 67-88: the directory whose content a walk entry supplies, if the
    entry is a skill.  A link contributes its target, a plain directory
    itself; non-directories and broken links contribute nothing.
  */
  function SkillSource(t: Tree, item: Path): (r: Option<Path>)
    ensures r.Some? <==>
      (IsSymlink(t, item) && ResolveLink(t, item).Resolved? && t[t[item].target].Dir?
         && HasMarker(t, t[item].target))
      || (!IsSymlink(t, item) && item in t && t[item].Dir? && HasMarker(t, item))
    ensures r.Some? ==> r.value == Resolve(t, item)
    ensures ResolveLink(t, item) == Broken ==> r.None?
  {
    if !IsDir(t, item) then None
    else if IsSymlink(t, item) then
      var resolved := Resolve(t, item);
      if HasMarker(t, resolved) then Some(resolved) else None
    else if HasMarker(t, item) then Some(item)
    else None
  }

  /** Where a skill goes and what it is called: its path under skills/, its own name, its content. */
  datatype Placement = Placement(rel: Path, name: string, from: Path)

  /** Lines 65-95: the placement one walk entry yields. */
  function WalkPlacement(t: Tree, root: Path, item: Path): (r: Option<Placement>)
    ensures r.Some? <==> SkillSource(t, item).Some? && SkillsDir(root) <= item
    ensures r.Some? ==>
      SkillsDir(root) + r.value.rel == item && r.value.name == Name(item)
      && Some(r.value.from) == SkillSource(t, item)
  {
    match SkillSource(t, item)
    case None => None
    case Some(from) =>
      match RelativeTo(item, SkillsDir(root))
      case None => None
      case Some(rel) => Some(Placement(rel, Name(item), from))
  }

  /** The placements of the walk, in the order `rglob("*")` enumerates. */
  function StructuredPlan(t: Tree, root: Path, items: seq<Path>): seq<Placement>
    decreases |items|
  {
    if items == [] then []
    else
      var prev := StructuredPlan(t, root, items[..|items| - 1]);
      match WalkPlacement(t, root, items[|items| - 1])
      case None => prev
      case Some(p) => prev + [p]
  }

  /** A walk entry yields a placement exactly when it is a skill under skills/. */
  lemma {:induction false} StructuredPlanMembers(t: Tree, root: Path, items: seq<Path>)
    ensures forall p | p in StructuredPlan(t, root, items) ::
      exists i | 0 <= i < |items| :: WalkPlacement(t, root, items[i]) == Some(p)
    ensures forall i | 0 <= i < |items| && WalkPlacement(t, root, items[i]).Some? ::
      WalkPlacement(t, root, items[i]).value in StructuredPlan(t, root, items)
    ensures |StructuredPlan(t, root, items)| <= |items|
    decreases |items|
  {
    if items != [] {
      var init := items[..|items| - 1];
      StructuredPlanMembers(t, root, init);
      forall p | p in StructuredPlan(t, root, items)
        ensures exists i | 0 <= i < |items| :: WalkPlacement(t, root, items[i]) == Some(p)
      {
        if p in StructuredPlan(t, root, init) {
          var i :| 0 <= i < |init| && WalkPlacement(t, root, init[i]) == Some(p);
          assert items[i] == init[i];
        }
      }
      forall i | 0 <= i < |init| ensures items[i] == init[i] { }
    }
  }

  // ---------------------------------------------------------------------------
  // Metadata entries

  /** One entry of the metadata list; `source` is absent in the flat fallback. */
  datatype SkillEntry = SkillEntry(path: string, name: string, category: string, source: Option<string>)

  /**
    Lines 110-115: the metadata of a structured placement; None where
    `relative_to` raises because the content lies outside the fetched root.
  */
  function StructuredEntry(root: Path, p: Placement): (r: Option<SkillEntry>)
    ensures r.Some? <==> root <= p.from
    ensures r.Some? ==>
      r.value == SkillEntry(Join(p.rel), p.name, Join(Parent(p.rel)), Some(Join(p.from[|root|..])))
  {
    match RelativeTo(p.from, root)
    case None => None
    case Some(src) => Some(SkillEntry(Join(p.rel), p.name, Join(Parent(p.rel)), Some(Join(src))))
  }

  /** A plugin skill still to sync: its name and the directory holding its SKILL.md. */
  datatype PluginSkill = PluginSkill(name: string, source: Path)

  /** Lines 136-141: the metadata of a plugin skill, under the fixed "plugins" category. */
  function PluginEntry(root: Path, s: PluginSkill): (r: Option<SkillEntry>)
    ensures r.Some? <==> root <= s.source
    ensures r.Some? ==>
      r.value == SkillEntry("plugins/" + s.name, s.name, "plugins", Some(Join(s.source[|root|..])))
  {
    match RelativeTo(s.source, root)
    case None => None
    case Some(src) => Some(SkillEntry("plugins/" + s.name, s.name, "plugins", Some(Join(src))))
  }

  /** Lines 186-190: the metadata of a flat-fallback skill. */
  function FlatEntry(name: string): SkillEntry {
    SkillEntry(name, name, "root", None)
  }

  // ---------------------------------------------------------------------------
  // find_plugin_skills

  /** The names already synced (line 150). */
  function NamesOf(entries: seq<SkillEntry>): set<string> {
    set e | e in entries :: e.name
  }

  /** The plugin marker files whose directory name is not among `synced`, in discovery order. */
  function PluginCandidates(files: seq<Path>, synced: set<string>): seq<PluginSkill>
    decreases |files|
  {
    if files == [] then []
    else
      var prev := PluginCandidates(files[..|files| - 1], synced);
      var d := Parent(files[|files| - 1]);
      if Name(d) !in synced then prev + [PluginSkill(Name(d), d)] else prev
  }

  /** Every candidate is a marker parent whose name was not synced, and it carries that name; there is at most one per file. */
  lemma {:induction false} PluginCandidatesSound(files: seq<Path>, synced: set<string>)
    ensures forall s | s in PluginCandidates(files, synced) ::
      s.name !in synced && exists i | 0 <= i < |files| :: s == PluginSkill(Name(Parent(files[i])), Parent(files[i]))
    ensures |PluginCandidates(files, synced)| <= |files|
    decreases |files|
  {
    if files != [] {
      var init := files[..|files| - 1];
      PluginCandidatesSound(init, synced);
      forall s | s in PluginCandidates(files, synced)
        ensures exists i | 0 <= i < |files| :: s == PluginSkill(Name(Parent(files[i])), Parent(files[i]))
      {
        if s in PluginCandidates(init, synced) {
          var i :| 0 <= i < |init| && s == PluginSkill(Name(Parent(init[i])), Parent(init[i]));
          assert files[i] == init[i];
        } else {
          assert s == PluginSkill(Name(Parent(files[|files| - 1])), Parent(files[|files| - 1]));
        }
      }
    }
  }

  /** Every marker parent whose name was not synced is a candidate. */
  lemma {:induction false} PluginCandidatesComplete(files: seq<Path>, synced: set<string>)
    ensures forall i | 0 <= i < |files| && Name(Parent(files[i])) !in synced ::
      PluginSkill(Name(Parent(files[i])), Parent(files[i])) in PluginCandidates(files, synced)
    decreases |files|
  {
    if files != [] {
      var init := files[..|files| - 1];
      PluginCandidatesComplete(init, synced);
      forall i | 0 <= i < |init| ensures files[i] == init[i] { }
    }
  }

  /** Every candidate, by position, has a name not among `synced`. */
  lemma {:induction false} PluginCandidatesFresh(files: seq<Path>, synced: set<string>)
    ensures forall i | 0 <= i < |PluginCandidates(files, synced)| :: PluginCandidates(files, synced)[i].name !in synced
    decreases |files|
  {
    if files != [] {
      var prev := PluginCandidates(files[..|files| - 1], synced);
      PluginCandidatesFresh(files[..|files| - 1], synced);
      var d := Parent(files[|files| - 1]);
      if Name(d) !in synced {
        assert PluginCandidates(files, synced) == prev + [PluginSkill(Name(d), d)];
      }
    }
  }

  /** Plugin names are not deduplicated among themselves: two fresh markers named alike both stay. */
  lemma PluginDuplicatesKept(a: Path, b: Path, synced: set<string>)
    requires Name(Parent(a)) == Name(Parent(b)) && Name(Parent(a)) !in synced
    ensures PluginCandidates([a, b], synced) ==
      [PluginSkill(Name(Parent(a)), Parent(a)), PluginSkill(Name(Parent(a)), Parent(b))]
  {
    assert [a, b][..1] == [a];
    assert [a][..0] == [];
    assert PluginCandidates([a], synced) == [PluginSkill(Name(Parent(a)), Parent(a))];
  }

  /** Lines 148-165, `find_plugin_skills`. */
  method FindPluginSkills(t: Tree, root: Path, l: Listings, alreadySynced: seq<SkillEntry>)
    returns (skills: seq<PluginSkill>)
    ensures skills == if Exists(t, GithubPluginsDir(root))
      then PluginCandidates(l.pluginMarkers, NamesOf(alreadySynced)) else []
    ensures forall s | s in skills :: s.name !in NamesOf(alreadySynced) && Name(s.source) == s.name
  {
    var syncedNames := NamesOf(alreadySynced);
    skills := [];
    if Exists(t, GithubPluginsDir(root)) {
      var i := 0;
      while i < |l.pluginMarkers|
        invariant 0 <= i <= |l.pluginMarkers|
        invariant skills == PluginCandidates(l.pluginMarkers[..i], syncedNames)
      {
        var dir := Parent(l.pluginMarkers[i]);
        if Name(dir) !in syncedNames {
          skills := skills + [PluginSkill(Name(dir), dir)];
        }
        assert l.pluginMarkers[..i + 1][..i] == l.pluginMarkers[..i];
        i := i + 1;
      }
      assert l.pluginMarkers[..i] == l.pluginMarkers;
      PluginCandidatesSound(l.pluginMarkers, syncedNames);
    }
  }
}
