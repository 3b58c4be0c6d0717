# Microsoft skills sync: a Dafny model

This project models two scripts of the skills repository over an abstract file tree.

- **The sync script** (`scripts/sync_microsoft_skills.py`) mirrors the upstream Microsoft skills repository into `skills/official/microsoft`. The model covers:
  - the flat, name-keyed discovery of `.github/skills` and `.github/plugins`;
  - the structure-preserving walk over `skills/`, which follows one link hop and places each skill at its own path;
  - the supplemental pass over plugin skills whose names were not synced yet;
  - the flat fallback used when `skills/` is absent;
  - the in-place copy into the output tree;
  - the attribution record and the category summary of `main`.
- **The coverage checker** (`scripts/tests/test_comprehensive_coverage.py`) puts every `SKILL.md` into a location bucket. It then counts the "handled" buckets, draws a verdict, and lists the plain skills under `skills/`.

The files:

- `file_tree.dfy` (module `FileTree`) is the disk as pathlib sees it.
  - A tree maps absolute paths to a directory (its entries in `iterdir` order), a regular file, or a symbolic link.
  - `exists`, `is_dir` and `is_file` follow one hop of a link; `is_symlink` does not.
- `discovery.dfy` (module `SkillDiscovery`) covers what is selected and where it goes.
  - `find_all_skills` is a loop over a dictionary that keeps insertion order.
  - The walk decides, entry by entry, what becomes a placement.
  - The plugin pass filters by name.
- `sync.dfy` (module `SkillSync`) covers the copying and the bookkeeping.
  - The output is a class `Target` whose `files` map the copy methods update in place.
  - A run is a list of jobs (content, destination, metadata) folded by `RunJobs`. A raise ends the run, after the files of the raising skill when the raise comes from `relative_to`.
  - Each imperative loop is proved to leave exactly the files and the metadata that fold describes.
- `coverage.dfy` (module `Coverage`) covers the classifier.
  - The substring tests run on `str(path)`, and the ancestor loop of lines 59-65 is modelled with its `break`s.
  - The defaultdict of lists, the five defaultdict reads, the verdicts, and the scan for plain skills are modelled as well.

The file system's enumeration orders are inputs: `iterdir` of `.github/skills`, `rglob("SKILL.md")` under `.github/plugins`, `rglob("*")` under `skills/`, and `rglob("SKILL.md")` over the whole clone. Facts about what those listings contain are hypotheses of the lemmas that need them, never preconditions of the operations.

Worth knowing about the code:

- The code does not deduplicate plugin names among themselves (`PluginDuplicatesKept`). Two plugin skills with the same name are both counted in `synced_skills`, but both are copied to the same `plugins/<name>` directory.
- The category is `str(relative_path.parent)`, which is `"."` for a skill directly in `skills/`. A skill directly in `skills/root/` gets category `"root"`, which the summary then skips (`StructuredCategory`).
- For an empty clone, the analysis prints "100% Coverage" because `0 == 0`. The final verdict computes 0% and says the script may need enhancement (`EmptyRepositoryVerdicts`).

## Model

| member | source | states |
|---|---|---|
| FileTree.ResolveLink | scripts/sync_microsoft_skills.py:76-78 | a link that resolves always lands on a path present in the tree |
| FileTree.ResolveLinkCases | scripts/sync_microsoft_skills.py:75-82 | a link resolves to its own target; the result is "broken" exactly for a link whose target is missing, and "no link" exactly when the entry is not a link |
| FileTree.RelativeTo | scripts/sync_microsoft_skills.py:92 | `relative_to` succeeds exactly when the base is a prefix, and then base plus the result is the path |
| SkillDiscovery.SkillIndex.Set | scripts/sync_microsoft_skills.py:33-42 | dictionary assignment: a new key is appended to the key order, an existing key keeps its place, and validity is preserved |
| SkillDiscovery.GithubStageSound | scripts/sync_microsoft_skills.py:29-33 | the `.github/skills` loop keeps the dictionary keyed by base name, with every directory holding SKILL.md; every new key maps to a directory from the listing |
| SkillDiscovery.GithubStageAdds | scripts/sync_microsoft_skills.py:29-33 | every listed entry of `.github/skills` that is a directory holding SKILL.md is keyed by its name afterwards |
| SkillDiscovery.PluginStageMarked | scripts/sync_microsoft_skills.py:36-42 | given a listing of existing SKILL.md files, every directory the plugin loop adds holds SKILL.md |
| SkillDiscovery.PluginStageKeeps | scripts/sync_microsoft_skills.py:41-42 | a `.github/skills` entry is never replaced by a plugin of the same name, and the earlier key order is a prefix of the new one |
| SkillDiscovery.PluginStageOnly | scripts/sync_microsoft_skills.py:38-42 | every key the plugin loop adds is the name of the parent of some plugin SKILL.md |
| SkillDiscovery.PluginStageAdds | scripts/sync_microsoft_skills.py:38-42 | the name of the parent of every plugin SKILL.md is a key after the plugin loop |
| SkillDiscovery.PluginFirstWins | scripts/sync_microsoft_skills.py:38-42 | of the plugin SKILL.md files with a fresh name, the first one met supplies the directory |
| SkillDiscovery.PluginNamesKeyed | scripts/sync_microsoft_skills.py:38-42 | for any listing, the plugin loop keeps every key equal to the base name of its directory |
| SkillDiscovery.FindAllSkills | scripts/sync_microsoft_skills.py:24-44 | the two loops build exactly the merged dictionary, which is valid and keyed by base name |
| SkillDiscovery.AllSkillsMarked | scripts/sync_microsoft_skills.py:24-44 | with a well-formed plugin listing, every directory `find_all_skills` returns contains SKILL.md |
| SkillDiscovery.SkillSource | scripts/sync_microsoft_skills.py:67-88 | a walk entry supplies content exactly when it is a link whose resolved target is a directory holding SKILL.md, or a plain directory holding SKILL.md; the content is the resolved path; a broken link supplies none |
| SkillDiscovery.WalkPlacement | scripts/sync_microsoft_skills.py:65-95 | an entry is placed exactly when it supplies content and lies under `skills/`; the placement's path is the entry's path below `skills/`, its name is the entry's own name, and its content is the resolved directory |
| SkillDiscovery.StructuredPlanMembers | scripts/sync_microsoft_skills.py:65-95 | the walk's placements are exactly those of the listed entries that yield one, at most one per entry |
| SkillDiscovery.StructuredEntry | scripts/sync_microsoft_skills.py:110-115 | a walk skill's metadata: path, own name, parent of the path as category, and source relative to the clone; absent exactly when the source lies outside the clone |
| SkillDiscovery.PluginEntry | scripts/sync_microsoft_skills.py:136-141 | a plugin skill's metadata: `plugins/<name>`, its name, category "plugins", and its source relative to the clone; absent exactly when the source lies outside the clone |
| SkillDiscovery.PluginCandidatesSound | scripts/sync_microsoft_skills.py:150-165 | the plugin pass returns only parents of plugin SKILL.md files whose names were not synced, each with its own name, at most one per file |
| SkillDiscovery.PluginCandidatesComplete | scripts/sync_microsoft_skills.py:150-165 | the plugin pass returns every parent of a plugin SKILL.md whose name was not synced |
| SkillDiscovery.PluginCandidatesFresh | scripts/sync_microsoft_skills.py:150-159 | no skill the plugin pass returns has an already-synced name |
| SkillDiscovery.PluginDuplicatesKept | scripts/sync_microsoft_skills.py:155-163 | two fresh plugin skills with one name are both returned, in order |
| SkillDiscovery.FindPluginSkills | scripts/sync_microsoft_skills.py:148-165 | the loop returns the candidates in discovery order, or nothing when `.github/plugins` is missing; each result's name is fresh and is the base name of its directory |
| SkillSync.CopiedFilesShape | scripts/sync_microsoft_skills.py:105-107 | the sibling copies are children of the destination, each a copy of the same-named regular file of the source, and none is SKILL.md |
| SkillSync.CopiedFilesComplete | scripts/sync_microsoft_skills.py:105-107 | every regular file among the listed entries other than SKILL.md is copied into the destination under its own name, with its content |
| SkillSync.SkillFilesShape | scripts/sync_microsoft_skills.py:101-107 | one skill copy writes only direct children of the destination, each a copy of the same-named file of the source; SKILL.md and every other regular file directly inside the source land there with their content |
| SkillSync.Target.constructor | scripts/sync_microsoft_skills.py:237-238 | the output tree starts with the files already present |
| SkillSync.Target.CopySkill | scripts/sync_microsoft_skills.py:98-107 | succeeds exactly when the source's SKILL.md is a regular file; overlays SKILL.md and every sibling regular file onto the output, and leaves the output unchanged when the copy of SKILL.md raises |
| SkillSync.RunJobs | scripts/sync_microsoft_skills.py:97-117 | a run writes the files of at most all its jobs and records at most one entry per job written; a run that does not raise writes and records every job |
| SkillSync.StructuredJobs | scripts/sync_microsoft_skills.py:98-115 | one job per walk placement |
| SkillSync.PluginJobs | scripts/sync_microsoft_skills.py:125-141 | one job per plugin skill |
| SkillSync.FlatJobs | scripts/sync_microsoft_skills.py:174-190 | one job per dictionary key, in insertion order |
| SkillSync.AllSkillsValid | scripts/sync_microsoft_skills.py:24-44 | the flat dictionary is always valid and keyed by base name |
| SkillSync.RunJobsSticky | scripts/sync_microsoft_skills.py:276-280 | once a skill has raised, later skills change neither the output nor the metadata |
| SkillSync.PerformedSkip | scripts/sync_microsoft_skills.py:101-102 | a skill whose SKILL.md is not a regular file, or any skill after a raise, adds no file |
| SkillSync.PerformedCopy | scripts/sync_microsoft_skills.py:101-115 | a skill whose SKILL.md is a regular file adds its files, even when computing its metadata raises afterwards |
| SkillSync.RunJobsCompleted | scripts/sync_microsoft_skills.py:109-117 | a run that did not raise recorded each job's metadata in order, and every job's SKILL.md was a regular file |
| SkillSync.WrittenOverlay | scripts/sync_microsoft_skills.py:99-107 | copying over existing files overlays the same writes onto them |
| SkillSync.WrittenFrame | scripts/sync_microsoft_skills.py:99-107 | no file is deleted, and a file outside every destination keeps its content |
| SkillSync.WrittenNew | scripts/sync_microsoft_skills.py:98-107 | every new file sits directly inside some skill's destination |
| SkillSync.PerformedPlacesMarkers | scripts/sync_microsoft_skills.py:101-102 | after a run that did not raise, every destination holds a SKILL.md |
| SkillSync.WrittenKeeps | scripts/sync_microsoft_skills.py:101-102 | a copied SKILL.md stays in the output whatever is written after it |
| SkillSync.PerformedIdempotent | scripts/sync_microsoft_skills.py:101-107 | repeating the same copies over their own output changes nothing |
| SkillSync.SyncIdempotent | scripts/sync_microsoft_skills.py:46-146 | syncing twice against an unchanged source gives the files that syncing once gives |
| SkillSync.SyncFrame | scripts/sync_microsoft_skills.py:46-146 | the sync never deletes, adds files only directly inside its destinations, and leaves every other file as it was |
| SkillSync.StructuredIgnoresGithubSkills | scripts/sync_microsoft_skills.py:58-59 | when `skills/` exists, the `.github/skills` listing has no effect on what is synced |
| SkillSync.RunJobsAppend | scripts/sync_microsoft_skills.py:120-146 | the plugin pass continues the walk's count and metadata where the walk stopped |
| SkillSync.WalkNames | scripts/sync_microsoft_skills.py:109-121 | after a completed walk, every placement's name is among the synced names handed to the plugin pass |
| SkillSync.PluginPassFresh | scripts/sync_microsoft_skills.py:148-159 | the plugin pass skips every name already synced |
| SkillSync.StructuredOutcome | scripts/sync_microsoft_skills.py:61-146 | a structured run that did not raise records one entry per walk placement, in walk order, then one per plugin skill; no plugin skill shares a name with a walk placement |
| SkillSync.StructuredWalkFiles | scripts/sync_microsoft_skills.py:61-117 | a structured run that did not raise leaves SKILL.md at official/microsoft/<relative path> for every walk placement |
| SkillSync.StructuredPluginFiles | scripts/sync_microsoft_skills.py:119-146 | a structured run that did not raise leaves SKILL.md at official/microsoft/plugins/<name> for every skill of the plugin pass |
| SkillSync.WalkEntries | scripts/sync_microsoft_skills.py:109-117 | a completed walk recorded each placement's metadata, in order |
| SkillSync.PluginEntries | scripts/sync_microsoft_skills.py:136-143 | a completed plugin pass recorded each plugin skill's metadata, in order |
| SkillSync.StructuredSplit | scripts/sync_microsoft_skills.py:120-146 | a structured run that did not raise is a completed walk followed by a completed plugin pass over the names that walk recorded |
| SkillSync.FlatOutcome | scripts/sync_microsoft_skills.py:167-195 | without `skills/`, a run that did not raise puts each dictionary key at `official/microsoft/<name>` with SKILL.md, and records path and name equal to the key, category "root" and no source |
| SkillSync.SyncPreserveStructure | scripts/sync_microsoft_skills.py:46-146 | the output and the `(count, metadata)` pair, or the exception, are those of the jobs of the walk and then the plugin pass, or of the flat fallback when `skills/` is missing |
| SkillSync.SyncWalk | scripts/sync_microsoft_skills.py:61-118 | the walk loop leaves the output, metadata and exception of its placements' jobs, with count equal to the metadata's length |
| SkillSync.CopyAndRecord | scripts/sync_microsoft_skills.py:101-117 | one iteration copies, then records or raises, as one more step of the run |
| SkillSync.WalkItem | scripts/sync_microsoft_skills.py:65-118 | one walk entry is skipped or adds the job of its placement |
| SkillSync.SyncPlugins | scripts/sync_microsoft_skills.py:120-144 | the plugin loop continues the walk's run with one job per plugin skill, with count equal to the metadata's length |
| SkillSync.WalkPrefix | scripts/sync_microsoft_skills.py:65-118 | the walk's outcome after a raise, or at the end of the listing, is the outcome of the whole walk |
| SkillSync.SyncFlat | scripts/sync_microsoft_skills.py:167-195 | the fallback loop leaves the output and outcome of one flat job per dictionary key, in insertion order |
| SkillSync.CreateAttribution | scripts/sync_microsoft_skills.py:197-206 | the record's `synced_skills` equals the length of its `skills` list, which is the metadata; source "microsoft/skills", license "MIT" |
| SkillSync.FirstSegment | scripts/sync_microsoft_skills.py:261 | the result is a prefix without "/", followed in the category by "/" when shorter |
| SkillSync.Summary | scripts/sync_microsoft_skills.py:257-261 | the summary set is the first segment of each category other than "root", and no member contains "/" |
| SkillSync.FirstSegmentOfJoin | scripts/sync_microsoft_skills.py:261 | the first segment of a joined path is its first component |
| SkillSync.StructuredCategory | scripts/sync_microsoft_skills.py:113 | a walk skill's summary category is the top folder of its path under `skills/`, or "." for a skill directly in `skills/`; its category is "root" exactly when it sits directly in `skills/root/` |
| SkillSync.Run | scripts/sync_microsoft_skills.py:225-282 | `main` returns 0 exactly when the sync does not raise, with the attribution record and the summary of the metadata; otherwise it returns 1 with neither |
| Coverage.AbsStringBelow | scripts/tests/test_comprehensive_coverage.py:43-47 | the string of a path below a base is the base's string, "/", then the rest |
| Coverage.GithubSkillsPathString | scripts/tests/test_comprehensive_coverage.py:43 | a path below `<root>/.github/skills` contains ".github/skills" |
| Coverage.GithubPluginsPathString | scripts/tests/test_comprehensive_coverage.py:45 | a path below `<root>/.github/plugins` contains ".github/plugins" |
| Coverage.SkillsPathString | scripts/tests/test_comprehensive_coverage.py:47 | a path below `<root>/skills` contains "/skills/" |
| Coverage.HasSymlinkParent | scripts/tests/test_comprehensive_coverage.py:59-65 | the loop over the parents, nearest first, finds a link exactly when one comes before the stop directory |
| Coverage.SymlinkParentBelow | scripts/tests/test_comprehensive_coverage.py:58-65 | below the stop directory, the loop finds a link exactly when some ancestor strictly between it and the path is a link |
| Coverage.ClassifyGithubSkills | scripts/tests/test_comprehensive_coverage.py:43-44 | every SKILL.md below `.github/skills` is tallied there |
| Coverage.ClassifyGithubPlugins | scripts/tests/test_comprehensive_coverage.py:43-46 | every SKILL.md below `.github/plugins` is tallied in one of the two `.github` buckets |
| Coverage.ClassifySkills | scripts/tests/test_comprehensive_coverage.py:47-70 | a SKILL.md below `skills/` whose path names neither `.github` folder is always tallied: symlinked exactly when its directory is a link, via a link parent exactly when it is not and some ancestor strictly below `skills/` is, and direct otherwise |
| Coverage.LocationType | scripts/tests/test_comprehensive_coverage.py:39-74 | the tests run in order: ".github/skills", ".github/plugins", "/skills/" with the ancestor checks, or "other"; a "/skills/" path outside `<root>/skills` is tallied nowhere |
| Coverage.BucketedSound | scripts/tests/test_comprehensive_coverage.py:37-74 | a bucket lists only files classified into it |
| Coverage.BucketedComplete | scripts/tests/test_comprehensive_coverage.py:37-74 | a bucket lists every file classified into it |
| Coverage.Partition | scripts/tests/test_comprehensive_coverage.py:37-74 | every file lands in exactly one bucket or in none: the bucket sizes plus the untallied files add up to the total |
| Coverage.Append | scripts/tests/test_comprehensive_coverage.py:44 | an append to a defaultdict of lists adds the key if missing and extends only that key's list |
| Coverage.TallyBuckets | scripts/tests/test_comprehensive_coverage.py:37-74 | the dictionary has a key exactly for each non-empty bucket, mapped to the bucket's files in order |
| Coverage.TallyLocations | scripts/tests/test_comprehensive_coverage.py:37-74 | the loop builds that dictionary |
| Coverage.Touch | scripts/tests/test_comprehensive_coverage.py:102-106 | a defaultdict read adds the key with an empty list if missing and changes nothing else |
| Coverage.TouchReadsDefault | scripts/tests/test_comprehensive_coverage.py:102-106 | the five reads add their keys with empty lists where missing and change nothing else |
| Coverage.ReadsBreakdown | scripts/tests/test_comprehensive_coverage.py:186-190 | after the reads, the dictionary's sizes are the breakdown: the five keys read, and Other when a file landed there |
| Coverage.ReadsBuckets | scripts/tests/test_comprehensive_coverage.py:102-106 | after the reads every key holds its bucket's files, and a bucket no file landed in holds the empty list |
| Coverage.ReadsKeys | scripts/tests/test_comprehensive_coverage.py:102-106 | after the reads the keys are the five read, plus Other exactly when some file landed there |
| Coverage.SizesBreakdown | scripts/tests/test_comprehensive_coverage.py:189 | turning such a dictionary into sizes gives the breakdown |
| Coverage.TallyCounts | scripts/tests/test_comprehensive_coverage.py:102-106 | each `len(location_types[...])` is the size of that bucket, 0 for an empty one |
| Coverage.ReadCounts | scripts/tests/test_comprehensive_coverage.py:102-133 | the five reads add their keys with empty lists where missing and change nothing else, and handled is the sum of the four handled counts |
| Coverage.TallyAndCount | scripts/tests/test_comprehensive_coverage.py:37-189 | the handled sum is that of the four handled buckets and the breakdown is the bucket sizes over the keys present after the reads |
| Coverage.AnalysisVerdict | scripts/tests/test_comprehensive_coverage.py:138-144 | full coverage exactly when handled equals total; near-full exactly when it does not but `100*handled >= 99*total`; partial otherwise |
| Coverage.HandledShortfall | scripts/tests/test_comprehensive_coverage.py:132-133 | handled is at most the total and falls short of it by exactly the via-link-parent, other and untallied files |
| Coverage.HandledAll | scripts/tests/test_comprehensive_coverage.py:132-138 | handled equals the total exactly when every file lands in a handled bucket |
| Coverage.BreakdownCountsTallied | scripts/tests/test_comprehensive_coverage.py:186-190 | the breakdown's counts sum to the total minus the untallied files, so never exceed the total |
| Coverage.AnalyzeSkillLocations | scripts/tests/test_comprehensive_coverage.py:14-190 | the result holds the total, the handled sum of the four handled buckets, and the breakdown; the verdict and the scan of `skills/` are those of the specification functions |
| Coverage.NonSymlinkSkills | scripts/tests/test_comprehensive_coverage.py:158-173 | the scan keeps, in order, the listed entries that are plain directories with SKILL.md and no link among the ancestors it visits before `skills/` |
| Coverage.PlainSkillsMembers | scripts/tests/test_comprehensive_coverage.py:158-173 | for a listing below `skills/`, the scan keeps exactly the plain directories with SKILL.md and no linked ancestor strictly below `skills/` |
| Coverage.PlainSkillsAreSynced | scripts/tests/test_comprehensive_coverage.py:179 | every kept skill is placed by the sync walk at its own path under `skills/`, with its own name and itself as content |
| Coverage.CoveragePercent | scripts/tests/test_comprehensive_coverage.py:200 | the percentage is 0 for an empty clone and otherwise `100*handled/total` |
| Coverage.Comprehensive | scripts/tests/test_comprehensive_coverage.py:205 | the final verdict is positive exactly when the total is positive and `100*handled >= 99*total` |
| Coverage.EmptyRepositoryVerdicts | scripts/tests/test_comprehensive_coverage.py:200-209 | an empty clone gets full coverage from the analysis but a negative final verdict |
| Coverage.VerdictsAgree | scripts/tests/test_comprehensive_coverage.py:200-209 | for a non-empty clone, the final verdict is positive exactly when the analysis says full or near-full |

## Left out

- Cloning with `git` and the temporary directory's lifetime are not modelled (lines 16-22 and 230 of the sync script, 22-30 of the checker). The clone is the tree given as input.
- The file system's enumeration orders are inputs. The model does not decide whether `rglob` descends into linked directories.
- `iterdir` on a path that is not a directory yields nothing here; Python would raise.
- Links are followed one hop, to an absolute, normalised target. Chains of links and relative targets are not modelled.
- `mkdir` is not modelled: directories in the output are implicit in file paths, and a `FileExistsError` from a destination that is a file is left out.
- `copy2` copies content only. Timestamps and permissions are not modelled.
- I/O failures of `copy2` are not modelled, apart from a SKILL.md that is not a regular file. A permission error, a full disk or a sibling that vanishes mid-copy would leave SKILL.md and some siblings written before `main` returns 1 (lines 276-280); `RunState` has no such partial-copy state.
- `SkillSync.Run` returns the attribution record as a value. The JSON file write (lines 211-212 of the sync script) and `indent=2` are left out.
- `copy_documentation` is left out: it makes two conditional copies of LICENSE and README.
- Printing, emoji and the display of the first ten categories are left out. The checker's display of files per bucket (lines 76-96) and the files not covered (lines 145-148) are also left out.
- The checker's `unknown` bucket is left out. It only catches an OS error raised while testing links (lines 71-72).
- The count of the via-link-parent bucket (line 106) is only printed. The model reads that key but keeps no variable for it.
- Coverage.AnalysisVerdict: compares `100*handled >= 99*total` exactly, not the floating-point `handled >= total * 0.99`.
- Coverage.Comprehensive: compares the percentage as an exact real, not a float.
- `scripts/tests/inspect_microsoft_repo.py` is not part of this model. It is a print-only diagnostic whose tally repeats the checker's substring tests.
- The coverage checker's process exit code and its exception handler (lines 212-215) are left out.
