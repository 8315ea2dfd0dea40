/** Start-up integrity repair (_repair_integrity in app/db.py): orphan and duplicate rows
    are deleted statement by statement, with or without the cascading delete triggers.

    A table maps row ids to rows.  `key` is what a table's uniqueness key holds beside the
    parent id.  A DELETE removes a set of rows at once, and its triggers the rows below. */
module IntegrityRepair {
  import opened Wrappers

  type Id = string
  type RowId = nat

  datatype Row<K> = Row(id: Id, parent: Id, key: K)
  type Table<K> = map<RowId, Row<K>>

  datatype SceneKey = SceneKey(kind: Option<string>, versionNo: int)
  datatype SegmentKey = SegmentKey(name: string, epStart: int)
  datatype Job = Job(project: Option<Id>, episode: Option<Id>, shot: Option<Id>, version: Option<Id>)

  datatype Db = Db(
    projects: set<Id>,
    episodes: Table<int>, shots: Table<int>, versions: Table<int>, scenes: Table<SceneKey>,
    chapters: Table<int>, portraits: Table<SegmentKey>, references: Table<SegmentKey>,
    jobs: map<RowId, Job>,
    cascades: bool)

  // ----- Tables -----

  function Ids<K>(t: Table<K>): set<Id> {
    set r | r in t :: t[r].id
  }

  /** The ids of some of the rows. */
  function IdsOf<K>(t: Table<K>, rows: set<RowId>): set<Id> {
    set r | r in rows && r in t :: t[r].id
  }

  predicate SameGroup<K(==)>(t: Table<K>, a: RowId, b: RowId) {
    a in t && b in t && t[a].parent == t[b].parent && t[a].key == t[b].key
  }

  /** The lowest row id of its duplicate group. */
  ghost predicate Least<K>(t: Table<K>, r: RowId) {
    r in t && forall q :: SameGroup(t, q, r) ==> r <= q
  }

  function Orphans<K>(t: Table<K>, parents: set<Id>): set<RowId> {
    set r | r in t && t[r].parent !in parents
  }

  function RowsUnder<K>(t: Table<K>, parents: set<Id>): set<RowId> {
    set r | r in t && t[r].parent in parents
  }

  predicate HasLower<K(==)>(t: Table<K>, r: RowId) {
    exists q :: q in t && q < r && SameGroup(t, q, r)
  }

  function Duplicates<K(==)>(t: Table<K>): set<RowId> {
    set r | r in t && HasLower(t, r)
  }

  /** The rows with a parent. */
  ghost function Under<K>(t: Table<K>, parents: set<Id>): Table<K> {
    map r | r in t && t[r].parent in parents :: t[r]
  }

  /** The rows with a parent, one of each duplicate group. */
  ghost function Kept<K>(t: Table<K>, parents: set<Id>): Table<K> {
    map r | r in t && t[r].parent in parents && Least(t, r) :: t[r]
  }

  predicate UniqueIds<K>(t: Table<K>) {
    forall a, b :: a in t && b in t && t[a].id == t[b].id ==> a == b
  }

  predicate OrphanFree<K>(t: Table<K>, parents: set<Id>) {
    forall r :: r in t ==> t[r].parent in parents
  }

  ghost predicate DuplicateFree<K>(t: Table<K>) {
    forall a, b :: SameGroup(t, a, b) ==> a == b
  }

  // ----- Statements -----

  predicate Refers(ref: Option<Id>, ids: set<Id>) {
    ref.Some? && ref.value in ids
  }

  predicate Found(ref: Option<Id>, ids: set<Id>) {
    ref.None? || ref.value in ids
  }

  /** None of the job's references dangles. */
  predicate Intact(d: Db, j: Job) {
    && Found(j.project, d.projects) && Found(j.episode, Ids(d.episodes))
    && Found(j.shot, Ids(d.shots)) && Found(j.version, Ids(d.versions))
  }

  function DropVersions(d: Db, rows: set<RowId>): Db {
    var gone := IdsOf(d.versions, rows);
    d.(versions := d.versions - rows,
       jobs := if d.cascades then map r | r in d.jobs && !Refers(d.jobs[r].version, gone) :: d.jobs[r] else d.jobs)
  }

  function DropShots(d: Db, rows: set<RowId>): Db {
    var gone := IdsOf(d.shots, rows);
    var e := d.(shots := d.shots - rows);
    if !d.cascades then e
    else
      var f := DropVersions(e, RowsUnder(e.versions, gone));
      f.(scenes := f.scenes - RowsUnder(f.scenes, gone),
         jobs := map r | r in f.jobs && !Refers(f.jobs[r].shot, gone) :: f.jobs[r])
  }

  function DropEpisodes(d: Db, rows: set<RowId>): Db {
    var gone := IdsOf(d.episodes, rows);
    var e := d.(episodes := d.episodes - rows);
    if !d.cascades then e
    else
      var f := DropShots(e, RowsUnder(e.shots, gone));
      f.(jobs := map r | r in f.jobs && !Refers(f.jobs[r].episode, gone) :: f.jobs[r])
  }

  function DropOrphanJobs(d: Db): Db {
    d.(jobs := map r | r in d.jobs && Intact(d, d.jobs[r]) :: d.jobs[r])
  }

  predicate Blank(kind: Option<string>) {
    kind.None? || forall i :: 0 <= i < |kind.value| ==> kind.value[i] == ' '
  }

  function Tailed(t: Table<SceneKey>): Table<SceneKey> {
    map r | r in t :: if Blank(t[r].key.kind) then t[r].(key := t[r].key.(kind := Some("tail"))) else t[r]
  }

  function DropOrphanVersions(d: Db): Db { DropVersions(d, Orphans(d.versions, Ids(d.shots))) }

  function DropOrphanScenes(d: Db): Db { d.(scenes := d.scenes - Orphans(d.scenes, Ids(d.shots))) }

  function DropOrphanShots(d: Db): Db { DropShots(d, Orphans(d.shots, Ids(d.episodes))) }

  function DropOrphanEpisodes(d: Db): Db { DropEpisodes(d, Orphans(d.episodes, d.projects)) }

  function DropOrphanLeaves(d: Db): Db {
    d.(chapters := d.chapters - Orphans(d.chapters, d.projects),
       portraits := d.portraits - Orphans(d.portraits, d.projects),
       references := d.references - Orphans(d.references, d.projects))
  }

  function DedupeParents(d: Db): Db {
    var e := DropEpisodes(d, Duplicates(d.episodes));
    DropShots(e, Duplicates(e.shots))
  }

  function DedupeChildren(d: Db): Db {
    var e := DropVersions(d, Duplicates(d.versions));
    e.(scenes := e.scenes - Duplicates(e.scenes))
  }

  function DedupeLeaves(d: Db): Db {
    d.(chapters := d.chapters - Duplicates(d.chapters),
       portraits := d.portraits - Duplicates(d.portraits),
       references := d.references - Duplicates(d.references))
  }

  function CleanUp(d: Db): Db {
    DropOrphanJobs(DropOrphanLeaves(DropOrphanEpisodes(DropOrphanShots(DropOrphanScenes(DropOrphanVersions(d))))))
  }

  function Dedupe(d: Db): Db {
    DedupeLeaves(DedupeChildren(DedupeParents(d)))
  }

  function CleanUpAgain(d: Db): Db {
    DropOrphanJobs(DropOrphanShots(DropOrphanScenes(DropOrphanVersions(d))))
  }

  /** One run of the script. */
  function Repaired(d: Db): Db {
    CleanUpAgain(Dedupe(CleanUp(d.(scenes := Tailed(d.scenes)))))
  }

  // ----- The script -----

  class Database {
    const projects: set<Id>
    const cascades: bool
    var episodes: Table<int>
    var shots: Table<int>
    var versions: Table<int>
    var scenes: Table<SceneKey>
    var chapters: Table<int>
    var portraits: Table<SegmentKey>
    var references: Table<SegmentKey>
    var jobs: map<RowId, Job>

    function State(): Db reads this {
      Db(projects, episodes, shots, versions, scenes, chapters, portraits, references, jobs, cascades)
    }

    method DeleteVersions(rows: set<RowId>)
      modifies this`versions, this`jobs
      ensures State() == DropVersions(old(State()), rows)
    {
      var gone := IdsOf(versions, rows);
      versions := versions - rows;
      if cascades {
        jobs := map r | r in jobs && !Refers(jobs[r].version, gone) :: jobs[r];
      }
    }

    method DeleteShots(rows: set<RowId>)
      modifies this`shots, this`versions, this`scenes, this`jobs
      ensures State() == DropShots(old(State()), rows)
    {
      var gone := IdsOf(shots, rows);
      shots := shots - rows;
      if cascades {
        DeleteVersions(RowsUnder(versions, gone));
        scenes := scenes - RowsUnder(scenes, gone);
        jobs := map r | r in jobs && !Refers(jobs[r].shot, gone) :: jobs[r];
      }
    }

    method DeleteEpisodes(rows: set<RowId>)
      modifies this`episodes, this`shots, this`versions, this`scenes, this`jobs
      ensures State() == DropEpisodes(old(State()), rows)
    {
      var gone := IdsOf(episodes, rows);
      episodes := episodes - rows;
      if cascades {
        DeleteShots(RowsUnder(shots, gone));
        jobs := map r | r in jobs && !Refers(jobs[r].episode, gone) :: jobs[r];
      }
    }

    method DeleteOrphanJobs()
      modifies this`jobs
      ensures State() == DropOrphanJobs(old(State()))
    {
      jobs := map r | r in jobs && Intact(State(), jobs[r]) :: jobs[r];
    }

    method DeleteOrphanScenes()
      modifies this`scenes
      ensures State() == DropOrphanScenes(old(State()))
    {
      scenes := scenes - Orphans(scenes, Ids(shots));
    }

    method DeleteOrphans()
      modifies this
      ensures State() == CleanUp(old(State()))
    {
      DeleteVersions(Orphans(versions, Ids(shots)));
      DeleteOrphanScenes();
      DeleteShots(Orphans(shots, Ids(episodes)));
      DeleteEpisodes(Orphans(episodes, projects));
      chapters := chapters - Orphans(chapters, projects);
      portraits := portraits - Orphans(portraits, projects);
      references := references - Orphans(references, projects);
      DeleteOrphanJobs();
    }

    method DeleteDuplicates()
      modifies this
      ensures State() == Dedupe(old(State()))
    {
      chapters := chapters - Duplicates(chapters);
      DeleteEpisodes(Duplicates(episodes));
      DeleteShots(Duplicates(shots));
      DeleteVersions(Duplicates(versions));
      scenes := scenes - Duplicates(scenes);
      portraits := portraits - Duplicates(portraits);
      references := references - Duplicates(references);
    }

    method DeleteNewOrphans()
      modifies this
      ensures State() == CleanUpAgain(old(State()))
    {
      DeleteVersions(Orphans(versions, Ids(shots)));
      DeleteOrphanScenes();
      DeleteShots(Orphans(shots, Ids(episodes)));
      DeleteOrphanJobs();
    }

    /** The script of _repair_integrity. */
    method Repair()
      modifies this
      ensures State() == Repaired(old(State()))
    {
      scenes := Tailed(scenes);
      DeleteOrphans();
      DeleteDuplicates();
      DeleteNewOrphans();
    }
  }

  // ----- What a repaired database is -----

  /** The rows that ought to survive, table by table from the projects down: those whose
      parent survives and whose row id is the lowest of their duplicate group. */
  ghost function Sound(d: Db): Db {
    var episodes := Kept(d.episodes, d.projects);
    var shots := Kept(d.shots, Ids(episodes));
    var e := d.(episodes := episodes, shots := shots,
                versions := Kept(d.versions, Ids(shots)),
                scenes := Kept(Tailed(d.scenes), Ids(shots)),
                chapters := Kept(d.chapters, d.projects),
                portraits := Kept(d.portraits, d.projects),
                references := Kept(d.references, d.projects));
    DropOrphanJobs(e)
  }

  ghost predicate NoOrphans(d: Db) {
    && OrphanFree(d.episodes, d.projects) && OrphanFree(d.shots, Ids(d.episodes))
    && OrphanFree(d.versions, Ids(d.shots)) && OrphanFree(d.scenes, Ids(d.shots))
    && OrphanFree(d.chapters, d.projects) && OrphanFree(d.portraits, d.projects) && OrphanFree(d.references, d.projects)
    && forall r :: r in d.jobs ==> Intact(d, d.jobs[r])
  }

  ghost predicate NoDuplicates(d: Db) {
    && DuplicateFree(d.episodes) && DuplicateFree(d.shots) && DuplicateFree(d.versions) && DuplicateFree(d.scenes)
    && DuplicateFree(d.chapters) && DuplicateFree(d.portraits) && DuplicateFree(d.references)
  }

  lemma KeptIsClean<K>(t: Table<K>, parents: set<Id>)
    ensures OrphanFree(Kept(t, parents), parents) && DuplicateFree(Kept(t, parents))
  {
    var k := Kept(t, parents);
    forall a, b | SameGroup(k, a, b) ensures a == b {
      assert SameGroup(t, a, b) && SameGroup(t, b, a);
    }
  }

  /** A sound database passes every integrity check. */
  lemma SoundIsClean(d: Db)
    ensures NoOrphans(Sound(d)) && NoDuplicates(Sound(d))
  {
    var s := Sound(d);
    KeptIsClean(d.episodes, d.projects);
    KeptIsClean(d.shots, Ids(s.episodes));
    KeptIsClean(d.versions, Ids(s.shots));
    KeptIsClean(Tailed(d.scenes), Ids(s.shots));
    KeptIsClean(d.chapters, d.projects);
    KeptIsClean(d.portraits, d.projects);
    KeptIsClean(d.references, d.projects);
    assert forall j: Job :: Intact(s, j) <==> Intact(s.(jobs := map[]), j);
  }

  // ----- Table algebra -----

  lemma WithoutOrphans<K>(t: Table<K>, parents: set<Id>)
    ensures t - Orphans(t, parents) == Under(t, parents)
  {
  }

  lemma {:induction false} GroupHasLeast<K>(t: Table<K>, r: RowId) returns (q: RowId)
    requires r in t
    ensures Least(t, q) && SameGroup(t, q, r)
    decreases r
  {
    if p :| p in t && p < r && SameGroup(t, p, r) {
      q := GroupHasLeast(t, p);
    } else {
      q := r;
    }
  }

  /** All rows of a duplicate group share their parent, so orphan removal takes or leaves a
      group as a whole. */
  lemma DedupedUnder<K>(t: Table<K>, parents: set<Id>)
    ensures Under(t, parents) - Duplicates(Under(t, parents)) == Kept(t, parents)
  {
    var u := Under(t, parents);
    forall r | r in u ensures r in Duplicates(u) <==> !Least(t, r) {
      if r in Duplicates(u) {
        var q :| q in u && q < r && SameGroup(u, q, r);
        assert SameGroup(t, q, r);
      }
      if !Least(t, r) {
        var q :| SameGroup(t, q, r) && q < r;
        assert SameGroup(u, q, r);
        assert HasLower(u, r);
      }
    }
  }

  lemma KeptOfKept<K>(t: Table<K>, parents: set<Id>, fewer: set<Id>)
    requires fewer <= parents
    ensures Under(Kept(t, parents), fewer) == Kept(t, fewer)
    ensures Kept(Kept(t, parents), fewer) == Kept(t, fewer)
  {
    var k := Kept(t, parents);
    forall r | r in k ensures Least(k, r) {
      forall q | SameGroup(k, q, r) ensures r <= q {
        assert SameGroup(t, q, r);
      }
    }
  }

  lemma IdsShrink<K>(t: Table<K>, u: Table<K>)
    requires u.Keys <= t.Keys && forall r :: r in u ==> u[r] == t[r]
    ensures Ids(u) <= Ids(t)
  {
  }

  /** With unique ids, the children left by a cascade are those of the parents left. */
  lemma CascadeLeaves<K, L>(children: Table<K>, parents: Table<L>, rows: set<RowId>)
    requires UniqueIds(parents)
    ensures Ids(parents - rows) == Ids(parents) - IdsOf(parents, rows)
    ensures Under(children, Ids(parents)) - RowsUnder(Under(children, Ids(parents)), IdsOf(parents, rows))
              == Under(children, Ids(parents - rows))
  {
    forall id | id in Ids(parents) && id !in IdsOf(parents, rows) ensures id in Ids(parents - rows) {
      var r :| r in parents && parents[r].id == id;
      assert r in parents - rows;
    }
  }

  // ----- Jobs -----

  /** No job was added or changed, and none was deleted whose references all still resolve. */
  ghost predicate JobsFaithful(o: Db, d: Db) {
    && (forall r :: r in d.jobs ==> r in o.jobs && d.jobs[r] == o.jobs[r])
    && (forall r :: r in o.jobs && Intact(d, o.jobs[r]) ==> r in d.jobs)
  }

  predicate UniqueKeys(d: Db) {
    UniqueIds(d.episodes) && UniqueIds(d.shots) && UniqueIds(d.versions)
  }

  lemma VersionsDropped(o: Db, d: Db, rows: set<RowId>)
    requires JobsFaithful(o, d) && UniqueKeys(d)
    ensures JobsFaithful(o, DropVersions(d, rows)) && UniqueKeys(DropVersions(d, rows))
  {
    var e := DropVersions(d, rows);
    CascadeLeaves(d.versions, d.versions, rows);
    forall r | r in o.jobs && Intact(e, o.jobs[r]) ensures r in e.jobs {
      assert Intact(d, o.jobs[r]);
    }
  }

  lemma ShotsDropped(o: Db, d: Db, rows: set<RowId>)
    requires JobsFaithful(o, d) && UniqueKeys(d)
    ensures JobsFaithful(o, DropShots(d, rows)) && UniqueKeys(DropShots(d, rows))
  {
    var gone := IdsOf(d.shots, rows);
    CascadeLeaves(d.shots, d.shots, rows);
    var e := d.(shots := d.shots - rows);
    assert JobsFaithful(o, e) by {
      forall r | r in o.jobs && Intact(e, o.jobs[r]) ensures r in e.jobs {
        assert Intact(d, o.jobs[r]);
      }
    }
    VersionsDropped(o, e, RowsUnder(e.versions, gone));
  }

  lemma EpisodesDropped(o: Db, d: Db, rows: set<RowId>)
    requires JobsFaithful(o, d) && UniqueKeys(d)
    ensures JobsFaithful(o, DropEpisodes(d, rows)) && UniqueKeys(DropEpisodes(d, rows))
  {
    var gone := IdsOf(d.episodes, rows);
    CascadeLeaves(d.episodes, d.episodes, rows);
    var e := d.(episodes := d.episodes - rows);
    assert JobsFaithful(o, e) by {
      forall r | r in o.jobs && Intact(e, o.jobs[r]) ensures r in e.jobs {
        assert Intact(d, o.jobs[r]);
      }
    }
    ShotsDropped(o, e, RowsUnder(e.shots, gone));
  }

  predicate SameParents(d: Db, e: Db) {
    e.projects == d.projects && e.episodes == d.episodes && e.shots == d.shots && e.versions == d.versions
  }

  lemma JobsDropped(o: Db, d: Db)
    requires JobsFaithful(o, d)
    ensures JobsFaithful(o, DropOrphanJobs(d))
    ensures DropOrphanJobs(d).jobs == DropOrphanJobs(d.(jobs := o.jobs)).jobs
  {
    var e, f := DropOrphanJobs(d), d.(jobs := o.jobs);
    forall r | r in o.jobs ensures Intact(e, o.jobs[r]) == Intact(d, o.jobs[r]) == Intact(f, o.jobs[r]) {
      assert SameParents(d, e) && SameParents(d, f);
    }
    assert e.jobs.Keys == DropOrphanJobs(f).jobs.Keys;
  }

  lemma OthersDropped(o: Db, d: Db, e: Db)
    requires JobsFaithful(o, d) && e.jobs == d.jobs && SameParents(d, e)
    ensures JobsFaithful(o, e)
  {
    forall r | r in o.jobs && Intact(e, o.jobs[r]) ensures r in e.jobs {
      assert Intact(d, o.jobs[r]);
    }
  }

  lemma ScriptKeepsJobs(d: Db)
    requires UniqueKeys(d)
    ensures JobsFaithful(d, Dedupe(CleanUp(d)))
  {
    var d1 := DropOrphanVersions(d);
    VersionsDropped(d, d, Orphans(d.versions, Ids(d.shots)));
    var d2 := DropOrphanScenes(d1);
    OthersDropped(d, d1, d2);
    var d3 := DropOrphanShots(d2);
    ShotsDropped(d, d2, Orphans(d2.shots, Ids(d2.episodes)));
    var d4 := DropOrphanEpisodes(d3);
    EpisodesDropped(d, d3, Orphans(d3.episodes, d3.projects));
    var d5 := DropOrphanLeaves(d4);
    OthersDropped(d, d4, d5);
    JobsDropped(d, d5);
    DedupeKeepsJobs(d, DropOrphanJobs(d5));
  }

  lemma DedupeKeepsJobs(o: Db, d: Db)
    requires JobsFaithful(o, d) && UniqueKeys(d)
    ensures JobsFaithful(o, Dedupe(d))
  {
    EpisodesDropped(o, d, Duplicates(d.episodes));
    var e := DropEpisodes(d, Duplicates(d.episodes));
    ShotsDropped(o, e, Duplicates(e.shots));
    var f := DedupeParents(d);
    VersionsDropped(o, f, Duplicates(f.versions));
    var g := DropVersions(f, Duplicates(f.versions));
    OthersDropped(o, g, DedupeChildren(f));
    OthersDropped(o, DedupeChildren(f), Dedupe(d));
  }

  // ----- With the triggers -----

  /** The children of shots are those the shots' rows left. */
  ghost predicate ChildrenFollow(o: Db, d: Db) {
    d.versions == Under(o.versions, Ids(d.shots)) && d.scenes == Under(o.scenes, Ids(d.shots))
  }

  lemma ShotsTakeChildren(o: Db, d: Db, rows: set<RowId>)
    requires d.cascades && UniqueKeys(d) && ChildrenFollow(o, d)
    ensures ChildrenFollow(o, DropShots(d, rows)) && UniqueKeys(DropShots(d, rows))
  {
    CascadeLeaves(o.versions, d.shots, rows);
    CascadeLeaves(o.scenes, d.shots, rows);
  }

  lemma EpisodesTakeChildren(o: Db, d: Db, rows: set<RowId>)
    requires d.cascades && UniqueKeys(d) && ChildrenFollow(o, d) && d.shots == Under(o.shots, Ids(d.episodes))
    ensures var e := DropEpisodes(d, rows);
            ChildrenFollow(o, e) && UniqueKeys(e) && e.shots == Under(o.shots, Ids(e.episodes))
  {
    CascadeLeaves(o.shots, d.episodes, rows);
    var e := d.(episodes := d.episodes - rows);
    ShotsTakeChildren(o, e, RowsUnder(e.shots, IdsOf(d.episodes, rows)));
  }

  /** The tree of episodes, shots, versions and scenes after the orphans are gone. */
  lemma OrphansGoWithTriggers(o: Db)
    requires o.cascades && UniqueKeys(o)
    ensures var d := CleanUp(o);
            && UniqueKeys(d) && d.cascades && ChildrenFollow(o, d)
            && d.episodes == Under(o.episodes, o.projects) && d.shots == Under(o.shots, Ids(d.episodes))
  {
    WithoutOrphans(o.versions, Ids(o.shots));
    WithoutOrphans(o.scenes, Ids(o.shots));
    var d2 := DropOrphanScenes(DropOrphanVersions(o));
    var rows := Orphans(d2.shots, Ids(d2.episodes));
    ShotsTakeChildren(o, d2, rows);
    WithoutOrphans(o.shots, Ids(o.episodes));
    var d3 := DropOrphanShots(d2);
    EpisodesTakeChildren(o, d3, Orphans(d3.episodes, d3.projects));
    WithoutOrphans(o.episodes, o.projects);
  }

  lemma DuplicatesGoWithTriggers(o: Db, d: Db)
    requires UniqueKeys(d) && d.cascades && ChildrenFollow(o, d)
    requires d.episodes == Under(o.episodes, o.projects) && d.shots == Under(o.shots, Ids(d.episodes))
    ensures var e := Dedupe(d);
            && e.episodes == Kept(o.episodes, o.projects) && e.shots == Kept(o.shots, Ids(e.episodes))
            && e.versions == Kept(o.versions, Ids(e.shots)) && e.scenes == Kept(o.scenes, Ids(e.shots))
  {
    DedupedUnder(o.episodes, o.projects);
    EpisodesTakeChildren(o, d, Duplicates(d.episodes));
    var e := DropEpisodes(d, Duplicates(d.episodes));
    DedupedUnder(o.shots, Ids(e.episodes));
    ShotsTakeChildren(o, e, Duplicates(e.shots));
    var f := DedupeParents(d);
    DedupedUnder(o.versions, Ids(f.shots));
    DedupedUnder(o.scenes, Ids(f.shots));
  }

  lemma LeavesSettle(o: Db)
    ensures var e := Dedupe(CleanUp(o));
            && e.chapters == Kept(o.chapters, o.projects) && e.portraits == Kept(o.portraits, o.projects)
            && e.references == Kept(o.references, o.projects) && e.projects == o.projects && e.cascades == o.cascades
  {
    WithoutOrphans(o.chapters, o.projects);
    WithoutOrphans(o.portraits, o.projects);
    WithoutOrphans(o.references, o.projects);
    DedupedUnder(o.chapters, o.projects);
    DedupedUnder(o.portraits, o.projects);
    DedupedUnder(o.references, o.projects);
  }

  lemma DropNoVersions(d: Db, none: set<RowId>)
    requires none == {}
    ensures DropVersions(d, none) == d
  {
    assert d.versions - none == d.versions;
    assert DropVersions(d, none).jobs == d.jobs;
  }

  lemma DropNoShots(d: Db, none: set<RowId>)
    requires none == {}
    ensures DropShots(d, none) == d
  {
    assert d.shots - none == d.shots;
    if d.cascades {
      var below := RowsUnder(d.versions, IdsOf(d.shots, none));
      DropNoVersions(d, below);
      assert d.scenes - RowsUnder(d.scenes, IdsOf(d.shots, none)) == d.scenes;
      assert DropShots(d, none).jobs == d.jobs;
    }
  }

  lemma NothingLeftToDrop(d: Db)
    requires OrphanFree(d.versions, Ids(d.shots)) && OrphanFree(d.scenes, Ids(d.shots))
    requires OrphanFree(d.shots, Ids(d.episodes))
    ensures CleanUpAgain(d) == DropOrphanJobs(d)
  {
    DropNoVersions(d, Orphans(d.versions, Ids(d.shots)));
    assert d.scenes - Orphans(d.scenes, Ids(d.shots)) == d.scenes;
    DropNoShots(d, Orphans(d.shots, Ids(d.episodes)));
  }

  lemma TailedOnce(t: Table<SceneKey>)
    ensures Tailed(Tailed(t)) == Tailed(t)
  {
    assert "tail"[0] != ' ';
    assert !Blank(Some("tail"));
  }

  /** With the cascading triggers in place, one run leaves exactly the rows that ought to
      survive. */
  lemma CascadingRepairIsSound(d: Db)
    requires d.cascades && UniqueKeys(d)
    ensures Repaired(d) == Sound(d)
  {
    var o := d.(scenes := Tailed(d.scenes));
    OrphansGoWithTriggers(o);
    DuplicatesGoWithTriggers(o, CleanUp(o));
    LeavesSettle(o);
    ScriptKeepsJobs(o);
    var e := Dedupe(CleanUp(o));
    KeptIsClean(o.shots, Ids(e.episodes));
    KeptIsClean(o.versions, Ids(e.shots));
    KeptIsClean(o.scenes, Ids(e.shots));
    NothingLeftToDrop(e);
    JobsDropped(o, e);
    TailedOnce(d.scenes);
  }

  // ----- Without the triggers -----

  /** What the tree of rows looks like before the second clean-up. */
  lemma SettledWithoutTriggers(o: Db)
    requires !o.cascades
    ensures var d := Dedupe(CleanUp(o));
            && d.episodes == Kept(o.episodes, o.projects) && d.shots == Kept(o.shots, Ids(o.episodes))
            && d.versions == Kept(o.versions, Ids(o.shots)) && d.scenes == Kept(o.scenes, Ids(o.shots))
  {
    WithoutOrphans(o.versions, Ids(o.shots));
    WithoutOrphans(o.scenes, Ids(o.shots));
    WithoutOrphans(o.shots, Ids(o.episodes));
    WithoutOrphans(o.episodes, o.projects);
    DedupedUnder(o.episodes, o.projects);
    DedupedUnder(o.shots, Ids(o.episodes));
    DedupedUnder(o.versions, Ids(o.shots));
    DedupedUnder(o.scenes, Ids(o.shots));
  }

  /** The shots whose versions and scenes the second clean-up spares. */
  ghost function SparedShots(d: Db): Table<int> {
    Kept(d.shots, Ids(d.episodes))
  }

  /** One run without triggers, in closed form: all is sound save that versions and scenes
      are measured against the shots that were there before the last statement on shots. */
  ghost predicate NearlySound(d: Db, e: Db) {
    && e == Sound(d).(versions := e.versions, scenes := e.scenes, jobs := e.jobs)
    && e.versions == Kept(d.versions, Ids(SparedShots(d)))
    && e.scenes == Kept(Tailed(d.scenes), Ids(SparedShots(d)))
    && JobsFaithful(d, e) && forall r :: r in e.jobs ==> Intact(e, e.jobs[r])
  }

  lemma CleanedAgain(d: Db)
    requires !d.cascades
    ensures var e := CleanUpAgain(d);
            && e == d.(versions := Under(d.versions, Ids(d.shots)), scenes := Under(d.scenes, Ids(d.shots)),
                       shots := Under(d.shots, Ids(d.episodes)), jobs := e.jobs)
  {
    WithoutOrphans(d.versions, Ids(d.shots));
    WithoutOrphans(d.scenes, Ids(d.shots));
    WithoutOrphans(d.shots, Ids(d.episodes));
  }

  lemma CleanedAgainJobs(o: Db, d: Db)
    requires JobsFaithful(o, d) && UniqueKeys(d)
    ensures var e := CleanUpAgain(d); JobsFaithful(o, e) && forall r :: r in e.jobs ==> Intact(e, e.jobs[r])
  {
    var d1 := DropOrphanVersions(d);
    VersionsDropped(o, d, Orphans(d.versions, Ids(d.shots)));
    var d2 := DropOrphanScenes(d1);
    OthersDropped(o, d1, d2);
    var d3 := DropOrphanShots(d2);
    ShotsDropped(o, d2, Orphans(d2.shots, Ids(d2.episodes)));
    JobsDropped(o, d3);
    var e := CleanUpAgain(d);
    forall r | r in e.jobs ensures Intact(e, e.jobs[r]) {
      assert Intact(d3, e.jobs[r]) && SameParents(d3, e);
    }
  }

  lemma RepairWithoutTriggers(d: Db)
    requires !d.cascades && UniqueKeys(d)
    ensures NearlySound(d, Repaired(d))
  {
    var o := d.(scenes := Tailed(d.scenes));
    var m := Dedupe(CleanUp(o));
    SettledWithoutTriggers(o);
    LeavesSettle(o);
    ScriptKeepsJobs(o);
    CleanedAgain(m);
    CleanedAgainJobs(o, m);
    IdsShrink(o.shots, m.shots);
    IdsShrink(o.episodes, m.episodes);
    KeptOfKept(o.versions, Ids(o.shots), Ids(m.shots));
    KeptOfKept(o.scenes, Ids(o.shots), Ids(m.shots));
    KeptOfKept(o.shots, Ids(o.episodes), Ids(m.episodes));
  }

  predicate HasChildren(d: Db, shot: Id) {
    RowsUnder(d.versions, {shot}) != {} || RowsUnder(d.scenes, {shot}) != {}
  }

  /** A shot with children whose episode is there before the run but has no project or is a
      duplicate. */
  ghost predicate Stranding(d: Db, r: RowId) {
    && Least(d.shots, r)
    && d.shots[r].parent in Ids(d.episodes) && d.shots[r].parent !in Ids(Kept(d.episodes, d.projects))
    && HasChildren(d, d.shots[r].id)
  }

  lemma SoundShots(d: Db)
    requires UniqueKeys(d)
    ensures Ids(Sound(d).shots) <= Ids(SparedShots(d))
    ensures forall r :: r in SparedShots(d) && r !in Sound(d).shots ==> d.shots[r].id !in Ids(Sound(d).shots)
  {
    IdsShrink(d.episodes, Kept(d.episodes, d.projects));
    KeptOfKept(d.shots, Ids(d.episodes), Ids(Kept(d.episodes, d.projects)));
    IdsShrink(SparedShots(d), Sound(d).shots);
  }

  /** A child table keeps a row of every group that hangs on a stranding shot. */
  lemma ChildStays<K>(t: Table<K>, spared: set<Id>, sound: set<Id>, shot: Id)
    requires RowsUnder(t, {shot}) != {} && shot in spared && shot !in sound
    ensures !OrphanFree(Kept(t, spared), sound)
  {
    var r :| r in RowsUnder(t, {shot});
    var q := GroupHasLeast(t, r);
    assert q in Kept(t, spared);
  }

  lemma StrandingLeavesOrphan(d: Db, e: Db, r: RowId)
    requires UniqueKeys(d) && NearlySound(d, e) && Stranding(d, r)
    ensures !NoOrphans(e)
  {
    var shot := d.shots[r].id;
    SoundShots(d);
    assert r in SparedShots(d) && shot in Ids(SparedShots(d)) && shot !in Ids(e.shots);
    if RowsUnder(d.versions, {shot}) != {} {
      ChildStays(d.versions, Ids(SparedShots(d)), Ids(e.shots), shot);
    } else {
      assert RowsUnder(Tailed(d.scenes), {shot}) == RowsUnder(d.scenes, {shot});
      ChildStays(Tailed(d.scenes), Ids(SparedShots(d)), Ids(e.shots), shot);
    }
  }

  lemma OrphanNeedsStranding(d: Db, id: Id) returns (r: RowId)
    requires UniqueKeys(d) && HasChildren(d, id) && id in Ids(SparedShots(d)) && id !in Ids(Sound(d).shots)
    ensures Stranding(d, r)
  {
    r :| r in SparedShots(d) && SparedShots(d)[r].id == id;
    IdsShrink(d.episodes, Kept(d.episodes, d.projects));
    KeptOfKept(d.shots, Ids(d.episodes), Ids(Kept(d.episodes, d.projects)));
    assert r !in Sound(d).shots;
  }

  lemma ChildrenSettled<K>(t: Table<K>, spared: set<Id>, sound: set<Id>)
    requires sound <= spared
    requires forall id :: id in spared && id !in sound ==> RowsUnder(t, {id}) == {}
    ensures Kept(t, spared) == Kept(t, sound)
  {
    forall r | r in t && t[r].parent in spared ensures t[r].parent in sound {
      assert r in RowsUnder(t, {t[r].parent});
    }
  }

  lemma UnstrandedIsSound(d: Db, e: Db)
    requires UniqueKeys(d) && NearlySound(d, e) && forall r :: !Stranding(d, r)
    ensures e == Sound(d)
  {
    SoundShots(d);
    var sound, spared := Ids(Sound(d).shots), Ids(SparedShots(d));
    forall id | id in spared && id !in sound
      ensures RowsUnder(d.versions, {id}) == {} && RowsUnder(Tailed(d.scenes), {id}) == {}
    {
      assert RowsUnder(Tailed(d.scenes), {id}) == RowsUnder(d.scenes, {id});
      if HasChildren(d, id) {
        var r := OrphanNeedsStranding(d, id);
      }
    }
    ChildrenSettled(d.versions, spared, sound);
    ChildrenSettled(Tailed(d.scenes), spared, sound);
    SameTablesSameJobs(d, e);
  }

  lemma SameTablesSameJobs(d: Db, e: Db)
    requires NearlySound(d, e) && e.versions == Sound(d).versions && e.scenes == Sound(d).scenes
    ensures e == Sound(d)
  {
    var s := Sound(d);
    forall r | r in d.jobs ensures r in e.jobs <==> r in s.jobs {
      assert SameParents(e, s) && Intact(e, d.jobs[r]) == Intact(s, d.jobs[r]);
      assert SameParents(s, s.(jobs := d.jobs));
    }
    assert e.jobs == s.jobs;
  }

  /** Without triggers one run is enough exactly when no shot strands its children. */
  lemma OneRunWithoutTriggersExact(d: Db)
    requires !d.cascades && UniqueKeys(d)
    ensures NoOrphans(Repaired(d)) <==> forall r :: !Stranding(d, r)
    ensures NoOrphans(Repaired(d)) <==> Repaired(d) == Sound(d)
  {
    RepairWithoutTriggers(d);
    SoundIsClean(d);
    if r :| Stranding(d, r) {
      StrandingLeavesOrphan(d, Repaired(d), r);
    } else {
      UnstrandedIsSound(d, Repaired(d));
    }
  }

  lemma NearlyUnique(d: Db, e: Db)
    requires UniqueKeys(d) && NearlySound(d, e)
    ensures UniqueKeys(e) && e.cascades == d.cascades && e.projects == d.projects
  {
  }

  lemma SecondRunTables(d: Db, e: Db)
    requires UniqueKeys(d) && NearlySound(d, e)
    ensures var s, u := Sound(d), Sound(e); s == u.(jobs := s.jobs)
    ensures SparedShots(e) == Sound(d).shots
  {
    var eps := Kept(d.episodes, d.projects);
    IdsShrink(d.episodes, eps);
    KeptOfKept(d.episodes, d.projects, d.projects);
    KeptOfKept(d.shots, Ids(eps), Ids(eps));
    SoundShots(d);
    KeptOfKept(d.versions, Ids(SparedShots(d)), Ids(Sound(d).shots));
    KeptOfKept(Tailed(d.scenes), Ids(SparedShots(d)), Ids(Sound(d).shots));
    KeptOfKept(d.chapters, d.projects, d.projects);
    KeptOfKept(d.portraits, d.projects, d.projects);
    KeptOfKept(d.references, d.projects, d.projects);
    KeptStaysTailed(d.scenes, Ids(SparedShots(d)));
  }

  lemma KeptStaysTailed(t: Table<SceneKey>, parents: set<Id>)
    ensures Tailed(Kept(Tailed(t), parents)) == Kept(Tailed(t), parents)
  {
    assert "tail"[0] != ' ';
    assert !Blank(Some("tail"));
  }

  lemma NoStrandingTwice(d: Db, e: Db, r: RowId)
    requires UniqueKeys(d) && NearlySound(d, e)
    ensures !Stranding(e, r)
  {
    KeptOfKept(d.episodes, d.projects, d.projects);
  }

  lemma SoundJobs(d: Db, r: RowId)
    ensures r in Sound(d).jobs <==> (r in d.jobs && Intact(Sound(d), d.jobs[r]))
    ensures r in Sound(d).jobs ==> Sound(d).jobs[r] == d.jobs[r]
  {
    if r in d.jobs {
      assert SameParents(Sound(d), Sound(d).(jobs := d.jobs));
    }
  }

  lemma JobTwice(d: Db, e: Db, r: RowId)
    requires UniqueKeys(d) && NearlySound(d, e) && SameParents(Sound(d), Sound(e))
    requires Ids(Sound(d).versions) <= Ids(e.versions)
    ensures r in Sound(e).jobs <==> r in Sound(d).jobs
    ensures r in Sound(e).jobs ==> Sound(e).jobs[r] == Sound(d).jobs[r]
  {
    SoundJobs(d, r);
    SoundJobs(e, r);
    if r in d.jobs {
      assert Intact(Sound(d), d.jobs[r]) ==> Intact(e, d.jobs[r]);
    }
  }

  lemma SecondRunJobs(d: Db, e: Db)
    requires UniqueKeys(d) && NearlySound(d, e)
    ensures Sound(e).jobs == Sound(d).jobs
  {
    SecondRunTables(d, e);
    SoundShots(d);
    KeptOfKept(d.versions, Ids(SparedShots(d)), Ids(Sound(d).shots));
    IdsShrink(e.versions, Sound(d).versions);
    forall r: RowId ensures r in Sound(e).jobs <==> r in Sound(d).jobs
             ensures r in Sound(e).jobs ==> Sound(e).jobs[r] == Sound(d).jobs[r]
    {
      JobTwice(d, e, r);
    }
  }

  /** Without triggers a second run always finishes the work of the first. */
  lemma TwoRunsSuffice(d: Db)
    requires !d.cascades && UniqueKeys(d)
    ensures Repaired(Repaired(d)) == Sound(d)
  {
    var e := Repaired(d);
    RepairWithoutTriggers(d);
    NearlyUnique(d, e);
    forall r ensures !Stranding(e, r) {
      NoStrandingTwice(d, e, r);
    }
    OneRunWithoutTriggersExact(e);
    SecondRunTables(d, e);
    SecondRunJobs(d, e);
  }

  /** An episode without a project, its shot and the shot's version. */
  function StrandedChain(): Db {
    Db({}, map[0 := Row("e", "p", 1)], map[0 := Row("s", "e", 1)], map[0 := Row("v", "s", 1)],
       map[], map[], map[], map[], map[], false)
  }

  /** One run on a database without triggers can leave an orphan of the third level. */
  lemma ThirdLevelOrphanSurvives()
    ensures UniqueKeys(StrandedChain()) && !NoOrphans(Repaired(StrandedChain()))
  {
    var d := StrandedChain();
    assert Least(d.shots, 0);
    assert 0 in RowsUnder(d.versions, {"s"});
    assert "e" in Ids(d.episodes);
    assert Stranding(d, 0);
    OneRunWithoutTriggersExact(d);
  }

  // ----- What a run keeps -----

  /** No row with the same parent and the same key has a lower row id. */
  ghost predicate LowestOfItsKind<K>(t: Table<K>, r: RowId) {
    r in t && forall q :: q in t && t[q].parent == t[r].parent && t[q].key == t[r].key ==> r <= q
  }

  lemma LeastIsLowest<K>(t: Table<K>, r: RowId)
    ensures Least(t, r) <==> LowestOfItsKind(t, r)
  {
    if LowestOfItsKind(t, r) {
      forall q | SameGroup(t, q, r) ensures r <= q {
      }
    }
    if Least(t, r) {
      forall q | q in t && t[q].parent == t[r].parent && t[q].key == t[r].key ensures r <= q {
        assert SameGroup(t, q, r);
      }
    }
  }

  /** A run invents nothing, and a row goes only with its parent or for a lower row id of
      its group. */
  lemma ShotSurvivesExactly(d: Db, r: RowId)
    requires UniqueKeys(d) && r in d.shots
    ensures r in Repaired(d).shots <==> (LowestOfItsKind(d.shots, r) && d.shots[r].parent in Ids(Repaired(d).episodes))
    ensures r in Repaired(d).shots ==> Repaired(d).shots[r] == d.shots[r]
    ensures Repaired(d).shots.Keys <= d.shots.Keys
  {
    LeastIsLowest(d.shots, r);
    if d.cascades {
      CascadingRepairIsSound(d);
    } else {
      RepairWithoutTriggers(d);
    }
  }

  lemma EpisodeSurvivesExactly(d: Db, r: RowId)
    requires UniqueKeys(d) && r in d.episodes
    ensures r in Repaired(d).episodes <==> (LowestOfItsKind(d.episodes, r) && d.episodes[r].parent in d.projects)
    ensures r in Repaired(d).episodes ==> Repaired(d).episodes[r] == d.episodes[r]
    ensures Repaired(d).episodes.Keys <= d.episodes.Keys
  {
    LeastIsLowest(d.episodes, r);
    if d.cascades {
      CascadingRepairIsSound(d);
    } else {
      RepairWithoutTriggers(d);
    }
  }

  predicate AllSpaces(s: string) {
    forall i :: 0 <= i < |s| ==> s[i] == ' '
  }

  /** The scene it was, but that a missing or blank kind now reads "tail". */
  predicate SameButTail(was: Row<SceneKey>, now: Row<SceneKey>) {
    now == was.(key := was.key.(kind :=
      match was.key.kind
      case None => Some("tail")
      case Some(kind) => if AllSpaces(kind) then Some("tail") else Some(kind)))
  }

  lemma TailedExact(t: Table<SceneKey>, r: RowId)
    requires r in t
    ensures r in Tailed(t) && SameButTail(t[r], Tailed(t)[r])
  {
  }

  lemma ScenesAreTailed(d: Db, r: RowId)
    requires UniqueKeys(d) && r in Repaired(d).scenes
    ensures r in d.scenes && SameButTail(d.scenes[r], Repaired(d).scenes[r])
  {
    if d.cascades {
      CascadingRepairIsSound(d);
    } else {
      RepairWithoutTriggers(d);
    }
    TailedExact(d.scenes, r);
  }

  // ----- What the triggers take -----

  /** The ids of what goes when some episodes go: the shots under them, the versions under
      those. */
  function ShotsUnder(d: Db, episodes: set<Id>): set<Id> {
    set r | r in d.shots && d.shots[r].parent in episodes :: d.shots[r].id
  }

  function VersionsUnder(d: Db, shots: set<Id>): set<Id> {
    set r | r in d.versions && d.versions[r].parent in shots :: d.versions[r].id
  }

  predicate Names(j: Job, episodes: set<Id>, shots: set<Id>, versions: set<Id>) {
    || (j.episode.Some? && j.episode.value in episodes)
    || (j.shot.Some? && j.shot.value in shots)
    || (j.version.Some? && j.version.value in versions)
  }

  /** With the triggers, deleting episodes takes the shots under them, the versions and scenes
      under those, and the jobs that name any of these, and nothing else; without them it takes
      the episodes alone. */
  lemma TriggersTakeExactly(d: Db, rows: set<RowId>)
    ensures var e := DropEpisodes(d, rows);
            var episodes := IdsOf(d.episodes, rows);
            var shots := ShotsUnder(d, episodes);
            && e.episodes == d.episodes - rows
            && e.chapters == d.chapters && e.portraits == d.portraits && e.references == d.references
            && (forall r :: r in e.shots <==> r in d.shots && !(d.cascades && d.shots[r].parent in episodes))
            && (forall r :: r in e.versions <==> r in d.versions && !(d.cascades && d.versions[r].parent in shots))
            && (forall r :: r in e.scenes <==> r in d.scenes && !(d.cascades && d.scenes[r].parent in shots))
            && (forall r :: r in e.jobs <==>
                  r in d.jobs && !(d.cascades && Names(d.jobs[r], episodes, shots, VersionsUnder(d, shots))))
  {
    var episodes := IdsOf(d.episodes, rows);
    assert IdsOf(d.shots, RowsUnder(d.shots, episodes)) == ShotsUnder(d, episodes);
    var shots := ShotsUnder(d, episodes);
    assert IdsOf(d.versions, RowsUnder(d.versions, shots)) == VersionsUnder(d, shots);
  }
}
