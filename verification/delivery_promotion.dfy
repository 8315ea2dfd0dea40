/** Promotion of one delivery package (build_delivery_package): a builder thread per owner
    writes in its own workspace, moves directory and archive to the final paths, and
    publishes the package row, advancing the receipt's phase on the way.

    The receipt row and its transitions are those of DeliveryLease. A directory or archive
    is identified by the owner whose builder produced it. A step is one transaction or
    one file-system operation, so a crash or another owner may come between any two. */
module DeliveryPromotion {
  import opened Wrappers
  import L = DeliveryLease

  type Owner = L.Owner

  /** How far a builder thread has got. */
  datatype Stage =
    | Entered           // claim granted
    | Started           // owner asserted, no package row found
    | Bound             // workspace bound, evidence read
    | DirPurged         // final directory removed
    | ZipPurged         // final archive removed
    | Cleared           // abandoned workspace removed, or nothing to remove
    | Renewed           // workspace written, lease renewed
    | Archived          // workspace zipped
    | MarkedReady
    | Checked           // final paths seen absent
    | DirRenamed
    | MarkedDirectory
    | ZipRenamed
    | MarkedPromoted
    | Finished          // published, or found published
    | Stopped           // an exception left the build

  /** `mayPurge` and `abandoned` are the evidence read from the receipt when binding;
      `predecessor` is the row this owner's claim replaced. */
  datatype Builder = Builder(stage: Stage, mayPurge: bool, abandoned: Option<Owner>,
                             predecessor: Option<L.Receipt>)

  datatype World = World(
    row: Option<L.Receipt>,
    published: Option<Owner>,      // the delivery_packages row
    dir: Option<Owner>,            // final directory
    zip: Option<Owner>,            // final archive
    workDirs: set<Owner>,
    workZips: set<Owner>,
    builders: map<Owner, Builder>,
    issued: set<Owner>)

  datatype Event =
    | Claim(owner: Owner, now: real)
    | Begin(owner: Owner, now: real, awaitingReview: bool)
    | Bind(owner: Owner)
    | PurgeDir(owner: Owner)
    | PurgeZip(owner: Owner)
    | ClearOld(owner: Owner)
    | Build(owner: Owner, now: real)
    | ZipUp(owner: Owner)
    | MarkReady(owner: Owner)
    | Check(owner: Owner)
    | RenameDir(owner: Owner)
    | MarkDirectory(owner: Owner)
    | RenameZip(owner: Owner)
    | MarkPromoted(owner: Owner)
    | Publish(owner: Owner, now: real, drifted: bool)
    | Raise(owner: Owner)                       // any other exception, as when the authority has drifted
    | Report(owner: Owner, succeeded: bool)     // the caller's finish after the build ended
    | Restart(now: real)                        // the process dies and starts again

  const Episode := "episode"
  const Request := "request"

  predicate Holds(w: World, o: Owner) {
    w.row.Some? && w.row.value.owner == o && w.row.value.status == L.Running
  }

  predicate At(w: World, o: Owner, stage: Stage) {
    o in w.builders && w.builders[o].stage == stage
  }

  predicate PastReady(phase: Option<L.Phase>) {
    phase == Some(L.Ready) || phase == Some(L.DirectoryPromoted) || phase == Some(L.Promoted)
  }

  predicate MayPurge(r: L.Receipt, o: Owner) {
    r.fencedOwner == Some(o) && PastReady(r.abandonedPhase)
  }

  predicate Enabled(w: World, e: Event) {
    match e
    case Claim(o, now) => o !in w.issued && (w.row.Some? ==> L.MayTakeOver(w.row.value, now))
    case Begin(o, _, _) => At(w, o, Entered)
    case Bind(o) => At(w, o, Started)
    case PurgeDir(o) => At(w, o, Bound) && w.builders[o].mayPurge
    case PurgeZip(o) => At(w, o, DirPurged)
    case ClearOld(o) => At(w, o, ZipPurged) || (At(w, o, Bound) && !w.builders[o].mayPurge)
    case Build(o, _) => At(w, o, Cleared)
    case ZipUp(o) => At(w, o, Renewed)
    case MarkReady(o) => At(w, o, Archived)
    case Check(o) => At(w, o, MarkedReady)
    case RenameDir(o) => At(w, o, Checked)
    case MarkDirectory(o) => At(w, o, DirRenamed)
    case RenameZip(o) => At(w, o, MarkedDirectory)
    case MarkPromoted(o) => At(w, o, ZipRenamed)
    case Publish(o, _, _) => At(w, o, MarkedPromoted)
    case Raise(o) => o in w.builders && w.builders[o].stage != Finished
    case Report(o, succeeded) => At(w, o, if succeeded then Finished else Stopped)
    case Restart(_) => true
  }

  function Move(w: World, o: Owner, stage: Stage): World
    requires o in w.builders
  {
    w.(builders := w.builders[o := w.builders[o].(stage := stage)])
  }

  /** A compare-and-set on the receipt by `o`; losing it raises. */
  function Write(w: World, o: Owner, write: L.Write, next: Stage): World
    requires o in w.builders
  {
    if Holds(w, o) then Move(w.(row := Some(L.Written(w.row.value, write))), o, next)
    else Move(w, o, Stopped)
  }

  function Claimed(w: World, o: Owner, now: real): World {
    w.(row := Some(if w.row.Some? then L.TakenOver(w.row.value, o, now)
                   else L.FirstClaim(Episode, Request, o, now)),
       builders := w.builders[o := Builder(Entered, false, None, w.row)],
       issued := w.issued + {o})
  }

  function Begun(w: World, o: Owner, now: real, awaitingReview: bool): World
    requires o in w.builders
  {
    if !Holds(w, o) || w.row.value.expires <= now then Move(w, o, Stopped)
    else if w.published.None? then Move(w, o, Started)
    // replay: the directory must be the published one; a wrong archive is rebuilt from it
    else if w.dir != w.published then Move(w, o, Stopped)
    else if w.zip == w.dir then Move(w, o, Finished)
    else if awaitingReview then Move(w.(zip := w.dir), o, Finished)
    else Move(w, o, Stopped)
  }

  function WorkspaceBound(w: World, o: Owner): World
    requires o in w.builders
  {
    if Holds(w, o) then
      var r := w.row.value;
      w.(row := Some(L.Written(r, L.Binding)),
         builders := w.builders[o := w.builders[o].(stage := Bound, mayPurge := MayPurge(r, o),
                                                    abandoned := r.abandonedWorkspace)])
    else Move(w, o, Stopped)
  }

  function OldCleared(w: World, o: Owner): World
    requires o in w.builders
  {
    var remnants := if w.builders[o].mayPurge && w.builders[o].abandoned.Some?
                    then {w.builders[o].abandoned.value} else {};
    Move(w.(workDirs := w.workDirs - remnants, workZips := w.workZips - remnants), o, Cleared)
  }

  function Built(w: World, o: Owner, now: real): World
    requires o in w.builders
  {
    Write(w.(workDirs := w.workDirs + {o}), o, L.Renewal(now), Renewed)
  }

  function ZippedUp(w: World, o: Owner): World
    requires o in w.builders
  {
    Move(w.(workZips := w.workZips + {o}), o, Archived)
  }

  /** A directory is never renamed onto one that has content. */
  function DirMoved(w: World, o: Owner): World
    requires o in w.builders
  {
    if w.dir.Some? || o !in w.workDirs then Move(w, o, Stopped)
    else Move(w.(dir := Some(o), workDirs := w.workDirs - {o}), o, DirRenamed)
  }

  /** A file is silently renamed onto an existing one. */
  function ZipMoved(w: World, o: Owner): World
    requires o in w.builders
  {
    if o !in w.workZips then Move(w, o, Stopped)
    else Move(w.(zip := Some(o), workZips := w.workZips - {o}), o, ZipRenamed)
  }

  function RowPublished(w: World, o: Owner, now: real, drifted: bool): World
    requires o in w.builders
  {
    if drifted || !Holds(w, o) || w.row.value.expires <= now || w.published.Some? then Move(w, o, Stopped)
    else Move(w.(published := Some(o)), o, Finished)
  }

  function Reported(w: World, o: Owner, succeeded: bool): World {
    var w' := w.(builders := w.builders - {o});
    if Holds(w, o) then w'.(row := Some(L.Written(w.row.value, L.Completion("", succeeded)))) else w'
  }

  function Restarted(w: World, now: real): World {
    w.(builders := map[], row := if w.row.Some? then Some(L.Fenced(w.row.value, now)) else None)
  }

  function Next(w: World, e: Event): World
    requires Enabled(w, e)
  {
    match e
    case Claim(o, now) => Claimed(w, o, now)
    case Begin(o, now, awaitingReview) => Begun(w, o, now, awaitingReview)
    case Bind(o) => WorkspaceBound(w, o)
    case PurgeDir(o) => Move(w.(dir := None), o, DirPurged)
    case PurgeZip(o) => Move(w.(zip := None), o, ZipPurged)
    case ClearOld(o) => OldCleared(w, o)
    case Build(o, now) => Built(w, o, now)
    case ZipUp(o) => ZippedUp(w, o)
    case MarkReady(o) => Write(w, o, L.Advance(L.Ready), MarkedReady)
    case Check(o) => Move(w, o, if w.dir.None? && w.zip.None? then Checked else Stopped)
    case RenameDir(o) => DirMoved(w, o)
    case MarkDirectory(o) => Write(w, o, L.Advance(L.DirectoryPromoted), MarkedDirectory)
    case RenameZip(o) => ZipMoved(w, o)
    case MarkPromoted(o) => Write(w, o, L.Advance(L.Promoted), MarkedPromoted)
    case Publish(o, now, drifted) => RowPublished(w, o, now, drifted)
    case Raise(o) => Move(w, o, Stopped)
    case Report(o, succeeded) => Reported(w, o, succeeded)
    case Restart(now) => Restarted(w, now)
  }

  ghost predicate IsRun(w: World, events: seq<Event>)
    decreases |events|, 0
  {
    events == [] ||
    (IsRun(w, events[..|events| - 1]) && Enabled(After(w, events[..|events| - 1]), events[|events| - 1]))
  }

  ghost function After(w: World, events: seq<Event>): World
    requires IsRun(w, events)
    decreases |events|, 1
  {
    if events == [] then w else Next(After(w, events[..|events| - 1]), events[|events| - 1])
  }

  /** A run extended by one step. */
  lemma Do(w: World, events: seq<Event>, e: Event)
    requires IsRun(w, events) && Enabled(After(w, events), e)
    ensures IsRun(w, events + [e])
    ensures After(w, events + [e]) == Next(After(w, events), e)
  {
    assert (events + [e])[..|events + [e]| - 1] == events;
  }

  ghost predicate Reaches(w: World, w': World) {
    exists events :: IsRun(w, events) && After(w, events) == w'
  }

  lemma ReachesItself(w: World)
    ensures Reaches(w, w)
  {
    assert IsRun(w, []) && After(w, []) == w;
  }

  lemma ReachesNext(w: World, w': World, e: Event)
    requires Reaches(w, w') && Enabled(w', e)
    ensures Reaches(w, Next(w', e))
  {
    var events :| IsRun(w, events) && After(w, events) == w';
    Do(w, events, e);
  }

  lemma {:induction false} ReachesOnward(w: World, w1: World, w2: World)
    requires Reaches(w, w1) && Reaches(w1, w2)
    ensures Reaches(w, w2)
  {
    var events :| IsRun(w1, events) && After(w1, events) == w2;
    Onward(w, w1, events);
  }

  lemma {:induction false} Onward(w: World, w1: World, events: seq<Event>)
    requires Reaches(w, w1) && IsRun(w1, events)
    ensures Reaches(w, After(w1, events))
    decreases |events|
  {
    if events != [] {
      Onward(w, w1, events[..|events| - 1]);
      ReachesNext(w, After(w1, events[..|events| - 1]), events[|events| - 1]);
    }
  }

  function Start(): World {
    World(None, None, None, None, {}, {}, map[], {})
  }

  /** The file-system steps that touch the final paths. They check no ownership. */
  predicate TouchesFinal(e: Event) {
    e.PurgeDir? || e.PurgeZip? || e.RenameDir? || e.RenameZip?
  }

  predicate Stale(w: World, e: Event) {
    TouchesFinal(e) && !Holds(w, e.owner)
  }

  // ----- The thread that runs the build -----

  /** build_delivery_package as one thread executes it. Every method performs one step in
      place; other threads act on the same fields between them. */
  class DeliveryRoot {
    var row: Option<L.Receipt>
    var published: Option<Owner>
    var dir: Option<Owner>
    var zip: Option<Owner>
    var workDirs: set<Owner>
    var workZips: set<Owner>
    var builders: map<Owner, Builder>
    var issued: set<Owner>

    function State(): World reads this {
      World(row, published, dir, zip, workDirs, workZips, builders, issued)
    }

    method MoveTo(o: Owner, stage: Stage)
      requires o in builders
      modifies this`builders
      ensures State() == Move(old(State()), o, stage)
    {
      builders := builders[o := builders[o].(stage := stage)];
    }

    method CompareAndSet(o: Owner, write: L.Write, next: Stage)
      requires o in builders
      modifies this`row, this`builders
      ensures State() == Write(old(State()), o, write, next)
    {
      if Holds(State(), o) {
        row := Some(L.Written(row.value, write));
        MoveTo(o, next);
      } else {
        MoveTo(o, Stopped);
      }
    }

    method BeginBuild(o: Owner, now: real, awaitingReview: bool)
      requires o in builders
      modifies this
      ensures State() == Begun(old(State()), o, now, awaitingReview)
    {
      if !Holds(State(), o) || row.value.expires <= now {
        MoveTo(o, Stopped);
      } else if published.None? {
        MoveTo(o, Started);
      } else if dir != published {
        MoveTo(o, Stopped);
      } else if zip == dir {
        MoveTo(o, Finished);
      } else if awaitingReview {
        zip := dir;
        MoveTo(o, Finished);
      } else {
        MoveTo(o, Stopped);
      }
    }

    method ResolveWorkspace(o: Owner)
      requires o in builders
      modifies this
      ensures State() == WorkspaceBound(old(State()), o)
    {
      if !Holds(State(), o) {
        MoveTo(o, Stopped);
        return;
      }
      var evidence := row.value;
      row := Some(L.Written(evidence, L.Binding));
      builders := builders[o := builders[o].(stage := Bound, mayPurge := MayPurge(evidence, o),
                                             abandoned := evidence.abandonedWorkspace)];
    }

    method DropDirectory(o: Owner)
      requires o in builders
      modifies this
      ensures State() == Move(old(State()).(dir := None), o, DirPurged)
    {
      dir := None;
      MoveTo(o, DirPurged);
    }

    method DropArchive(o: Owner)
      requires o in builders
      modifies this
      ensures State() == Move(old(State()).(zip := None), o, ZipPurged)
    {
      zip := None;
      MoveTo(o, ZipPurged);
    }

    method ClearRemnants(o: Owner)
      requires o in builders
      modifies this
      ensures State() == OldCleared(old(State()), o)
    {
      if builders[o].mayPurge && builders[o].abandoned.Some? {
        workDirs := workDirs - {builders[o].abandoned.value};
        workZips := workZips - {builders[o].abandoned.value};
      }
      MoveTo(o, Cleared);
    }

    /** _purge_startup_fenced_delivery_remnants, run without interruption. */
    method PurgeRemnants(o: Owner)
      requires At(State(), o, Bound)
      modifies this
      ensures Reaches(old(State()), State()) && At(State(), o, Cleared)
      ensures if old(builders[o].mayPurge) then dir.None? && zip.None? else dir == old(dir) && zip == old(zip)
    {
      ghost var w0 := State();
      ReachesItself(w0);
      if builders[o].mayPurge {
        ReachesNext(w0, State(), PurgeDir(o));
        DropDirectory(o);
        ReachesNext(w0, State(), PurgeZip(o));
        DropArchive(o);
      }
      ReachesNext(w0, State(), ClearOld(o));
      ClearRemnants(o);
    }

    method WriteWorkspace(o: Owner, now: real)
      requires o in builders
      modifies this
      ensures State() == Built(old(State()), o, now)
    {
      workDirs := workDirs + {o};
      CompareAndSet(o, L.Renewal(now), Renewed);
    }

    method ZipWorkspace(o: Owner)
      requires o in builders
      modifies this
      ensures State() == ZippedUp(old(State()), o)
    {
      workZips := workZips + {o};
      MoveTo(o, Archived);
    }

    /** The workspace is filled, the lease renewed, the authority checked again, and only then
        the archive written. */
    method BuildWorkspace(o: Owner, now: real, drifted: bool)
      requires At(State(), o, Cleared)
      modifies this
      ensures Reaches(old(State()), State())
      ensures State() == if !Holds(old(State()), o) then Built(old(State()), o, now)
                         else if drifted then Move(Built(old(State()), o, now), o, Stopped)
                         else ZippedUp(Built(old(State()), o, now), o)
    {
      ghost var w0 := State();
      ReachesItself(w0);
      ReachesNext(w0, State(), Build(o, now));
      WriteWorkspace(o, now);
      if builders[o].stage == Stopped { return; }
      if drifted {
        ReachesNext(w0, State(), Raise(o));
        MoveTo(o, Stopped);
        return;
      }
      ReachesNext(w0, State(), ZipUp(o));
      ZipWorkspace(o);
    }

    method PromoteDirectory(o: Owner)
      requires o in builders
      modifies this
      ensures State() == DirMoved(old(State()), o)
    {
      if dir.Some? || o !in workDirs {
        MoveTo(o, Stopped);
      } else {
        dir := Some(o);
        workDirs := workDirs - {o};
        MoveTo(o, DirRenamed);
      }
    }

    method PromoteArchive(o: Owner)
      requires o in builders
      modifies this
      ensures State() == ZipMoved(old(State()), o)
    {
      if o !in workZips {
        MoveTo(o, Stopped);
      } else {
        zip := Some(o);
        workZips := workZips - {o};
        MoveTo(o, ZipRenamed);
      }
    }

    method PublishRow(o: Owner, now: real, drifted: bool)
      requires o in builders
      modifies this
      ensures State() == RowPublished(old(State()), o, now, drifted)
    {
      if drifted || !Holds(State(), o) || row.value.expires <= now || published.Some? {
        MoveTo(o, Stopped);
      } else {
        published := Some(o);
        MoveTo(o, Finished);
      }
    }

    /** The two renames with the phase advance between them. */
    method PromoteBoth(o: Owner)
      requires At(State(), o, Checked)
      modifies this
      ensures Reaches(old(State()), State())
      ensures At(State(), o, ZipRenamed) || At(State(), o, Stopped)
      ensures At(State(), o, ZipRenamed) ==> old(dir).None? && dir == zip == Some(o)
      ensures published == old(published)
      ensures old(dir).Some? ==> dir == old(dir) && zip == old(zip)
    {
      ghost var w0 := State();
      ReachesItself(w0);
      ReachesNext(w0, State(), RenameDir(o));
      PromoteDirectory(o);
      if builders[o].stage == Stopped { return; }
      ReachesNext(w0, State(), MarkDirectory(o));
      CompareAndSet(o, L.Advance(L.DirectoryPromoted), MarkedDirectory);
      if builders[o].stage == Stopped { return; }
      ReachesNext(w0, State(), RenameZip(o));
      PromoteArchive(o);
    }

    method PublishPromoted(o: Owner, now: real, drifted: bool)
      requires At(State(), o, ZipRenamed)
      modifies this
      ensures Reaches(old(State()), State())
      ensures dir == old(dir) && zip == old(zip)
      ensures || (At(State(), o, Finished) && published == Some(o))
              || (At(State(), o, Stopped) && published == old(published))
    {
      ghost var w0 := State();
      ReachesItself(w0);
      ReachesNext(w0, State(), MarkPromoted(o));
      CompareAndSet(o, L.Advance(L.Promoted), MarkedPromoted);
      if builders[o].stage == Stopped { return; }
      ReachesNext(w0, State(), Publish(o, now, drifted));
      PublishRow(o, now, drifted);
    }

    method CheckFinalPaths(o: Owner)
      requires At(State(), o, MarkedReady)
      modifies this`builders
      ensures Reaches(old(State()), State())
      ensures At(State(), o, if dir.None? && zip.None? then Checked else Stopped)
    {
      ReachesItself(State());
      ReachesNext(State(), State(), Check(o));
      MoveTo(o, if dir.None? && zip.None? then Checked else Stopped);
    }

    /** From the last check of the final paths to the published row, undisturbed. */
    method Promote(o: Owner, now: real, drifted: bool)
      requires At(State(), o, MarkedReady)
      modifies this
      ensures Reaches(old(State()), State())
      ensures At(State(), o, Finished) || At(State(), o, Stopped)
      ensures At(State(), o, Finished) ==> old(dir).None? && old(zip).None? && published == dir == zip == Some(o)
      ensures old(dir).Some? || old(zip).Some? ==> dir == old(dir) && zip == old(zip) && published == old(published)
    {
      ghost var w0 := State();
      CheckFinalPaths(o);
      if builders[o].stage == Stopped { return; }
      ghost var w1 := State();
      PromoteBoth(o);
      ReachesOnward(w0, w1, State());
      if builders[o].stage == Stopped { return; }
      ghost var w2 := State();
      PublishPromoted(o, now, drifted);
      ReachesOnward(w0, w2, State());
    }
  }

  // ----- Evidence for a purge -----

  /** What the current row must say about the claim that produced it. */
  predicate FromClaim(r: L.Receipt, o: Owner, predecessor: Option<L.Receipt>) {
    if predecessor.None? then r.fencedOwner.None?
    else
      && r.fencedOwner == (if L.Evidence(predecessor.value) then Some(o) else None)
      && r.abandonedPhase == Some(predecessor.value.phase)
      && r.abandonedWorkspace == predecessor.value.workspace
  }

  /** The predecessor's row shows an interruption or failure past `ready`, and its thread is gone. */
  ghost predicate Licensed(w: World, o: Owner) {
    o in w.builders && w.builders[o].predecessor.Some? &&
    var r := w.builders[o].predecessor.value;
    L.Evidence(r) && PastReady(Some(r.phase)) && r.owner !in w.builders
  }

  ghost predicate EvidenceInv(w: World) {
    && w.builders.Keys <= w.issued
    && (w.row.Some? ==>
          && w.row.value.owner in w.issued
          && (L.Evidence(w.row.value) ==> w.row.value.owner !in w.builders)
          && (w.row.value.owner in w.builders ==>
                FromClaim(w.row.value, w.row.value.owner, w.builders[w.row.value.owner].predecessor)))
    && (forall o :: o in w.builders ==>
          && (w.builders[o].mayPurge ==> Licensed(w, o))
          && (w.builders[o].predecessor.Some? ==>
                && w.builders[o].predecessor.value.owner in w.issued
                && (L.Evidence(w.builders[o].predecessor.value) ==>
                      w.builders[o].predecessor.value.owner !in w.builders)))
  }

  /** The parts of a state the evidence depends on. */
  ghost predicate SameEvidence(w: World, w': World) {
    && w'.issued == w.issued && w'.builders.Keys == w.builders.Keys
    && (forall o :: o in w.builders ==>
          && w'.builders[o].mayPurge == w.builders[o].mayPurge
          && w'.builders[o].predecessor == w.builders[o].predecessor)
    && w'.row.Some? == w.row.Some?
    && (w.row.Some? ==>
          && w'.row.value.owner == w.row.value.owner
          && w'.row.value.fencedOwner == w.row.value.fencedOwner
          && w'.row.value.abandonedPhase == w.row.value.abandonedPhase
          && w'.row.value.abandonedWorkspace == w.row.value.abandonedWorkspace
          && L.Evidence(w'.row.value) == L.Evidence(w.row.value))
  }

  lemma SameEvidenceKeeps(w: World, w': World)
    requires EvidenceInv(w) && SameEvidence(w, w')
    ensures EvidenceInv(w')
  {
    forall o | o in w'.builders && w'.builders[o].mayPurge ensures Licensed(w', o) {
      assert Licensed(w, o);
    }
  }

  lemma EvidenceOfClaim(w: World, o: Owner, now: real)
    requires EvidenceInv(w) && Enabled(w, Claim(o, now))
    ensures EvidenceInv(Claimed(w, o, now))
  {
    var w' := Claimed(w, o, now);
    forall b | b in w'.builders && w'.builders[b].mayPurge ensures Licensed(w', b) {
      assert Licensed(w, b);
    }
  }

  lemma EvidenceOfBind(w: World, o: Owner)
    requires EvidenceInv(w) && Enabled(w, Bind(o))
    ensures EvidenceInv(WorkspaceBound(w, o))
  {
    var w' := WorkspaceBound(w, o);
    forall b | b in w'.builders && w'.builders[b].mayPurge ensures Licensed(w', b) {
      if b != o {
        assert Licensed(w, b);
      }
    }
  }

  lemma EvidenceOfReport(w: World, o: Owner, succeeded: bool)
    requires EvidenceInv(w) && Enabled(w, Report(o, succeeded))
    ensures EvidenceInv(Reported(w, o, succeeded))
  {
    var w' := Reported(w, o, succeeded);
    forall b | b in w'.builders && w'.builders[b].mayPurge ensures Licensed(w', b) {
      assert Licensed(w, b);
    }
  }

  lemma EvidenceKept(w: World, e: Event)
    requires EvidenceInv(w) && Enabled(w, e)
    ensures EvidenceInv(Next(w, e))
  {
    match e
    case Claim(o, now) => EvidenceOfClaim(w, o, now);
    case Bind(o) => EvidenceOfBind(w, o);
    case Report(o, succeeded) => EvidenceOfReport(w, o, succeeded);
    case Restart(_) =>
    case MarkReady(_) | MarkDirectory(_) | MarkPromoted(_) | Build(_, _) =>
      MarksKeepEvidence(w, e);
      SameEvidenceKeeps(w, Next(w, e));
    case _ =>
      FileStepsKeepEvidence(w, e);
      SameEvidenceKeeps(w, Next(w, e));
  }

  lemma MarksKeepEvidence(w: World, e: Event)
    requires Enabled(w, e) && (e.MarkReady? || e.MarkDirectory? || e.MarkPromoted? || e.Build?)
    ensures SameEvidence(w, Next(w, e))
  {
    var w' := Next(w, e);
    assert w'.builders == w.builders[e.owner := w'.builders[e.owner]];
    assert Holds(w, e.owner) || w'.row == w.row;
  }

  lemma FileStepsKeepEvidence(w: World, e: Event)
    requires Enabled(w, e)
    requires e.Begin? || e.PurgeDir? || e.PurgeZip? || e.ClearOld? || e.ZipUp? || e.Check? || e.RenameDir?
             || e.RenameZip? || e.Publish? || e.Raise?
    ensures SameEvidence(w, Next(w, e))
  {
    var w' := Next(w, e);
    assert w'.row == w.row && w'.issued == w.issued;
    assert w'.builders == w.builders[e.owner := w'.builders[e.owner]];
  }

  lemma {:induction false} EvidenceHolds(events: seq<Event>)
    requires IsRun(Start(), events)
    ensures EvidenceInv(After(Start(), events))
    decreases |events|
  {
    if events != [] {
      EvidenceHolds(events[..|events| - 1]);
      EvidenceKept(After(Start(), events[..|events| - 1]), events[|events| - 1]);
    }
  }

  /** A builder between its removals of remnants. */
  ghost predicate PurgesWithEvidence(w: World) {
    forall o :: o in w.builders && w.builders[o].stage in {DirPurged, ZipPurged} ==> w.builders[o].mayPurge
  }

  lemma RemovalKept(w: World, e: Event)
    requires PurgesWithEvidence(w) && Enabled(w, e)
    ensures PurgesWithEvidence(Next(w, e))
  {
    var w' := Next(w, e);
    if !e.Restart? && !e.Report? {
      assert w'.builders == w.builders[e.owner := w'.builders[e.owner]];
    }
  }

  lemma {:induction false} RemovalHolds(events: seq<Event>)
    requires IsRun(Start(), events)
    ensures PurgesWithEvidence(After(Start(), events))
    decreases |events|
  {
    if events != [] {
      RemovalHolds(events[..|events| - 1]);
      RemovalKept(After(Start(), events[..|events| - 1]), events[|events| - 1]);
    }
  }

  /** A step that removes remnants: the final directory, the archive, the abandoned workspace. */
  predicate Purges(w: World, e: Event) {
    e.PurgeDir? || e.PurgeZip? || (e.ClearOld? && e.owner in w.builders && w.builders[e.owner].mayPurge)
  }

  /** Something that lay at a final path or in a workspace is gone, not merely renamed. */
  ghost predicate SomethingGone(w: World, w': World) {
    || (w.dir.Some? && w'.dir.None?)
    || (w.zip.Some? && w'.zip.None?)
    || (exists o :: o in w.workDirs && o !in w'.workDirs && w'.dir != Some(o))
    || (exists o :: o in w.workZips && o !in w'.workZips && w'.zip != Some(o))
  }

  lemma OnlyPurgesRemove(w: World, e: Event)
    requires Enabled(w, e) && SomethingGone(w, Next(w, e))
    ensures Purges(w, e)
  {
  }

  /** Over every run: whoever removes remnants - the final directory, the archive or the
      abandoned workspace - claimed over a row that a restart interrupted or whose failure was
      recorded, that had reached `ready`, and whose own builder is gone.  Nothing else removes
      anything, and lease expiry alone never licenses a removal. */
  lemma PurgesAreLicensed(events: seq<Event>, e: Event)
    requires IsRun(Start(), events) && Enabled(After(Start(), events), e)
    ensures Purges(After(Start(), events), e) ==> Licensed(After(Start(), events), e.owner)
    ensures SomethingGone(After(Start(), events), Next(After(Start(), events), e)) ==>
              Purges(After(Start(), events), e)
  {
    EvidenceHolds(events);
    RemovalHolds(events);
    if SomethingGone(After(Start(), events), Next(After(Start(), events), e)) {
      OnlyPurgesRemove(After(Start(), events), e);
    }
  }

  // ----- Published packages stay whole -----

  ghost predicate PublishedIntact(w: World) {
    w.published.Some? ==> w.dir == w.published && w.zip == w.published
  }

  predicate DirDone(stage: Stage) {
    stage == DirRenamed || stage == MarkedDirectory || stage == ZipRenamed || stage == MarkedPromoted
  }

  predicate ZipDone(stage: Stage) {
    stage == ZipRenamed || stage == MarkedPromoted
  }

  predicate Unpublished(stage: Stage) {
    stage != Entered && stage != Finished && stage != Stopped
  }

  /** The current owner, if its builder is in a stage satisfying `p`. */
  predicate OwnerAt(w: World, p: Stage -> bool) {
    w.row.Some? && w.row.value.status == L.Running && w.row.value.owner in w.builders
    && p(w.builders[w.row.value.owner].stage)
  }

  /** The final directory, or archive, is one that a published row or the current owner counts on. */
  predicate DirRelied(w: World) {
    w.published.Some? || OwnerAt(w, DirDone)
  }

  predicate ZipRelied(w: World) {
    w.published.Some? || OwnerAt(w, ZipDone)
  }

  ghost predicate Whole(w: World) {
    && PublishedIntact(w)
    && (w.published.Some? && w.published.value in w.builders ==> At(w, w.published.value, Finished))
    && (OwnerAt(w, Unpublished) ==> w.published.None?)
    && (OwnerAt(w, DirDone) ==> w.dir == Some(w.row.value.owner))
    && (OwnerAt(w, ZipDone) ==> w.zip == Some(w.row.value.owner))
  }

  /** A file-system step taken after its builder lost the receipt does no harm exactly when
      nobody counts on the path it changes.  A stale directory rename never does harm. */
  predicate Harmless(w: World, e: Event) {
    Stale(w, e) ==>
      match e
      case PurgeDir(_) => !DirRelied(w)
      case PurgeZip(_) => !ZipRelied(w)
      case RenameZip(o) => !ZipRelied(w) || o !in w.workZips
      case _ => true
  }

  ghost predicate OwnersIssued(w: World) {
    w.builders.Keys <= w.issued && (w.row.Some? ==> w.row.value.owner in w.issued)
    && (w.published.Some? ==> w.published.value in w.issued)
  }

  lemma WholeOfClaim(w: World, o: Owner, now: real)
    requires Whole(w) && OwnersIssued(w) && Enabled(w, Claim(o, now))
    ensures Whole(Claimed(w, o, now)) && OwnersIssued(Claimed(w, o, now))
  {
  }

  lemma WholeOfBegin(w: World, e: Event)
    requires Whole(w) && OwnersIssued(w) && Enabled(w, e) && (e.Begin? || e.Bind?)
    ensures Whole(Next(w, e)) && OwnersIssued(Next(w, e))
  {
  }

  lemma WholeOfBuild(w: World, e: Event)
    requires Whole(w) && OwnersIssued(w) && Enabled(w, e) && (e.ClearOld? || e.Build? || e.ZipUp?)
    ensures Whole(Next(w, e)) && OwnersIssued(Next(w, e))
  {
  }

  lemma WholeOfPurge(w: World, e: Event)
    requires Whole(w) && OwnersIssued(w) && Enabled(w, e) && Harmless(w, e) && (e.PurgeDir? || e.PurgeZip?)
    ensures Whole(Next(w, e)) && OwnersIssued(Next(w, e))
  {
  }

  lemma WholeOfMark(w: World, e: Event)
    requires Whole(w) && OwnersIssued(w) && Enabled(w, e)
    requires e.MarkReady? || e.Check? || e.MarkDirectory? || e.MarkPromoted?
    ensures Whole(Next(w, e)) && OwnersIssued(Next(w, e))
  {
  }

  lemma WholeOfRename(w: World, e: Event)
    requires Whole(w) && OwnersIssued(w) && Enabled(w, e) && Harmless(w, e) && (e.RenameDir? || e.RenameZip?)
    ensures Whole(Next(w, e)) && OwnersIssued(Next(w, e))
  {
  }

  lemma WholeOfEnd(w: World, e: Event)
    requires Whole(w) && OwnersIssued(w) && Enabled(w, e)
    requires e.Publish? || e.Raise? || e.Report? || e.Restart?
    ensures Whole(Next(w, e)) && OwnersIssued(Next(w, e))
  {
  }

  lemma WholeKept(w: World, e: Event)
    requires Whole(w) && OwnersIssued(w) && Enabled(w, e) && Harmless(w, e)
    ensures Whole(Next(w, e)) && OwnersIssued(Next(w, e))
  {
    match e
    case Claim(o, now) => WholeOfClaim(w, o, now);
    case Begin(_, _, _) | Bind(_) => WholeOfBegin(w, e);
    case ClearOld(_) | Build(_, _) | ZipUp(_) => WholeOfBuild(w, e);
    case PurgeDir(_) | PurgeZip(_) => WholeOfPurge(w, e);
    case MarkReady(_) | Check(_) | MarkDirectory(_) | MarkPromoted(_) => WholeOfMark(w, e);
    case RenameDir(_) | RenameZip(_) => WholeOfRename(w, e);
    case _ => WholeOfEnd(w, e);
  }

  ghost predicate HarmlessRun(w: World, events: seq<Event>)
    requires IsRun(w, events)
    decreases |events|
  {
    events == [] ||
    (var prefix := events[..|events| - 1];
     HarmlessRun(w, prefix) && Harmless(After(w, prefix), events[|events| - 1]))
  }

  lemma {:induction false} WholeHolds(w: World, events: seq<Event>)
    requires Whole(w) && OwnersIssued(w) && IsRun(w, events) && HarmlessRun(w, events)
    ensures Whole(After(w, events)) && OwnersIssued(After(w, events))
    decreases |events|
  {
    if events != [] {
      var prefix := events[..|events| - 1];
      WholeHolds(w, prefix);
      WholeKept(After(w, prefix), events[|events| - 1]);
    }
  }

  /** Under any crashes, restarts, takeovers and interleaving in which no stale file-system
      step does harm, a published package has its own directory and its own archive in
      place, at every moment after publication. */
  lemma PublishedStaysIntact(events: seq<Event>)
    requires IsRun(Start(), events) && HarmlessRun(Start(), events)
    ensures PublishedIntact(After(Start(), events))
  {
    WholeHolds(Start(), events);
  }

  /** The condition is exact: a stale step keeps everything whole if and only if nobody
      counts on the path it changes. */
  lemma StaleStepExact(w: World, e: Event)
    requires Whole(w) && OwnersIssued(w) && Enabled(w, e) && Stale(w, e)
    ensures Whole(Next(w, e)) <==> Harmless(w, e)
  {
    if Harmless(w, e) {
      WholeKept(w, e);
    } else {
      match e
      case PurgeDir(o) => assert Next(w, e).dir.None?;
      case PurgeZip(o) => assert Next(w, e).zip.None?;
      case RenameZip(o) => assert Next(w, e).zip == Some(o);
    }
  }

  // ----- A package that is already published -----

  /** What the start of a build comes to, whatever became of the files: it goes on only where
      there is no row, and over a row it ends well exactly when the directory is the published
      one and the archive is either its own or may still be rewritten.  Only then, and only if
      the draft awaits review, is a wrong archive rewritten; nothing else changes. */
  lemma ReplayExact(w: World, o: Owner, now: real, awaitingReview: bool)
    requires Enabled(w, Begin(o, now, awaitingReview))
    ensures var w', mine := Next(w, Begin(o, now, awaitingReview)), Holds(w, o) && Unexpired(w, now);
            && (At(w', o, Started) <==> mine && w.published.None?)
            && (At(w', o, Finished) <==>
                  mine && w.published.Some? && w.dir == w.published && (w.zip == w.dir || awaitingReview))
            && (At(w', o, Stopped) <==> !At(w', o, Started) && !At(w', o, Finished))
            && (w'.zip != w.zip <==>
                  mine && w.published.Some? && w.dir == w.published && w.zip != w.dir && awaitingReview)
            && (At(w', o, Finished) ==> w'.zip == w'.dir == w'.published)
            && w'.row == w.row && w'.published == w.published && w'.dir == w.dir
            && w'.workDirs == w.workDirs && w'.workZips == w.workZips
  {
  }

  predicate Unexpired(w: World, now: real) {
    w.row.Some? && w.row.value.expires > now
  }

  ghost predicate SameFiles(w: World, w': World) {
    w'.published == w.published && w'.dir == w.dir && w'.zip == w.zip
  }

  /** Over every run without harm: once a package is published, an owner that begins under an
      unexpired lease finds it, whether the draft awaits review or not, and its report makes
      the receipt succeed; the package is as it was. */
  lemma PublishedIsFound(events: seq<Event>, o: Owner, now: real, awaitingReview: bool)
    requires IsRun(Start(), events) && HarmlessRun(Start(), events)
    requires var w := After(Start(), events);
             && w.published.Some? && Enabled(w, Begin(o, now, awaitingReview))
             && Holds(w, o) && Unexpired(w, now)
    ensures var w := After(Start(), events);
            var w1 := Next(w, Begin(o, now, awaitingReview));
            && At(w1, o, Finished) && SameFiles(w, w1) && Enabled(w1, Report(o, true))
            && var w2 := Next(w1, Report(o, true));
               SameFiles(w, w2) && w2.row.Some? && w2.row.value.status == L.Succeeded && w2.row.value.owner == o
  {
    PublishedStaysIntact(events);
    ReplayExact(After(Start(), events), o, now, awaitingReview);
  }

  /** So a request repeated after a crash between publication and report succeeds: whoever
      claims the receipt then, claims, begins and reports. */
  lemma RepeatedRequestSucceeds(events: seq<Event>, o: Owner, now: real, awaitingReview: bool)
    requires IsRun(Start(), events) && HarmlessRun(Start(), events)
    requires After(Start(), events).published.Some? && Enabled(After(Start(), events), Claim(o, now))
    ensures exists w :: Reaches(After(Start(), events), w) && SameFiles(After(Start(), events), w)
                        && w.row.Some? && w.row.value.status == L.Succeeded && w.row.value.owner == o
  {
    var w := After(Start(), events);
    Do(Start(), events, Claim(o, now));
    assert (events + [Claim(o, now)])[..|events|] == events;
    PublishedIsFound(events + [Claim(o, now)], o, now, awaitingReview);
    ReachesItself(w);
    var w1 := Walk(w, w, Claim(o, now));
    var w2 := Walk(w, w1, Begin(o, now, awaitingReview));
    var w3 := Walk(w, w2, Report(o, true));
  }

  /** A package row appears exactly when the owner of an unexpired lease publishes over an
      authority that has not drifted, and it is then its own. */
  lemma PublicationExact(w: World, e: Event)
    requires Enabled(w, e)
    ensures Next(w, e).published != w.published <==>
              e.Publish? && !e.drifted && Holds(w, e.owner) && Unexpired(w, e.now) && w.published.None?
    ensures Next(w, e).published != w.published ==>
              Next(w, e).published == Some(e.owner) && At(Next(w, e), e.owner, Finished)
    ensures e.Publish? && Next(w, e).published == w.published ==> At(Next(w, e), e.owner, Stopped)
  {
  }

  // ----- The archive path -----


  /** The stages from a passed check of the final paths on. */
  predicate PastCheck(stage: Stage) {
    stage == Checked || DirDone(stage) || stage == Finished || stage == Stopped
  }

  /** Owner ids are never drawn twice, so `o` neither starts again nor takes the lease again. */
  ghost predicate WentPastCheck(w: World, o: Owner) {
    o in w.issued && (o in w.builders ==> PastCheck(w.builders[o].stage))
  }

  lemma PastCheckKept(w: World, o: Owner, e: Event)
    requires WentPastCheck(w, o) && Enabled(w, e)
    ensures WentPastCheck(Next(w, e), o)
  {
  }

  lemma LostForGood(w: World, o: Owner, e: Event)
    requires o in w.issued && Enabled(w, e) && Holds(Next(w, e), o)
    ensures Holds(w, o)
  {
  }

  /** A step that puts an archive at the final path. */
  predicate MovesArchive(w: World, e: Event) {
    e.RenameZip? && e.owner in w.workZips
  }

  lemma ArchiveStep(w: World, o: Owner, e: Event)
    requires WentPastCheck(w, o) && Enabled(w, e) && Holds(Next(w, e), o)
    ensures Next(w, e).zip.Some? <==> MovesArchive(w, e) || (w.zip.Some? && !e.PurgeZip?)
  {
    LostForGood(w, o, e);
  }

  /** In the run an archive was renamed to the final path by another builder than `o`, and not
      purged again. */
  ghost predicate ArchiveCame(w: World, events: seq<Event>, o: Owner)
    requires IsRun(w, events)
    decreases |events|
  {
    events != [] &&
    (var prefix, last := events[..|events| - 1], events[|events| - 1];
     (MovesArchive(After(w, prefix), last) && last.owner != o) || (ArchiveCame(w, prefix, o) && !last.PurgeZip?))
  }

  predicate BeforeArchive(w: World, o: Owner) {
    At(w, o, Checked) || At(w, o, DirRenamed) || At(w, o, MarkedDirectory)
  }

  lemma BeforeArchiveBack(w: World, o: Owner, e: Event)
    requires WentPastCheck(w, o) && Enabled(w, e) && BeforeArchive(Next(w, e), o)
    ensures BeforeArchive(w, o) && !(e.RenameZip? && e.owner == o)
  {
  }

  lemma {:induction false} ArchiveTaken(w: World, o: Owner, events: seq<Event>)
    requires WentPastCheck(w, o) && w.zip.None? && IsRun(w, events)
    requires Holds(After(w, events), o) && BeforeArchive(After(w, events), o)
    ensures After(w, events).zip.Some? <==> ArchiveCame(w, events, o)
    decreases |events|
  {
    if events != [] {
      var prefix, last := events[..|events| - 1], events[|events| - 1];
      StaysPastCheck(w, o, prefix);
      LostForGood(After(w, prefix), o, last);
      BeforeArchiveBack(After(w, prefix), o, last);
      ArchiveTaken(w, o, prefix);
      ArchiveStep(After(w, prefix), o, last);
    }
  }

  lemma {:induction false} StaysPastCheck(w: World, o: Owner, events: seq<Event>)
    requires WentPastCheck(w, o) && IsRun(w, events)
    ensures WentPastCheck(After(w, events), o)
    decreases |events|
  {
    if events != [] {
      StaysPastCheck(w, o, events[..|events| - 1]);
      PastCheckKept(After(w, events[..|events| - 1]), o, events[|events| - 1]);
    }
  }

  /** When the current owner comes to rename its archive, the path is taken exactly when
      after its own check another builder renamed an archive there that nobody purged. */
  lemma ArchiveOverwrittenExact(before: seq<Event>, o: Owner, after: seq<Event>)
    requires IsRun(Start(), before) && Enabled(After(Start(), before), Check(o))
    requires var w := Next(After(Start(), before), Check(o));
             && At(w, o, Checked) && IsRun(w, after)
             && Enabled(After(w, after), RenameZip(o)) && Holds(After(w, after), o)
    ensures var w := Next(After(Start(), before), Check(o));
            After(w, after).zip.Some? <==> ArchiveCame(w, after, o)
  {
    EvidenceHolds(before);
    ArchiveTaken(Next(After(Start(), before), Check(o)), o, after);
  }

  // ----- A stale step that does harm -----

  lemma PublishesAnyway(w: World, o: Owner, now: real)
    requires Holds(w, o) && At(w, o, MarkedPromoted) && Unexpired(w, now) && w.published.None?
    ensures var e := Publish(o, now, false);
            && Enabled(w, e) && Next(w, e).published == Some(o)
            && Next(w, e).dir == w.dir && Next(w, e).zip == w.zip
  {
  }

  function Remaining(stage: Stage): nat {
    match stage case DirRenamed => 3 case MarkedDirectory => 2 case ZipRenamed => 1 case _ => 0
  }

  /** The current owner at `stage` or later, able to go on to publication. */
  ghost predicate CanGoOn(w: World, o: Owner, now: real) {
    && Holds(w, o) && o in w.builders && DirDone(w.builders[o].stage)
    && Unexpired(w, now) && w.published.None?
    && (Remaining(w.builders[o].stage) >= 2 ==> o in w.workZips)
  }

  /** `w'` has `o`'s row published over the directory of `w`, and over its archive too
      when that was already in place. */
  ghost predicate PublishedOver(w: World, o: Owner, w': World) {
    && Reaches(w, w') && w'.published == Some(o) && w'.dir == w.dir
    && (o in w.builders && ZipDone(w.builders[o].stage) ==> w'.zip == w.zip)
  }

  function OwnerStep(w: World, o: Owner): Event
    requires o in w.builders
  {
    match w.builders[o].stage
    case DirRenamed => MarkDirectory(o)
    case MarkedDirectory => RenameZip(o)
    case _ => MarkPromoted(o)
  }

  lemma OwnerStepGoesOn(w: World, o: Owner, now: real)
    requires CanGoOn(w, o, now) && Remaining(w.builders[o].stage) > 0
    ensures Enabled(w, OwnerStep(w, o))
    ensures var w1 := Next(w, OwnerStep(w, o));
            && CanGoOn(w1, o, now) && w1.dir == w.dir
            && (ZipDone(w.builders[o].stage) ==> w1.zip == w.zip)
            && Remaining(w1.builders[o].stage) == Remaining(w.builders[o].stage) - 1
  {
  }

  /** From any point after its directory rename the current owner can run on to a published
      row, whatever has become of the directory meanwhile. */
  lemma {:induction false} OwnerRunsOn(w: World, o: Owner, now: real) returns (w': World)
    requires CanGoOn(w, o, now)
    ensures PublishedOver(w, o, w')
    decreases Remaining(w.builders[o].stage)
  {
    ReachesItself(w);
    if Remaining(w.builders[o].stage) == 0 {
      PublishesAnyway(w, o, now);
      ReachesNext(w, w, Publish(o, now, false));
      w' := Next(w, Publish(o, now, false));
    } else {
      OwnerStepGoesOn(w, o, now);
      ReachesNext(w, w, OwnerStep(w, o));
      var w1 := Next(w, OwnerStep(w, o));
      w' := OwnerRunsOn(w1, o, now);
      ReachesOnward(w, w1, w');
    }
  }

  lemma HarmLeavesOwnerRunning(w: World, e: Event, now: real)
    requires Whole(w) && Enabled(w, e) && !Harmless(w, e) && w.published.None?
    requires CanGoOn(w, w.row.value.owner, now)
    ensures var w1 := Next(w, e); var o := w.row.value.owner;
            && CanGoOn(w1, o, now) && w1.builders[o] == w.builders[o]
            && (w1.dir != Some(o) || (ZipDone(w.builders[o].stage) && w1.zip != Some(o)))
  {
  }

  /** Harm shows: after a harmful stale step a run exists, within the current owner's
      lease, that ends with a published package whose files are not its own. */
  lemma HarmReachesPublication(w: World, e: Event, now: real)
    requires Whole(w) && OwnersIssued(w) && Enabled(w, e) && !Harmless(w, e)
    requires w.published.None? ==> CanGoOn(w, w.row.value.owner, now)
    ensures exists w' :: Reaches(w, w') && !PublishedIntact(w')
  {
    ReachesItself(w);
    ReachesNext(w, w, e);
    var w1 := Next(w, e);
    if w.published.Some? {
      StaleStepExact(w, e);
      assert Reaches(w, w1) && !PublishedIntact(w1);
    } else {
      HarmLeavesOwnerRunning(w, e, now);
      var w2 := OwnerRunsOn(w1, w.row.value.owner, now);
      ReachesOnward(w, w1, w2);
    }
  }

  lemma Walk(w0: World, w: World, e: Event) returns (w': World)
    requires Reaches(w0, w) && Enabled(w, e)
    ensures w' == Next(w, e) && Reaches(w0, w')
  {
    ReachesNext(w0, w, e);
    w' := Next(w, e);
  }

  /** An owner whose lease lasts until `until`, cleared to build on free final paths. */
  ghost predicate ReadyToBuild(w: World, o: Owner, now: real) {
    Holds(w, o) && At(w, o, Cleared) && Unexpired(w, now) && w.dir.None? && w.zip.None? && w.published.None?
  }

  ghost predicate OthersUntouched(w: World, w': World, o: Owner) {
    && w'.builders.Keys == w.builders.Keys && w.workZips - {o} <= w'.workZips
    && forall b :: b in w.builders && b != o ==> w'.builders[b] == w.builders[b]
  }

  lemma UndisturbedRenames(w: World, o: Owner) returns (w': World)
    requires Holds(w, o) && At(w, o, Checked) && w.dir.None? && o in w.workDirs && o in w.workZips
    ensures Reaches(w, w') && OthersUntouched(w, w', o) && At(w', o, ZipRenamed)
    ensures w'.dir == Some(o) && w'.zip == Some(o) && w'.published == w.published
    ensures Holds(w', o) && w'.row.value.expires == w.row.value.expires
  {
    ReachesItself(w);
    var w1 := Walk(w, w, RenameDir(o));
    var w2 := Walk(w, w1, MarkDirectory(o));
    w' := Walk(w, w2, RenameZip(o));
  }

  lemma UndisturbedPromotion(w: World, o: Owner, now: real) returns (w': World)
    requires Holds(w, o) && At(w, o, Checked) && Unexpired(w, now)
    requires w.dir.None? && w.published.None? && o in w.workDirs && o in w.workZips
    ensures Reaches(w, w') && OthersUntouched(w, w', o)
    ensures w'.published == Some(o) && w'.dir == Some(o) && w'.zip == Some(o)
  {
    var w1 := UndisturbedRenames(w, o);
    var w2 := Walk(w, w1, MarkPromoted(o));
    w' := Walk(w, w2, Publish(o, now, false));
  }

  /** Left alone, such an owner builds, promotes and publishes. */
  lemma UndisturbedBuildPublishes(w: World, o: Owner, now: real) returns (w': World)
    requires ReadyToBuild(w, o, now)
    ensures Reaches(w, w') && OthersUntouched(w, w', o)
    ensures w'.published == Some(o) && w'.dir == Some(o) && w'.zip == Some(o)
  {
    ReachesItself(w);
    var w1 := Walk(w, w, Build(o, now));
    var w2 := Walk(w, w1, ZipUp(o));
    var w3 := Walk(w, w2, MarkReady(o));
    var w4 := Walk(w, w3, Check(o));
    w' := UndisturbedPromotion(w4, o, now);
    ReachesOnward(w, w4, w');
  }

  ghost predicate InterruptedAtReady(w: World) {
    && w.row.Some? && w.row.value.status == L.Running && w.row.value.expires == 0.0
    && w.row.value.interruptedAt.Some? && w.row.value.phase == L.Ready
    && w.builders == map[] && w.issued == {1} && w.dir.None? && w.zip.None? && w.published.None?
  }

  lemma TakesLease(w: World, o: Owner, now: real) returns (w': World)
    requires Enabled(w, Claim(o, now)) && w.published.None?
    ensures Reaches(w, w') && w' == Move(Claimed(w, o, now), o, Started)
  {
    ReachesItself(w);
    var w1 := Walk(w, w, Claim(o, now));
    w' := Walk(w, w1, Begin(o, now, true));
  }

  lemma ClearsNothing(w: World, o: Owner) returns (w': World)
    requires Holds(w, o) && At(w, o, Started) && !MayPurge(w.row.value, o)
    ensures Reaches(w, w') && OthersUntouched(w, w', o) && At(w', o, Cleared)
    ensures w'.row == Some(L.Written(w.row.value, L.Binding)) && w'.issued == w.issued
    ensures w'.dir == w.dir && w'.zip == w.zip && w'.published == w.published
  {
    ReachesItself(w);
    var w1 := Walk(w, w, Bind(o));
    w' := Walk(w, w1, ClearOld(o));
  }

  lemma FirstOwnerCleared() returns (w: World)
    ensures Reaches(Start(), w) && ReadyToBuild(w, 1, 0.0) && w.issued == {1} && w.builders.Keys == {1}
    ensures !L.Evidence(w.row.value)
  {
    var w1 := TakesLease(Start(), 1, 0.0);
    w := ClearsNothing(w1, 1);
    ReachesOnward(Start(), w1, w);
  }

  lemma CrashAtReady() returns (w: World)
    ensures Reaches(Start(), w) && InterruptedAtReady(w)
  {
    var w1 := FirstOwnerCleared();
    var w2 := Walk(Start(), w1, Build(1, 0.0));
    var w3 := Walk(Start(), w2, ZipUp(1));
    var w4 := Walk(Start(), w3, MarkReady(1));
    w := Walk(Start(), w4, Restart(1.0));
  }

  /** Owner 2 stops between reading its evidence and purging; owner 3 takes over when the
      lease runs out. */
  lemma StalledBeforePurge(w: World) returns (w': World)
    requires InterruptedAtReady(w)
    ensures Reaches(w, w') && ReadyToBuild(w', 3, 20000.0)
    ensures At(w', 2, Bound) && w'.builders[2].mayPurge && !Holds(w', 2)
  {
    var w1 := TakesLease(w, 2, 2.0);
    var w2 := Walk(w, w1, Bind(2));
    var w3 := TakesLease(w2, 3, 20000.0);
    ReachesOnward(w, w2, w3);
    w' := ClearsNothing(w3, 3);
    ReachesOnward(w, w3, w');
  }

  /** Without the condition the promise fails: from the empty state a run exists in which a
      builder that stalled between reading its evidence and acting on it removes the
      directory of a package another owner has published in the meantime. */
  lemma PublishedPackageCanBePurged()
    ensures exists w :: Reaches(Start(), w) && w.published == Some(3) && w.dir.None?
  {
    var w1 := CrashAtReady();
    var w2 := StalledBeforePurge(w1);
    ReachesOnward(Start(), w1, w2);
    var w3 := UndisturbedBuildPublishes(w2, 3, 20000.0);
    ReachesOnward(Start(), w2, w3);
    ReachesNext(Start(), w3, PurgeDir(2));
    assert Next(w3, PurgeDir(2)).dir.None?;
  }

  // ----- A published archive overwritten -----

  /** Owner 1 between its two renames. */
  ghost predicate HalfPromoted(w: World) {
    At(w, 1, MarkedDirectory) && 1 in w.workZips && w.published.None?
  }

  lemma FirstOwnerHalfPromoted() returns (w: World)
    ensures Reaches(Start(), w) && HalfPromoted(w) && w.issued == {1} && Holds(w, 1)
    ensures w.dir == Some(1) && w.row.value.expires <= 14400.0 && !L.Evidence(w.row.value)
  {
    var w1 := FirstOwnerChecked();
    var w2 := Walk(Start(), w1, RenameDir(1));
    w := Walk(Start(), w2, MarkDirectory(1));
  }

  lemma SecondOwnerCleared(w: World) returns (w': World)
    requires HalfPromoted(w) && w.issued == {1} && Holds(w, 1) && w.dir == Some(1)
    requires w.row.value.expires <= 14400.0 && !L.Evidence(w.row.value)
    ensures Reaches(w, w') && HalfPromoted(w') && w'.issued == {1, 2} && w'.dir == Some(1)
    ensures Holds(w', 2) && At(w', 2, Cleared) && w'.row.value.workspace == Some(2)
  {
    var w1 := TakesLease(w, 2, 20000.0);
    w' := ClearsNothing(w1, 2);
    ReachesOnward(w, w1, w');
  }

  /** Owner 2 has taken over when the lease ran out; it finds the directory in its way. */
  lemma SecondOwnerFails(w: World) returns (w': World)
    requires HalfPromoted(w) && w.issued == {1, 2} && w.dir == Some(1)
    requires Holds(w, 2) && At(w, 2, Cleared) && w.row.value.workspace == Some(2)
    ensures Reaches(w, w') && HalfPromoted(w') && w'.issued == {1, 2}
    ensures w'.row.Some? && w'.row.value.status == L.Failed && w'.row.value.phase == L.Ready
    ensures w'.row.value.workspace == Some(2)
  {
    ReachesItself(w);
    var w1 := Walk(w, w, Build(2, 20000.0));
    var w2 := Walk(w, w1, ZipUp(2));
    var w3 := Walk(w, w2, MarkReady(2));
    var w4 := Walk(w, w3, Check(2));
    w' := Walk(w, w4, Report(2, false));
  }

  lemma ThirdOwnerClaims(w: World) returns (w': World)
    requires HalfPromoted(w) && w.issued == {1, 2}
    requires w.row.Some? && w.row.value.status == L.Failed && w.row.value.phase == L.Ready
    requires w.row.value.workspace == Some(2)
    ensures Reaches(w, w') && HalfPromoted(w') && Holds(w', 3) && At(w', 3, Bound) && Unexpired(w', 30000.0)
    ensures w'.builders[3].mayPurge && w'.builders[3].abandoned == Some(2)
  {
    var w1 := TakesLease(w, 3, 30000.0);
    w' := Walk(w, w1, Bind(3));
  }

  lemma ThirdOwnerPurges(w: World) returns (w': World)
    requires HalfPromoted(w) && Holds(w, 3) && At(w, 3, Bound) && Unexpired(w, 30000.0)
    requires w.builders[3].mayPurge && w.builders[3].abandoned == Some(2)
    ensures Reaches(w, w') && HalfPromoted(w') && ReadyToBuild(w', 3, 30000.0)
  {
    ReachesItself(w);
    var w1 := Walk(w, w, PurgeDir(3));
    var w2 := Walk(w, w1, PurgeZip(3));
    w' := Walk(w, w2, ClearOld(3));
  }

  lemma ThirdOwnerReady() returns (w: World)
    ensures Reaches(Start(), w) && HalfPromoted(w) && ReadyToBuild(w, 3, 30000.0)
  {
    var w1 := FirstOwnerHalfPromoted();
    var w2 := SecondOwnerCleared(w1);
    ReachesOnward(Start(), w1, w2);
    var w3 := SecondOwnerFails(w2);
    ReachesOnward(Start(), w2, w3);
    var w4 := ThirdOwnerClaims(w3);
    ReachesOnward(Start(), w3, w4);
    w := ThirdOwnerPurges(w4);
    ReachesOnward(Start(), w4, w);
  }

  /** The promise that no archive is overwritten fails: owner 1, stalled between its renames,
      puts its archive in the place of the one owner 3 has published. */
  lemma PublishedArchiveCanBeOverwritten()
    ensures exists w :: Reaches(Start(), w) && w.published == w.zip == Some(3) && Enabled(w, RenameZip(1))
                        && Next(w, RenameZip(1)).published == Some(3) && Next(w, RenameZip(1)).zip == Some(1)
  {
    var w1 := ThirdOwnerReady();
    var w2 := UndisturbedBuildPublishes(w1, 3, 30000.0);
    ReachesOnward(Start(), w1, w2);
    assert 1 in w2.workZips && At(w2, 1, MarkedDirectory);
  }

  // ----- A takeover after one interruption -----

  predicate Takeover(e: Event) {
    e.Claim? || e.Restart?
  }

  ghost predicate NoTakeover(events: seq<Event>) {
    forall i :: 0 <= i < |events| ==> !Takeover(events[i])
  }

  /** Whatever lies at the final paths can be accounted to the current row's phase. */
  ghost predicate Accounted(w: World) {
    w.row.Some? && (w.dir.Some? || w.zip.Some? ==> PastReady(Some(w.row.value.phase)))
  }

  /** A sole builder `o`, with the purge of any remnants still ahead of it or done. */
  ghost predicate Purging(w: World, o: Owner) {
    && w.builders.Keys <= {o} && w.row.Some? && w.row.value.owner == o
    && (w.published.None? && o in w.builders ==>
          match w.builders[o].stage
          case Entered | Started =>
            w.dir.Some? || w.zip.Some? ==>
              w.row.value.fencedOwner == Some(o) && PastReady(w.row.value.abandonedPhase)
          case Bound => w.dir.Some? || w.zip.Some? ==> w.builders[o].mayPurge
          case DirPurged => w.dir.None?
          case ZipPurged | Cleared | Renewed | Archived | MarkedReady | Checked => w.dir.None? && w.zip.None?
          case _ => true)
    && (w.published.Some? && o in w.builders ==>
          w.builders[o].stage == Entered || w.builders[o].stage == Finished || w.builders[o].stage == Stopped)
  }

  lemma PurgingKeptBeforeReady(w: World, o: Owner, e: Event)
    requires Purging(w, o) && Enabled(w, e)
    requires e.Begin? || e.Bind? || e.PurgeDir? || e.PurgeZip? || e.ClearOld? || e.Build?
    ensures Purging(Next(w, e), o)
  {
  }

  lemma PurgingKeptAfter(w: World, o: Owner, e: Event)
    requires Purging(w, o) && Enabled(w, e) && !Takeover(e)
    requires !(e.Begin? || e.Bind? || e.PurgeDir? || e.PurgeZip? || e.ClearOld? || e.Build?)
    ensures Purging(Next(w, e), o)
  {
  }

  lemma PurgingKept(w: World, o: Owner, e: Event)
    requires Purging(w, o) && Enabled(w, e) && !Takeover(e)
    ensures Purging(Next(w, e), o)
  {
    if e.Begin? || e.Bind? || e.PurgeDir? || e.PurgeZip? || e.ClearOld? || e.Build? {
      PurgingKeptBeforeReady(w, o, e);
    } else {
      PurgingKeptAfter(w, o, e);
    }
  }

  lemma {:induction false} PurgingHolds(w: World, o: Owner, events: seq<Event>)
    requires Purging(w, o) && IsRun(w, events) && NoTakeover(events)
    ensures Purging(After(w, events), o)
    decreases |events|
  {
    if events != [] {
      var prefix := events[..|events| - 1];
      PurgingHolds(w, o, prefix);
      PurgingKept(After(w, prefix), o, events[|events| - 1]);
    }
  }

  /** An owner that takes over after a restart or a recorded failure, when what lies at the
      final paths is accounted for and no other builder is left, finds those paths free
      at its own check, however its steps go before. */
  lemma TakeoverFindsPathsFree(w: World, o: Owner, now: real, events: seq<Event>)
    requires w.builders == map[] && Accounted(w) && L.Evidence(w.row.value) && Enabled(w, Claim(o, now))
    requires IsRun(Claimed(w, o, now), events) && NoTakeover(events)
    requires Enabled(After(Claimed(w, o, now), events), Check(o))
    ensures var w' := After(Claimed(w, o, now), events);
            w'.published.None? && w'.dir.None? && w'.zip.None? && At(Next(w', Check(o)), o, Checked)
  {
    PurgingHolds(Claimed(w, o, now), o, events);
  }

  // ----- And only then -----

  /** What lies at the final paths, if anything, may be purged by the owner that claims next. */
  ghost predicate Recoverable(w: World) {
    w.row.Some? && (w.dir.Some? || w.zip.Some? ==> L.Evidence(w.row.value) && PastReady(Some(w.row.value.phase)))
  }

  /** A sole builder `o` that may not purge, with remnants in its way. */
  ghost predicate Blocked(w: World, o: Owner) {
    && w.builders.Keys <= {o} && w.row.Some? && w.row.value.owner == o && (w.dir.Some? || w.zip.Some?)
    && (o in w.builders ==>
          match w.builders[o].stage
          case Entered => !MayPurge(w.row.value, o)
          case Started => w.published.None? && !MayPurge(w.row.value, o)
          case Bound | Cleared | Renewed | Archived | MarkedReady => w.published.None? && !w.builders[o].mayPurge
          case Finished => w.published.Some?
          case Stopped => true
          case _ => false)
  }

  lemma BlockedKeptEarly(w: World, o: Owner, e: Event)
    requires Blocked(w, o) && Enabled(w, e) && (e.Begin? || e.Bind? || e.ClearOld? || e.Build? || e.MarkReady?)
    ensures Blocked(Next(w, e), o)
  {
  }

  lemma BlockedKeptLate(w: World, o: Owner, e: Event)
    requires Blocked(w, o) && Enabled(w, e) && !Takeover(e)
    requires !(e.Begin? || e.Bind? || e.ClearOld? || e.Build? || e.MarkReady?)
    ensures Blocked(Next(w, e), o)
  {
  }

  lemma BlockedKept(w: World, o: Owner, e: Event)
    requires Blocked(w, o) && Enabled(w, e) && !Takeover(e)
    ensures Blocked(Next(w, e), o)
  {
    if e.Begin? || e.Bind? || e.ClearOld? || e.Build? || e.MarkReady? {
      BlockedKeptEarly(w, o, e);
    } else {
      BlockedKeptLate(w, o, e);
    }
  }

  lemma {:induction false} BlockedHolds(w: World, o: Owner, events: seq<Event>)
    requires Blocked(w, o) && IsRun(w, events) && NoTakeover(events)
    ensures Blocked(After(w, events), o)
    decreases |events|
  {
    if events != [] {
      var prefix := events[..|events| - 1];
      BlockedHolds(w, o, prefix);
      BlockedKept(After(w, prefix), o, events[|events| - 1]);
    }
  }

  ghost predicate ReachesCheck(w: World, o: Owner, events: seq<Event>) {
    IsRun(w, events) && NoTakeover(events) && At(After(w, events), o, Checked)
  }

  lemma DoNext(w: World, events: seq<Event>, e: Event)
    requires IsRun(w, events) && NoTakeover(events) && Enabled(After(w, events), e) && !Takeover(e)
    ensures IsRun(w, events + [e]) && NoTakeover(events + [e])
    ensures After(w, events + [e]) == Next(After(w, events), e)
  {
    Do(w, events, e);
  }

  lemma Binds(w: World, o: Owner, now: real) returns (events: seq<Event>)
    requires Holds(w, o) && At(w, o, Entered) && Unexpired(w, now) && w.published.None?
    ensures IsRun(w, events) && NoTakeover(events)
    ensures var w' := After(w, events);
            && Holds(w', o) && At(w', o, Bound) && w'.published.None? && w'.dir == w.dir && w'.zip == w.zip
            && w'.builders[o].mayPurge == MayPurge(w.row.value, o)
  {
    events := [];
    DoNext(w, events, Begin(o, now, true));
    events := events + [Begin(o, now, true)];
    DoNext(w, events, Bind(o));
    events := events + [Bind(o)];
  }

  lemma Cleans(w: World, o: Owner, before: seq<Event>) returns (events: seq<Event>)
    requires IsRun(w, before) && NoTakeover(before)
    requires var w' := After(w, before);
             && Holds(w', o) && At(w', o, Bound) && (w'.dir.Some? || w'.zip.Some? ==> w'.builders[o].mayPurge)
    ensures IsRun(w, events) && NoTakeover(events)
    ensures var w' := After(w, events); Holds(w', o) && At(w', o, Cleared) && w'.dir.None? && w'.zip.None?
  {
    events := before;
    if After(w, before).builders[o].mayPurge {
      DoNext(w, events, PurgeDir(o));
      events := events + [PurgeDir(o)];
      DoNext(w, events, PurgeZip(o));
      events := events + [PurgeZip(o)];
    }
    DoNext(w, events, ClearOld(o));
    events := events + [ClearOld(o)];
  }

  lemma BuildsAndChecks(w: World, o: Owner, now: real, before: seq<Event>) returns (events: seq<Event>)
    requires IsRun(w, before) && NoTakeover(before)
    requires var w' := After(w, before);
             Holds(w', o) && At(w', o, Cleared) && w'.dir.None? && w'.zip.None?
    ensures ReachesCheck(w, o, events)
  {
    events := before;
    DoNext(w, events, Build(o, now));
    events := events + [Build(o, now)];
    DoNext(w, events, ZipUp(o));
    events := events + [ZipUp(o)];
    DoNext(w, events, MarkReady(o));
    events := events + [MarkReady(o)];
    DoNext(w, events, Check(o));
    events := events + [Check(o)];
  }

  /** With no other builder left, the check of an owner that has taken over goes well exactly
      when what lay at the final paths was recoverable, however its steps went before. */
  lemma CheckExact(w: World, o: Owner, now: real, events: seq<Event>)
    requires w.builders == map[] && w.row.Some? && Enabled(w, Claim(o, now))
    requires IsRun(Claimed(w, o, now), events) && NoTakeover(events)
    requires Enabled(After(Claimed(w, o, now), events), Check(o))
    ensures At(Next(After(Claimed(w, o, now), events), Check(o)), o, Checked) <==> Recoverable(w)
  {
    if Recoverable(w) {
      PurgingHolds(Claimed(w, o, now), o, events);
    } else {
      BlockedHolds(Claimed(w, o, now), o, events);
    }
  }

  /** With no other builder left and nothing published, an owner that takes over can get past
      its own check exactly when what lies at the final paths is recoverable. */
  lemma TakeoverExact(w: World, o: Owner, now: real)
    requires w.builders == map[] && w.row.Some? && w.published.None? && Enabled(w, Claim(o, now))
    ensures (exists events :: ReachesCheck(Claimed(w, o, now), o, events)) <==> Recoverable(w)
  {
    var w1 := Claimed(w, o, now);
    if Recoverable(w) {
      var bound := Binds(w1, o, now);
      var cleaned := Cleans(w1, o, bound);
      var events := BuildsAndChecks(w1, o, now, cleaned);
    } else {
      forall events | IsRun(w1, events) && NoTakeover(events) ensures !At(After(w1, events), o, Checked) {
        BlockedHolds(w1, o, events);
      }
    }
  }

  // ----- The first owner's remnants are always accounted for -----

  ghost predicate FirstOwner(w: World, o: Owner) {
    && w.builders.Keys <= {o} && Accounted(w) && w.row.value.owner == o && w.issued == {o}
    && (o in w.builders ==> w.row.value.status == L.Running)
    && (o !in w.builders ==> w.row.value.status != L.Running)
    && w.row.value.fencedOwner.None?
    && (o in w.builders ==>
          !w.builders[o].mayPurge &&
          match w.builders[o].stage
          case Entered | Started | Bound | Cleared | Renewed | Archived =>
            w.dir.None? && w.zip.None? && w.published.None?
          case DirPurged | ZipPurged => false
          case MarkedReady | Checked | DirRenamed | MarkedDirectory | ZipRenamed | MarkedPromoted | Finished =>
            PastReady(Some(w.row.value.phase))
          case _ => true)
  }

  lemma FirstOwnerKept(w: World, o: Owner, e: Event)
    requires FirstOwner(w, o) && Enabled(w, e) && !Takeover(e)
    ensures FirstOwner(Next(w, e), o)
  {
  }

  lemma {:induction false} FirstOwnerHolds(w: World, o: Owner, events: seq<Event>)
    requires FirstOwner(w, o) && IsRun(w, events) && NoTakeover(events)
    ensures FirstOwner(After(w, events), o)
    decreases |events|
  {
    if events != [] {
      var prefix := events[..|events| - 1];
      FirstOwnerHolds(w, o, prefix);
      FirstOwnerKept(After(w, prefix), o, events[|events| - 1]);
    }
  }

  /** One interruption: wherever the first owner's build was when the process restarted,
      the owner that claims next finds the final paths free when it comes to promote. */
  lemma OneInterruptionIsRecovered(a: Owner, t0: real, before: seq<Event>, crash: real,
                                   b: Owner, t1: real, after: seq<Event>)
    requires Enabled(Start(), Claim(a, t0))
    requires IsRun(Claimed(Start(), a, t0), before) && NoTakeover(before)
    requires var w1 := Restarted(After(Claimed(Start(), a, t0), before), crash);
             && Enabled(w1, Claim(b, t1))
             && IsRun(Claimed(w1, b, t1), after) && NoTakeover(after)
             && Enabled(After(Claimed(w1, b, t1), after), Check(b))
    ensures var w1 := Restarted(After(Claimed(Start(), a, t0), before), crash);
            var w2 := After(Claimed(w1, b, t1), after);
            w2.dir.None? && w2.zip.None? && At(Next(w2, Check(b)), b, Checked)
  {
    FirstOwnerHolds(Claimed(Start(), a, t0), a, before);
    var w1 := Restarted(After(Claimed(Start(), a, t0), before), crash);
    TakeoverFindsPathsFree(w1, b, t1, after);
  }

  lemma InterruptedTwice() returns (w: World)
    ensures Reaches(Start(), w) && w.dir == Some(1) && w.published.None? && w.issued == {1, 2}
    ensures w.row.Some? && w.row.value.phase == L.Claimed && w.row.value.expires == 0.0
    ensures w.row.value.status == L.Running
  {
    var w1 := FirstOwnerChecked();
    var w2 := Walk(Start(), w1, RenameDir(1));
    var w3 := Walk(Start(), w2, Restart(1.0));
    var w4 := Walk(Start(), w3, Claim(2, 2.0));
    w := Walk(Start(), w4, Restart(3.0));
  }

  lemma StopsBehindRemnants(w: World, o: Owner, now: real) returns (w': World)
    requires Holds(w, o) && At(w, o, Cleared) && w.dir.Some?
    ensures Reaches(w, w') && At(w', o, MarkedReady) && w'.dir == w.dir
    ensures At(Next(w', Check(o)), o, Stopped)
  {
    ReachesItself(w);
    var w1 := Walk(w, w, Build(o, now));
    var w2 := Walk(w, w1, ZipUp(o));
    w' := Walk(w, w2, MarkReady(o));
  }

  /** A second interruption before the purge overwrites the evidence: the third owner then
      finds the first one's directory in its way and stops. */
  lemma TwoInterruptionsLeaveRemnants()
    ensures exists w :: Reaches(Start(), w) && At(w, 3, MarkedReady) && w.dir == Some(1)
                        && At(Next(w, Check(3)), 3, Stopped)
  {
    var w1 := InterruptedTwice();
    var w2 := TakesLease(w1, 3, 4.0);
    ReachesOnward(Start(), w1, w2);
    var w3 := ClearsNothing(w2, 3);
    ReachesOnward(Start(), w2, w3);
    var w4 := StopsBehindRemnants(w3, 3, 4.0);
    ReachesOnward(Start(), w3, w4);
  }

  lemma FirstOwnerChecked() returns (w: World)
    ensures Reaches(Start(), w) && At(w, 1, Checked) && w.builders.Keys == {1} && w.issued == {1}
    ensures Holds(w, 1) && w.row.value.expires == L.LEASE_S && !L.Evidence(w.row.value)
    ensures w.dir.None? && w.zip.None? && w.published.None? && 1 in w.workDirs && 1 in w.workZips
  {
    var w1 := FirstOwnerCleared();
    var w2 := Walk(Start(), w1, Build(1, 0.0));
    var w3 := Walk(Start(), w2, ZipUp(1));
    var w4 := Walk(Start(), w3, MarkReady(1));
    w := Walk(Start(), w4, Check(1));
  }

  /** But such a stop is itself a failure past `ready`: once it is recorded, the next owner
      finds the paths free. */
  lemma StopAtCheckIsRecovered(w: World, o: Owner, b: Owner, now: real, events: seq<Event>)
    requires w.builders.Keys == {o} && Holds(w, o) && At(w, o, Stopped) && w.row.value.phase == L.Ready
    requires b !in w.issued
    requires var w1 := Reported(w, o, false);
             && IsRun(Claimed(w1, b, now), events) && NoTakeover(events)
             && Enabled(After(Claimed(w1, b, now), events), Check(b))
    ensures var w2 := After(Claimed(Reported(w, o, false), b, now), events);
            At(Next(w2, Check(b)), b, Checked)
  {
    assert Reported(w, o, false).builders == map[];
    TakeoverFindsPathsFree(Reported(w, o, false), b, now, events);
  }
}
