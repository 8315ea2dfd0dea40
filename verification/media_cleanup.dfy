/** The media cleanup outbox (app/artifacts.py): one outbox row, the flushes that try to
    execute it, sweeps and crashes, and files that anyone may change between two steps.

    What lstat and the tree digest saw of a public path is a parameter of the step, since
    others may change the path at any moment.  The quarantine directory is private to the
    flush.  The token table's lock is left out, which only adds interleavings. */
module MediaCleanup {
  import opened Wrappers

  type Path = string
  type Token = nat
  type FlushId = nat
  type Slot = nat

  datatype Kind = File | Directory
  datatype Stat = Stat(device: int, inode: int, isDirectory: bool, mode: int, size: int, mtime: int)

  /** What lies at a path: its stat, and the digest of its tree if it is a directory. */
  datatype Node = Node(stat: Stat, ctime: int, tree: string)

  datatype Generation =
    | Absent(verifiable: bool)
    | Unreadable
    | Present(kind: Kind, stat: Stat, ctime: int, tree: Option<string>, verifiable: bool)

  /** `generation` is None when the entry carries no fence. */
  datatype Entry = Entry(kind: Kind, path: Path, generation: Option<Generation>) | LegacyEntry(path: Path)
  datatype Payload = Invalid | Valid(entries: seq<Entry>, token: Option<Token>)

  datatype Status = Pending | Executing | Completed | ManualRequired

  /** last_error. A failure is recorded with its quarantines; the record is cut at 800
      characters, and `whole` says whether it fits. */
  datatype Note = NoError | InvalidPayload | LegacyPayload | Deferred | Failure(quarantines: set<Slot>, whole: bool)
  datatype Row = Row(status: Status, attempts: nat, note: Note)

  datatype Handling = WasMissing | Removed(slot: Slot)

  /** `claimants`, `taken`, `deleted` and `handled` are history: who claimed the row, what
      was moved into a quarantine, for which entry it was destroyed, and how each entry
      was dealt with. */
  datatype World = World(
    row: Row, payload: Payload, tokens: Option<Token>,
    paths: map<Path, Node>, quarantine: map<Slot, Node>,
    claimants: seq<FlushId>, taken: map<Slot, Node>, deleted: map<Slot, nat>, handled: seq<Handling>)

  /** Where a flush stands. */
  datatype Flush =
    | Rejecting(note: Note)
    | Ready
    | Turn(entry: nat)
    | Checked(entry: nat)
    | Moved(entry: nat, slot: Slot)
    | Verified(entry: nat, slot: Slot)
    | Closing
    | Failing(quarantines: set<Slot>)
    | Returned(result: bool)
    | Dead

  // ----- Generations -----

  /** _capture_cleanup_generation on a path that does not change meanwhile. */
  function Captured(n: Node, kind: Kind): Generation {
    if kind == File then Present(File, n.stat, n.ctime, None, true)
    else if !n.stat.isDirectory then Present(Directory, n.stat, n.ctime, None, false)
    else Present(Directory, n.stat, n.ctime, Some(n.tree), true)
  }

  predicate Verifiable(g: Generation) {
    !g.Unreadable? && g.verifiable
  }

  datatype Match = Matched | AlreadyMissing | Mismatch

  /** _cleanup_generation_matches. */
  function Compare(expected: Option<Generation>, seen: Generation): Match {
    if expected.None? then Mismatch
    else if seen.Absent? then AlreadyMissing
    else if !Verifiable(expected.value) || !Verifiable(seen) then Mismatch
    else if seen != expected.value then Mismatch
    else Matched
  }

  /** _generation_matches_after_rename: a rename changes the ctime only. */
  predicate SameApartFromCtime(expected: Generation, seen: Generation) {
    && Verifiable(expected) && Verifiable(seen)
    && (expected.Absent? <==> seen.Absent?)
    && (expected.Present? ==> seen.(ctime := expected.ctime) == expected)
  }

  /** A node that may be destroyed for an entry. */
  predicate AsStaged(e: Entry, n: Node) {
    e.Entry? && e.generation.Some? && SameApartFromCtime(e.generation.value, Captured(n, e.kind))
  }

  // ----- One step of a flush -----

  function Entries(p: Payload): seq<Entry> {
    if p.Valid? then p.entries else []
  }

  predicate HasLegacy(p: Payload) {
    p.Valid? && exists i :: 0 <= i < |p.entries| && p.entries[i].LegacyEntry?
  }

  predicate TokenMatches(p: Payload, given: Option<Token>) {
    p.Valid? && p.token.Some? && given.Some? && given == p.token
  }

  function Begun(w: World, given: Option<Token>): (World, Flush) {
    if w.row.status == Completed then (w.(tokens := None), Returned(true))
    else if w.row.status != Pending then (w.(tokens := None), Returned(false))
    else if w.payload.Invalid? then (w, Rejecting(InvalidPayload))
    else if HasLegacy(w.payload) then (w, Rejecting(LegacyPayload))
    else if !TokenMatches(w.payload, if given.None? then w.tokens else given) then (w, Returned(false))
    else (w, Ready)
  }

  function RejectedRow(w: World, note: Note): (World, Flush) {
    (w.(row := if w.row.status == Pending then Row(ManualRequired, w.row.attempts + 1, note) else w.row,
        tokens := None),
     Returned(false))
  }

  function ClaimedRow(w: World, f: FlushId): (World, Flush) {
    if w.row.status == Pending then
      (w.(row := Row(Executing, w.row.attempts + 1, NoError), tokens := None, claimants := w.claimants + [f]), Turn(0))
    else (w.(tokens := None), Returned(false))
  }

  function CheckedEntry(w: World, i: nat, seen: Generation): (World, Flush)
    requires i < |Entries(w.payload)|
  {
    var e := Entries(w.payload)[i];
    if e.LegacyEntry? || e.path in {"", "."} then (w, Failing({}))
    else
      match Compare(e.generation, seen)
      case Mismatch => (w, Failing({}))
      case AlreadyMissing => (w.(handled := w.handled + [WasMissing]), Turn(i + 1))
      case Matched => (w, Checked(i))
  }

  /** What os.rename does: fail, find nothing (and then see the path or not), or move the
      node that is there now into a new slot and give it a new ctime. */
  datatype Rename = Faulty | Gone(reappeared: bool) | Into(slot: Slot, ctime: int)

  predicate RenameFits(w: World, i: nat, r: Rename) {
    && i < |Entries(w.payload)|
    && (r.Into? ==> Entries(w.payload)[i].path in w.paths && r.slot !in w.quarantine && r.slot !in w.taken)
    && (r.Gone? ==> Entries(w.payload)[i].path !in w.paths)
  }

  function RenamedEntry(w: World, i: nat, r: Rename): (World, Flush)
    requires RenameFits(w, i, r)
  {
    match r
    case Faulty => (w, Failing({}))
    case Gone(true) => (w, Failing({}))
    case Gone(false) => (w.(handled := w.handled + [WasMissing]), Turn(i + 1))
    case Into(slot, ctime) =>
      var path := Entries(w.payload)[i].path;
      var node := w.paths[path].(ctime := ctime);
      (w.(paths := w.paths - {path}, quarantine := w.quarantine[slot := node], taken := w.taken[slot := node]),
       Moved(i, slot))
  }

  function VerifiedEntry(w: World, i: nat, slot: Slot, readable: bool): (World, Flush)
    requires i < |Entries(w.payload)| && slot in w.quarantine
  {
    if readable && AsStaged(Entries(w.payload)[i], w.quarantine[slot]) then (w, Verified(i, slot))
    else (w, Failing({slot}))
  }

  /** How deleting from the quarantine can end: done; done but the quarantine directory
      could not be removed; refused; or stopped half way through a tree. */
  datatype Deletion = Done | RootStays | Refused | Partial(rest: Node)

  predicate DeletionFits(w: World, i: nat, slot: Slot, d: Deletion) {
    && i < |Entries(w.payload)| && slot in w.quarantine && Entries(w.payload)[i].Entry?
    && (!d.Refused? ==> (Entries(w.payload)[i].kind == Directory <==> w.quarantine[slot].stat.isDirectory))
    && (d.Partial? ==> w.quarantine[slot].stat.isDirectory)
  }

  function DeletedEntry(w: World, i: nat, slot: Slot, d: Deletion): (World, Flush)
    requires DeletionFits(w, i, slot, d)
  {
    match d
    case Done =>
      (w.(quarantine := w.quarantine - {slot}, deleted := w.deleted[slot := i], handled := w.handled + [Removed(slot)]),
       Turn(i + 1))
    case RootStays => (w.(quarantine := w.quarantine - {slot}, deleted := w.deleted[slot := i]), Failing({slot}))
    case Refused => (w, Failing({slot}))
    case Partial(rest) =>
      (w.(quarantine := w.quarantine[slot := rest], deleted := w.deleted[slot := i]), Failing({slot}))
  }

  function FinishedRow(w: World): (World, Flush) {
    (w.(row := if w.row.status == Executing then Row(Completed, w.row.attempts, NoError) else w.row), Returned(true))
  }

  function FailedRow(w: World, quarantines: set<Slot>, fits: bool): (World, Flush) {
    (w.(row := if w.row.status == Executing then Row(ManualRequired, w.row.attempts, Failure(quarantines, fits))
               else w.row),
     Returned(false))
  }

  function SweptWorld(w: World): World {
    if w.row.status == Pending || w.row.status == Executing
    then w.(row := Row(ManualRequired, w.row.attempts, Deferred)) else w
  }

  // ----- The code -----

  class Outbox {
    const payload: Payload
    var row: Row
    var tokens: Option<Token>
    var paths: map<Path, Node>
    var quarantine: map<Slot, Node>
    ghost var claimants: seq<FlushId>
    ghost var taken: map<Slot, Node>
    ghost var deleted: map<Slot, nat>
    ghost var handled: seq<Handling>

    ghost function State(): World reads this {
      World(row, payload, tokens, paths, quarantine, claimants, taken, deleted, handled)
    }

    /** A row as stage_shot_artifact_cleanup inserts it. */
    constructor (payload: Payload, files: map<Path, Node>)
      ensures State() == Staged(payload, files)
    {
      this.payload := payload;
      row := Row(Pending, 0, NoError);
      tokens := if payload.Valid? then payload.token else None;
      paths := files;
      quarantine := map[];
      claimants, taken, deleted, handled := [], map[], map[], [];
    }

    /** flush_media_cleanup_outbox up to the claim. */
    method Begin(given: Option<Token>) returns (f: Flush)
      modifies this`tokens
      ensures (State(), f) == Begun(old(State()), given)
    {
      if row.status == Completed {
        tokens := None;
        return Returned(true);
      }
      if row.status != Pending {
        tokens := None;
        return Returned(false);
      }
      var token := given;
      if token.None? {
        token := tokens;
      }
      if payload.Invalid? {
        return Rejecting(InvalidPayload);
      }
      for i := 0 to |payload.entries|
        invariant forall k :: 0 <= k < i ==> !payload.entries[k].LegacyEntry?
      {
        if payload.entries[i].LegacyEntry? {
          return Rejecting(LegacyPayload);
        }
      }
      if payload.token.None? || token.None? || token != payload.token {
        return Returned(false);
      }
      return Ready;
    }

    method Reject(note: Note) returns (f: Flush)
      modifies this`row, this`tokens
      ensures (State(), f) == RejectedRow(old(State()), note)
    {
      if row.status == Pending {
        row := Row(ManualRequired, row.attempts + 1, note);
      }
      tokens := None;
      return Returned(false);
    }

    method Claim(ghost id: FlushId) returns (f: Flush)
      modifies this`row, this`tokens, this`claimants
      ensures (State(), f) == ClaimedRow(old(State()), id)
    {
      tokens := None;
      if row.status != Pending {
        return Returned(false);
      }
      row := Row(Executing, row.attempts + 1, NoError);
      claimants := claimants + [id];
      return Turn(0);
    }

    /** The first half of _quarantine_cleanup_target. */
    method Check(i: nat, seen: Generation) returns (f: Flush)
      requires i < |Entries(payload)|
      modifies this`handled
      ensures (State(), f) == CheckedEntry(old(State()), i, seen)
    {
      var e := Entries(payload)[i];
      if e.LegacyEntry? || e.path == "" || e.path == "." {
        return Failing({});
      }
      var m := Compare(e.generation, seen);
      if m == Mismatch {
        return Failing({});
      }
      if m == AlreadyMissing {
        handled := handled + [WasMissing];
        return Turn(i + 1);
      }
      return Checked(i);
    }

    method MoveAside(i: nat, r: Rename) returns (f: Flush)
      requires RenameFits(State(), i, r)
      modifies this`paths, this`quarantine, this`taken, this`handled
      ensures (State(), f) == RenamedEntry(old(State()), i, r)
    {
      match r {
        case Faulty =>
          return Failing({});
        case Gone(reappeared) =>
          if reappeared {
            return Failing({});
          }
          handled := handled + [WasMissing];
          return Turn(i + 1);
        case Into(slot, ctime) =>
          var path := Entries(payload)[i].path;
          var node := paths[path].(ctime := ctime);
          paths := paths - {path};
          quarantine := quarantine[slot := node];
          taken := taken[slot := node];
          return Moved(i, slot);
      }
    }

    method Verify(i: nat, slot: Slot, readable: bool) returns (f: Flush)
      requires i < |Entries(payload)| && slot in quarantine
      ensures (State(), f) == VerifiedEntry(State(), i, slot, readable)
    {
      if !readable {
        return Failing({slot});
      }
      var e := Entries(payload)[i];
      if e.LegacyEntry? || e.generation.None? {
        return Failing({slot});
      }
      if !SameApartFromCtime(e.generation.value, Captured(quarantine[slot], e.kind)) {
        return Failing({slot});
      }
      return Verified(i, slot);
    }

    /** _delete_quarantined_target. */
    method Delete(i: nat, slot: Slot, d: Deletion) returns (f: Flush)
      requires DeletionFits(State(), i, slot, d)
      modifies this`quarantine, this`deleted, this`handled
      ensures (State(), f) == DeletedEntry(old(State()), i, slot, d)
    {
      if d.Refused? {
        return Failing({slot});
      }
      deleted := deleted[slot := i];
      if d.Partial? {
        quarantine := quarantine[slot := d.rest];
        return Failing({slot});
      }
      quarantine := quarantine - {slot};
      if d.RootStays? {
        return Failing({slot});
      }
      handled := handled + [Removed(slot)];
      return Turn(i + 1);
    }

    method Finish() returns (f: Flush)
      modifies this`row
      ensures (State(), f) == FinishedRow(old(State()))
    {
      if row.status == Executing {
        row := Row(Completed, row.attempts, NoError);
      }
      return Returned(true);
    }

    method Fail(quarantines: set<Slot>, fits: bool) returns (f: Flush)
      modifies this`row
      ensures (State(), f) == FailedRow(old(State()), quarantines, fits)
    {
      if row.status == Executing {
        row := Row(ManualRequired, row.attempts, Failure(quarantines, fits));
      }
      return Returned(false);
    }

    /** sweep_pending_media_cleanup, when the row is among the rows it selects. */
    method Sweep()
      modifies this`row
      ensures State() == SweptWorld(old(State()))
    {
      if row.status == Pending || row.status == Executing {
        row := Row(ManualRequired, row.attempts, Deferred);
      }
    }
  }

  function Staged(payload: Payload, files: map<Path, Node>): World {
    World(Row(Pending, 0, NoError), payload, if payload.Valid? then payload.token else None,
          files, map[], [], map[], map[], [])
  }

  // ----- Runs -----

  datatype System = System(world: World, flushes: map<FlushId, Flush>)

  /** A flush takes a step, a sweep runs, a process dies with its flush and its token table,
      or somebody changes a public path. */
  datatype Event =
    | Start(id: FlushId, given: Option<Token>)
    | Step(id: FlushId, choice: Choice)
    | Sweeping
    | Crash(id: FlushId)
    | Interfere(path: Path, node: Option<Node>)

  /** What the outside world decides in a step. */
  datatype Choice = Choice(seen: Generation, rename: Rename, readable: bool, deletion: Deletion, finalOk: bool,
                           fits: bool)

  function Advance(w: World, id: FlushId, f: Flush, c: Choice): (World, Flush)
    requires CanAdvance(w, f, c)
  {
    match f
    case Rejecting(note) => RejectedRow(w, note)
    case Ready => ClaimedRow(w, id)
    case Turn(i) =>
      if i < |Entries(w.payload)| then CheckedEntry(w, i, c.seen)
      else if c.finalOk then (w, Closing)
      else (w, Failing({}))
    case Checked(i) => RenamedEntry(w, i, c.rename)
    case Moved(i, slot) => VerifiedEntry(w, i, slot, c.readable)
    case Verified(i, slot) => DeletedEntry(w, i, slot, c.deletion)
    case Closing => FinishedRow(w)
    case Failing(quarantines) => FailedRow(w, quarantines, c.fits)
  }

  predicate CanAdvance(w: World, f: Flush, c: Choice) {
    match f
    case Checked(i) => RenameFits(w, i, c.rename)
    case Moved(i, slot) => i < |Entries(w.payload)| && slot in w.quarantine
    case Verified(i, slot) => DeletionFits(w, i, slot, c.deletion)
    case Returned(_) => false
    case Dead => false
    case _ => true
  }

  predicate Enabled(s: System, e: Event) {
    match e
    case Start(id, _) => id !in s.flushes
    case Step(id, c) => id in s.flushes && CanAdvance(s.world, s.flushes[id], c)
    case Crash(id) => id in s.flushes
    case _ => true
  }

  function Next(s: System, e: Event): System
    requires Enabled(s, e)
  {
    match e
    case Start(id, given) =>
      var (w, f) := Begun(s.world, given);
      System(w, s.flushes[id := f])
    case Step(id, c) =>
      var (w, f) := Advance(s.world, id, s.flushes[id], c);
      System(w, s.flushes[id := f])
    case Sweeping => s.(world := SweptWorld(s.world))
    case Crash(id) => System(s.world.(tokens := None), s.flushes[id := Dead])
    case Interfere(path, node) =>
      s.(world := s.world.(paths := if node.Some? then s.world.paths[path := node.value] else s.world.paths - {path}))
  }

  predicate IsRun(s: System, events: seq<Event>)
    decreases |events|
  {
    events == [] || (Enabled(s, events[0]) && IsRun(Next(s, events[0]), events[1..]))
  }

  function After(s: System, events: seq<Event>): System
    requires IsRun(s, events)
    decreases |events|
  {
    if events == [] then s else After(Next(s, events[0]), events[1..])
  }

  // ----- What every run keeps -----

  /** Past the claim and not yet back. */
  predicate Working(f: Flush) {
    f.Turn? || f.Checked? || f.Moved? || f.Verified? || f.Closing? || f.Failing?
  }

  /** The slots a flush would report if it failed now. */
  function Slots(f: Flush): set<Slot> {
    if f.Moved? || f.Verified? then {f.slot} else if f.Failing? then f.quarantines else {}
  }

  predicate DestroyedAsStaged(w: World, slot: Slot) {
    && slot in w.deleted && slot in w.taken && w.deleted[slot] < |Entries(w.payload)|
    && AsStaged(Entries(w.payload)[w.deleted[slot]], w.taken[slot])
  }

  predicate StillThere(w: World, slot: Slot) {
    slot in w.taken && slot in w.quarantine && w.quarantine[slot] == w.taken[slot]
  }

  predicate HandledInv(w: World) {
    && |w.handled| <= |Entries(w.payload)|
    && forall k :: 0 <= k < |w.handled| && w.handled[k].Removed? ==>
         w.handled[k].slot in w.deleted && w.deleted[w.handled[k].slot] == k
  }

  ghost predicate LogInv(w: World) {
    && (forall slot :: slot in w.deleted ==> DestroyedAsStaged(w, slot))
    && (forall slot :: slot in w.taken && slot !in w.deleted ==> StillThere(w, slot))
    && w.quarantine.Keys <= w.taken.Keys
    && HandledInv(w)
  }

  predicate StatusInv(w: World) {
    && |w.claimants| <= 1
    && (w.row.status == Pending ==> w.claimants == [])
    && (w.row.status in {Executing, Completed} ==> |w.claimants| == 1)
    && (w.row.status == Completed ==> |w.handled| == |Entries(w.payload)|)
    && (w.row.note.Failure? ==> w.row.status == ManualRequired && w.quarantine.Keys <= w.row.note.quarantines)
    && (w.row.note == Deferred ==> w.row.status == ManualRequired)
    && (w.claimants == [] ==> w.taken == map[] && w.handled == [])
  }

  predicate FlushInv(w: World, f: Flush) {
    && (Working(f) ==> w.quarantine.Keys <= Slots(f) && (w.row.status == Executing || w.row.note == Deferred))
    && match f
       case Rejecting(note) => note in {InvalidPayload, LegacyPayload}
       case Turn(i) => |w.handled| == i
       case Checked(i) => |w.handled| == i < |Entries(w.payload)| && Entries(w.payload)[i].Entry?
       case Moved(i, slot) =>
         && |w.handled| == i < |Entries(w.payload)| && Entries(w.payload)[i].Entry?
         && slot !in w.deleted && StillThere(w, slot)
       case Verified(i, slot) =>
         && |w.handled| == i < |Entries(w.payload)| && slot !in w.deleted && StillThere(w, slot)
         && AsStaged(Entries(w.payload)[i], w.quarantine[slot])
       case Closing => |w.handled| == |Entries(w.payload)|
       case Returned(true) =>
         && |w.handled| == |Entries(w.payload)|
         && (w.row.status == Completed || (w.row.status == ManualRequired && w.row.note == Deferred))
       case _ => true
  }

  ghost predicate Inv(s: System) {
    && LogInv(s.world) && StatusInv(s.world)
    && (forall id :: id in s.flushes ==> FlushInv(s.world, s.flushes[id]))
    && (forall id :: id in s.flushes && Working(s.flushes[id]) ==>
          s.world.claimants == [id])
  }

  predicate Forward(a: Row, b: Row) {
    || b == a
    || (a.status == Pending && b.status in {Executing, ManualRequired})
    || (a.status == Executing && b.status in {Completed, ManualRequired})
  }

  /** What a step leaves of the world for the other flushes. */
  predicate Later(v: World, w: World) {
    w.payload == v.payload && Forward(v.row, w.row) && v.handled <= w.handled && v.claimants <= w.claimants
  }

  lemma OthersUnmoved(v: World, w: World, g: Flush)
    requires StatusInv(w) && HandledInv(w) && Later(v, w) && FlushInv(v, g) && !Working(g)
    ensures FlushInv(w, g)
  {
    if g == Returned(true) {
      assert |v.handled| <= |w.handled|;
    }
  }

  lemma TurnStep(w: World, id: FlushId, f: Flush, c: Choice)
    requires LogInv(w) && StatusInv(w) && FlushInv(w, f) && f.Turn? && w.claimants == [id]
    ensures var (v, g) := Advance(w, id, f, c);
            LogInv(v) && StatusInv(v) && FlushInv(v, g) && Later(w, v) && v.claimants == w.claimants && v.row == w.row
  {
  }

  lemma TakenLogged(w: World, slot: Slot, n: Node, v: World)
    requires LogInv(w) && slot !in w.taken
    requires v == w.(paths := v.paths, quarantine := w.quarantine[slot := n], taken := w.taken[slot := n])
    ensures LogInv(v)
  {
    forall o | o in v.deleted ensures DestroyedAsStaged(v, o) {
      assert DestroyedAsStaged(w, o);
    }
    forall o | o in v.taken && o !in v.deleted ensures StillThere(v, o) {
      assert o in w.taken ==> StillThere(w, o);
    }
  }

  lemma MoveStep(w: World, id: FlushId, f: Flush, c: Choice)
    requires LogInv(w) && StatusInv(w) && FlushInv(w, f) && f.Checked? && w.claimants == [id]
    requires CanAdvance(w, f, c)
    ensures var (v, g) := Advance(w, id, f, c);
            LogInv(v) && StatusInv(v) && FlushInv(v, g) && Later(w, v) && v.claimants == w.claimants && v.row == w.row
  {
    if c.rename.Into? {
      var (v, g) := Advance(w, id, f, c);
      TakenLogged(w, c.rename.slot, w.paths[Entries(w.payload)[f.entry].path].(ctime := c.rename.ctime), v);
    }
  }

  lemma DestructionLogged(w: World, slot: Slot, i: nat, v: World)
    requires LogInv(w) && slot in w.taken && slot !in w.deleted && i == |w.handled| < |Entries(w.payload)|
    requires AsStaged(Entries(w.payload)[i], w.taken[slot])
    requires v.payload == w.payload && v.taken == w.taken && v.deleted == w.deleted[slot := i]
    requires v.quarantine.Keys <= w.taken.Keys
    requires forall o :: o in w.quarantine && o != slot ==> o in v.quarantine && v.quarantine[o] == w.quarantine[o]
    requires v.handled == w.handled || v.handled == w.handled + [Removed(slot)]
    ensures LogInv(v)
  {
    forall o | o in v.deleted ensures DestroyedAsStaged(v, o) {
      assert o == slot || DestroyedAsStaged(w, o);
    }
    forall o | o in v.taken && o !in v.deleted ensures StillThere(v, o) {
      assert StillThere(w, o);
    }
  }

  lemma DeleteStep(w: World, id: FlushId, f: Flush, c: Choice)
    requires LogInv(w) && StatusInv(w) && FlushInv(w, f) && f.Verified? && w.claimants == [id]
    requires CanAdvance(w, f, c)
    ensures var (v, g) := Advance(w, id, f, c);
            LogInv(v) && StatusInv(v) && FlushInv(v, g) && Later(w, v) && v.claimants == w.claimants && v.row == w.row
  {
    if !c.deletion.Refused? {
      var (v, g) := Advance(w, id, f, c);
      DestructionLogged(w, f.slot, f.entry, v);
    }
  }

  lemma VerifyStep(w: World, id: FlushId, f: Flush, c: Choice)
    requires LogInv(w) && StatusInv(w) && FlushInv(w, f) && f.Moved? && w.claimants == [id]
    requires CanAdvance(w, f, c)
    ensures var (v, g) := Advance(w, id, f, c);
            LogInv(v) && StatusInv(v) && FlushInv(v, g) && Later(w, v) && v.claimants == w.claimants && v.row == w.row
  {
  }

  lemma RowStep(w: World, id: FlushId, f: Flush, c: Choice)
    requires LogInv(w) && StatusInv(w) && FlushInv(w, f)
    requires Working(f) ==> w.claimants == [id]
    requires f.Closing? || f.Failing? || f.Rejecting? || f.Ready?
    ensures var (v, g) := Advance(w, id, f, c);
            && LogInv(v) && StatusInv(v) && FlushInv(v, g) && Later(w, v)
            && (Working(g) ==> v.claimants == [id])
            && v.quarantine == w.quarantine
            && (v.claimants == w.claimants || (w.claimants == [] && v.claimants == [id]))
  {
    var (v, g) := Advance(w, id, f, c);
    assert forall slot :: DestroyedAsStaged(w, slot) == DestroyedAsStaged(v, slot);
    assert forall slot :: StillThere(w, slot) == StillThere(v, slot);
  }

  lemma AdvanceInv(s: System, id: FlushId, c: Choice)
    requires Inv(s) && id in s.flushes && CanAdvance(s.world, s.flushes[id], c)
    ensures var (v, g) := Advance(s.world, id, s.flushes[id], c);
            && LogInv(v) && StatusInv(v) && FlushInv(v, g) && Later(s.world, v)
            && (Working(g) ==> v.claimants == [id])
            && (v.claimants == s.world.claimants || (s.world.claimants == [] && v.claimants == [id]))
  {
    var f := s.flushes[id];
    match f
    case Turn(_) => TurnStep(s.world, id, f, c);
    case Checked(_) => MoveStep(s.world, id, f, c);
    case Moved(_, _) => VerifyStep(s.world, id, f, c);
    case Verified(_, _) => DeleteStep(s.world, id, f, c);
    case _ => RowStep(s.world, id, f, c);
  }

  lemma StepInv(s: System, id: FlushId, c: Choice)
    requires Inv(s) && Enabled(s, Step(id, c))
    ensures Inv(Next(s, Step(id, c)))
  {
    AdvanceInv(s, id, c);
    var t := Next(s, Step(id, c));
    forall o | o in t.flushes
      ensures FlushInv(t.world, t.flushes[o])
      ensures Working(t.flushes[o]) ==> t.world.claimants == [o]
    {
      if o != id {
        if Working(s.flushes[o]) {
          BystanderStep(s, o, id, c);
        } else {
          OthersUnmoved(s.world, t.world, s.flushes[o]);
        }
      }
    }
  }

  /** Beside the one flush at work, the others can only be turned away. */
  lemma BystanderStep(s: System, o: FlushId, id: FlushId, c: Choice)
    requires Inv(s) && Enabled(s, Step(id, c)) && o in s.flushes && o != id && Working(s.flushes[o])
    ensures var w, v := s.world, Next(s, Step(id, c)).world;
            v == w.(row := v.row, tokens := v.tokens) && FlushInv(v, s.flushes[o])
  {
    assert s.world.claimants == [o];
    assert !Working(s.flushes[id]);
    assert s.flushes[id].Rejecting? || s.flushes[id].Ready?;
  }

  lemma SweepInv(s: System)
    requires Inv(s)
    ensures Inv(Next(s, Sweeping))
  {
    var w, v := s.world, SweptWorld(s.world);
    assert forall slot :: DestroyedAsStaged(w, slot) == DestroyedAsStaged(v, slot);
    assert forall slot :: StillThere(w, slot) == StillThere(v, slot);
    forall id | id in s.flushes ensures FlushInv(v, s.flushes[id]) {
      assert FlushInv(w, s.flushes[id]);
    }
  }

  lemma OtherEventsInv(s: System, e: Event)
    requires Inv(s) && Enabled(s, e) && (e.Start? || e.Crash? || e.Interfere?)
    ensures Inv(Next(s, e))
  {
    var w, v := s.world, Next(s, e).world;
    assert v == w.(tokens := v.tokens, paths := v.paths);
    assert forall slot :: DestroyedAsStaged(w, slot) == DestroyedAsStaged(v, slot);
    assert forall slot :: StillThere(w, slot) == StillThere(v, slot);
    forall id | id in s.flushes ensures FlushInv(v, s.flushes[id]) {
      assert FlushInv(w, s.flushes[id]);
    }
  }

  lemma NextInv(s: System, e: Event)
    requires Inv(s) && Enabled(s, e)
    ensures Inv(Next(s, e)) && Later(s.world, Next(s, e).world)
  {
    match e
    case Step(id, c) =>
      AdvanceInv(s, id, c);
      StepInv(s, id, c);
    case Sweeping => SweepInv(s);
    case _ => OtherEventsInv(s, e);
  }

  lemma {:induction false} RunInv(s: System, events: seq<Event>)
    requires Inv(s) && IsRun(s, events)
    ensures Inv(After(s, events))
    decreases |events|
  {
    if events != [] {
      NextInv(s, events[0]);
      RunInv(Next(s, events[0]), events[1..]);
    }
  }

  function Fresh(payload: Payload, files: map<Path, Node>): System {
    System(Staged(payload, files), map[])
  }

  lemma FreshInv(payload: Payload, files: map<Path, Node>)
    ensures Inv(Fresh(payload, files))
  {
  }

  // ----- Main results -----

  /** The row's status only moves forward. */
  lemma StatusMovesForward(s: System, e: Event)
    requires Inv(s) && Enabled(s, e)
    ensures Forward(s.world.row, Next(s, e).world.row)
  {
    NextInv(s, e);
  }

  /** Completed and manual rows never change again. */
  lemma {:induction false} TerminalRowsAbsorb(s: System, events: seq<Event>)
    requires Inv(s) && IsRun(s, events) && s.world.row.status in {Completed, ManualRequired}
    ensures After(s, events).world.row == s.world.row
    decreases |events|
  {
    if events != [] {
      NextInv(s, events[0]);
      TerminalRowsAbsorb(Next(s, events[0]), events[1..]);
    }
  }

  /** Whatever anyone does to the paths, at most one flush ever passes the claim, and each
      object destroyed has the generation staged for its entry apart from the ctime. */
  lemma DestroysOnlyWhatWasStaged(payload: Payload, files: map<Path, Node>, events: seq<Event>)
    requires IsRun(Fresh(payload, files), events)
    ensures var w := After(Fresh(payload, files), events).world;
            && |w.claimants| <= 1
            && forall slot :: slot in w.deleted ==> DestroyedAsStaged(w, slot)
  {
    FreshInv(payload, files);
    RunInv(Fresh(payload, files), events);
  }

  /** An object taken by mistake is kept whole in its quarantine, and a flush that fails
      names every quarantine that still holds something, if its record is not cut. */
  lemma NothingElseIsLost(payload: Payload, files: map<Path, Node>, events: seq<Event>)
    requires IsRun(Fresh(payload, files), events)
    ensures var w := After(Fresh(payload, files), events).world;
            && (forall slot :: slot in w.taken && slot !in w.deleted ==> StillThere(w, slot))
            && (w.row.note.Failure? && w.row.note.whole ==> w.quarantine.Keys <= w.row.note.quarantines)
  {
    FreshInv(payload, files);
    RunInv(Fresh(payload, files), events);
  }

  /** A flush that returns True has dealt with every entry: it was missing, or what was
      destroyed for it was staged for it.  The row then says completed, unless a sweep
      retired it first. */
  lemma TrueMeansEveryEntryHandled(payload: Payload, files: map<Path, Node>, events: seq<Event>, id: FlushId)
    requires IsRun(Fresh(payload, files), events)
    requires var s := After(Fresh(payload, files), events); id in s.flushes && s.flushes[id] == Returned(true)
    ensures var w := After(Fresh(payload, files), events).world;
            && |w.handled| == |Entries(w.payload)|
            && (forall k :: 0 <= k < |w.handled| && w.handled[k].Removed? ==>
                  DestroyedAsStaged(w, w.handled[k].slot) && w.deleted[w.handled[k].slot] == k)
            && (w.row.status == Completed || w.row == Row(ManualRequired, w.row.attempts, Deferred))
  {
    FreshInv(payload, files);
    RunInv(Fresh(payload, files), events);
    var w := After(Fresh(payload, files), events).world;
    assert FlushInv(w, Returned(true));
    forall k | 0 <= k < |w.handled| && w.handled[k].Removed? ensures DestroyedAsStaged(w, w.handled[k].slot) {
      assert w.handled[k].slot in w.deleted;
    }
  }

  /** A completed row has every entry dealt with. */
  lemma CompletedMeansEveryEntryHandled(payload: Payload, files: map<Path, Node>, events: seq<Event>)
    requires IsRun(Fresh(payload, files), events)
    ensures var w := After(Fresh(payload, files), events).world;
            w.row.status == Completed ==> |w.handled| == |Entries(w.payload)| && |w.claimants| == 1
  {
    FreshInv(payload, files);
    RunInv(Fresh(payload, files), events);
  }

  /** A payload with an entry of the old form, a bare path, or an unreadable one, or one
      without a token is never claimed, so nothing is deleted for it. */
  predicate NeverClaims(s: System) {
    && s.world.claimants == [] && s.world.taken == map[]
    && forall id :: id in s.flushes ==> s.flushes[id].Rejecting? || s.flushes[id].Returned? || s.flushes[id].Dead?
  }

  predicate UnfencedPayload(p: Payload) {
    p.Invalid? || HasLegacy(p) || p.token.None?
  }

  lemma {:induction false} UnfencedNeverClaims(s: System, events: seq<Event>)
    requires IsRun(s, events) && NeverClaims(s) && UnfencedPayload(s.world.payload)
    ensures NeverClaims(After(s, events))
    decreases |events|
  {
    if events != [] {
      assert NeverClaims(Next(s, events[0]));
      UnfencedNeverClaims(Next(s, events[0]), events[1..]);
    }
  }

  /** An entry of the new form that merely lacks its generation. */
  predicate LacksGeneration(p: Payload, k: nat) {
    k < |Entries(p)| && Entries(p)[k].Entry? && Entries(p)[k].generation.None?
  }

  /** No flush gets past entry `k`, which it only ever looks at. */
  ghost predicate StopsAt(s: System, k: nat) {
    && |s.world.handled| <= k
    && (forall slot :: slot in s.world.deleted ==> s.world.deleted[slot] < k)
    && (forall id :: id in s.flushes ==> !Handles(s.flushes[id], k))
  }

  predicate Handles(f: Flush, k: nat) {
    (f.Checked? || f.Moved? || f.Verified?) && f.entry == k
  }

  lemma AdvanceStops(w: World, id: FlushId, f: Flush, c: Choice, k: nat)
    requires FlushInv(w, f) && CanAdvance(w, f, c) && LacksGeneration(w.payload, k)
    requires |w.handled| <= k && !Handles(f, k) && forall slot :: slot in w.deleted ==> w.deleted[slot] < k
    ensures var (v, g) := Advance(w, id, f, c);
            |v.handled| <= k && !Handles(g, k) && forall slot :: slot in v.deleted ==> v.deleted[slot] < k
  {
  }

  lemma StopsStill(s: System, e: Event, k: nat)
    requires Inv(s) && Enabled(s, e) && LacksGeneration(s.world.payload, k) && StopsAt(s, k)
    ensures StopsAt(Next(s, e), k)
  {
    if e.Step? {
      AdvanceStops(s.world, e.id, s.flushes[e.id], e.choice, k);
    }
  }

  lemma {:induction false} StopsForever(s: System, events: seq<Event>, k: nat)
    requires Inv(s) && IsRun(s, events) && LacksGeneration(s.world.payload, k) && StopsAt(s, k)
    ensures StopsAt(After(s, events), k) && After(s, events).world.payload == s.world.payload
    decreases |events|
  {
    if events != [] {
      NextInv(s, events[0]);
      StopsStill(s, events[0], k);
      StopsForever(Next(s, events[0]), events[1..], k);
    }
  }

  /** Such an entry lets the row be claimed, but over every run nothing is destroyed for it or
      for an entry behind it, no flush returns True and the row is never completed. */
  lemma EntryWithoutGenerationStops(payload: Payload, files: map<Path, Node>, events: seq<Event>, k: nat)
    requires IsRun(Fresh(payload, files), events) && LacksGeneration(payload, k)
    ensures var s := After(Fresh(payload, files), events);
            && (forall slot :: slot in s.world.deleted ==> s.world.deleted[slot] < k)
            && (forall id :: id in s.flushes ==> s.flushes[id] != Returned(true))
            && s.world.row.status != Completed
  {
    FreshInv(payload, files);
    RunInv(Fresh(payload, files), events);
    StopsForever(Fresh(payload, files), events, k);
    var s := After(Fresh(payload, files), events);
    assert forall id :: id in s.flushes ==> FlushInv(s.world, s.flushes[id]);
  }

  // ----- What is deleted, and what is left alone -----

  const ANY: Choice := Choice(Unreadable, Faulty, true, Refused, true, true)

  /** The node that lies at an entry's path is the one that was staged for it. */
  predicate StillStaged(w: World, e: Entry) {
    && e.Entry? && e.path != "" && e.path != "." && e.path in w.paths
    && e.generation == Some(Captured(w.paths[e.path], e.kind)) && e.generation.value.Present?
    && e.generation.value.verifiable
    && (e.kind == Directory <==> w.paths[e.path].stat.isDirectory)
  }

  /** What is left of a flush at entry `i`: nobody has touched the paths still to come. */
  ghost predicate Undisturbed(w: World, entries: seq<Entry>, i: nat) {
    && i <= |entries| && w.payload.Valid? && w.payload.entries == entries && |w.handled| == i
    && w.quarantine == map[] && w.row.status == Executing && (forall slot :: slot in w.taken ==> slot < i)
    && (forall k :: i <= k < |entries| ==> StillStaged(w, entries[k]))
    && (forall k :: 0 <= k < i ==> entries[k].Entry? && entries[k].path !in w.paths && w.handled[k].Removed?)
    && (forall k, l :: 0 <= k < l < |entries| && entries[k].Entry? && entries[l].Entry? ==>
          entries[k].path != entries[l].path)
  }

  ghost predicate Reaches(s: System, t: System) {
    exists events :: IsRun(s, events) && After(s, events) == t
  }

  lemma ReachesItself(s: System)
    ensures Reaches(s, s)
  {
    assert IsRun(s, []) && After(s, []) == s;
  }

  lemma ReachesFirst(s: System, e: Event, t: System)
    requires Enabled(s, e) && Reaches(Next(s, e), t)
    ensures Reaches(s, t)
  {
    var events :| IsRun(Next(s, e), events) && After(Next(s, e), events) == t;
    assert ([e] + events)[1..] == events;
    assert IsRun(s, [e] + events) && After(s, [e] + events) == t;
  }

  /** What the world does for a flush that nobody disturbs. */
  function Calm(w: World, e: Entry, slot: Slot): Choice {
    Choice(if e.Entry? && e.path in w.paths then Captured(w.paths[e.path], e.kind) else Absent(true),
           Into(slot, 0), true, Done, true, true)
  }

  lemma EntryRemoved(w: World, id: FlushId, entries: seq<Entry>, i: nat) returns (v: World)
    requires Undisturbed(w, entries, i) && i < |entries|
    ensures var c := Calm(w, entries[i], i);
            && Advance(w, id, Turn(i), c) == (w, Checked(i)) && CanAdvance(w, Checked(i), c)
            && var w1 := Advance(w, id, Checked(i), c).0;
               && Advance(w, id, Checked(i), c).1 == Moved(i, i) && CanAdvance(w1, Moved(i, i), c)
               && Advance(w1, id, Moved(i, i), c) == (w1, Verified(i, i))
               && CanAdvance(w1, Verified(i, i), c) && Advance(w1, id, Verified(i, i), c) == (v, Turn(i + 1))
    ensures Undisturbed(v, entries, i + 1)
  {
    var c := Calm(w, entries[i], i);
    var w1 := Advance(w, id, Checked(i), c).0;
    v := Advance(w1, id, Verified(i, i), c).0;
  }

  ghost predicate AllRemoved(w: World, entries: seq<Entry>) {
    && w.row.status == Completed && |w.handled| == |entries|
    && forall k :: 0 <= k < |entries| ==> entries[k].Entry? && entries[k].path !in w.paths && w.handled[k].Removed?
  }

  lemma EntryStep(s: System, id: FlushId, entries: seq<Entry>, i: nat) returns (t: System)
    requires id in s.flushes && s.flushes[id] == Turn(i) && Undisturbed(s.world, entries, i) && i < |entries|
    ensures id in t.flushes && t.flushes[id] == Turn(i + 1) && Undisturbed(t.world, entries, i + 1)
    ensures forall u :: Reaches(t, u) ==> Reaches(s, u)
  {
    var w, c := s.world, Calm(s.world, entries[i], i);
    var v := EntryRemoved(w, id, entries, i);
    var e := Step(id, c);
    var s1 := Next(s, e);
    var s2 := Next(s1, e);
    var s3 := Next(s2, e);
    t := Next(s3, e);
    forall u | Reaches(t, u) ensures Reaches(s, u) {
      ReachesFirst(s3, e, u);
      ReachesFirst(s2, e, u);
      ReachesFirst(s1, e, u);
      ReachesFirst(s, e, u);
    }
  }

  lemma {:induction false} GoesThrough(s: System, id: FlushId, entries: seq<Entry>, i: nat) returns (t: System)
    requires id in s.flushes && s.flushes[id] == Turn(i) && Undisturbed(s.world, entries, i)
    ensures Reaches(s, t) && id in t.flushes && t.flushes[id] == Returned(true) && AllRemoved(t.world, entries)
    decreases |entries| - i
  {
    if i < |entries| {
      var s1 := EntryStep(s, id, entries, i);
      t := GoesThrough(s1, id, entries, i + 1);
    } else {
      var e := Step(id, ANY);
      var s1 := Next(s, e);
      assert s1.flushes[id] == Closing;
      t := Next(s1, e);
      ReachesItself(t);
      ReachesFirst(s1, e, t);
      ReachesFirst(s, e, t);
    }
  }

  /** The purpose of it all: a flush with the row's token that finds what was staged, and that
      nobody disturbs, removes every object, completes the row and returns True. */
  lemma StagedObjectsAreRemoved(entries: seq<Entry>, token: Token, files: map<Path, Node>, given: Option<Token>)
    returns (t: System)
    requires given == Some(token) || given == None
    requires forall k :: 0 <= k < |entries| ==> StillStaged(Staged(Valid(entries, Some(token)), files), entries[k])
    requires forall k, l :: 0 <= k < l < |entries| ==> entries[k].path != entries[l].path
    ensures Reaches(Fresh(Valid(entries, Some(token)), files), t)
    ensures 0 in t.flushes && t.flushes[0] == Returned(true) && AllRemoved(t.world, entries)
  {
    var s := Fresh(Valid(entries, Some(token)), files);
    var s1 := Next(s, Start(0, given));
    assert s1.flushes[0] == Ready;
    var s2 := Next(s1, Step(0, ANY));
    assert s2.flushes[0] == Turn(0);
    t := GoesThrough(s2, 0, entries, 0);
    ReachesFirst(s1, Step(0, ANY), t);
    ReachesFirst(s, Start(0, given), t);
  }

  /** The flush that looked is past moving anything, and nobody else will. */
  ghost predicate LeavesAlone(s: System, id: FlushId) {
    && Inv(s) && s.world.claimants == [id] && s.world.row.status != Pending
    && id in s.flushes && (s.flushes[id].Failing? || s.flushes[id].Returned? || s.flushes[id].Dead?)
  }

  lemma StillLeftAlone(s: System, e: Event, id: FlushId)
    requires LeavesAlone(s, id) && Enabled(s, e)
    ensures LeavesAlone(Next(s, e), id)
    ensures Next(s, e).world.taken == s.world.taken && Next(s, e).world.deleted == s.world.deleted
    ensures e.Interfere? || Next(s, e).world.paths == s.world.paths
  {
    NextInv(s, e);
    if e.Step? {
      assert Working(s.flushes[e.id]) ==> e.id == id;
    }
  }

  lemma {:induction false} LeftAlone(s: System, events: seq<Event>, id: FlushId)
    requires LeavesAlone(s, id) && IsRun(s, events)
    ensures After(s, events).world.taken == s.world.taken && After(s, events).world.deleted == s.world.deleted
    decreases |events|
  {
    if events != [] {
      StillLeftAlone(s, events[0], id);
      LeftAlone(Next(s, events[0]), events[1..], id);
    }
  }

  /** A look that sees anything but what was staged, or cannot see it, moves nothing: over every
      later run nothing more is taken from its path or destroyed, for this entry or another. */
  lemma ChangedPathIsLeftAlone(s: System, id: FlushId, i: nat, c: Choice, later: seq<Event>)
    requires Inv(s) && id in s.flushes && s.flushes[id] == Turn(i) && i < |Entries(s.world.payload)|
    requires !c.seen.Absent?
    requires Entries(s.world.payload)[i].Entry? ==> Some(c.seen) != Entries(s.world.payload)[i].generation
    requires IsRun(Next(s, Step(id, c)), later)
    ensures Next(s, Step(id, c)).world == s.world
    ensures var t := After(Next(s, Step(id, c)), later);
            t.world.taken == s.world.taken && t.world.deleted == s.world.deleted
  {
    NextInv(s, Step(id, c));
    assert FlushInv(s.world, s.flushes[id]);
    LeftAlone(Next(s, Step(id, c)), later, id);
  }

  /** What was put at the path between the look and the move is not destroyed: it is moved aside,
      found to be something else, and kept whole. */
  lemma ReplacedAfterTheLook(s: System, id: FlushId, i: nat, n: Node, slot: Slot, c: Choice)
    requires Inv(s) && id in s.flushes && s.flushes[id] == Checked(i)
    requires c.rename.Into? && c.rename.slot == slot && slot !in s.world.quarantine && slot !in s.world.taken
    requires i < |Entries(s.world.payload)| && !AsStaged(Entries(s.world.payload)[i], n.(ctime := c.rename.ctime))
    ensures var replace := Interfere(Entries(s.world.payload)[i].path, Some(n));
            var s1 := Next(s, replace);
            && Enabled(s1, Step(id, c)) && Enabled(Next(s1, Step(id, c)), Step(id, c))
            && var s3 := Next(Next(s1, Step(id, c)), Step(id, c));
               && s3.flushes[id] == Failing({slot}) && slot !in s3.world.deleted
               && slot in s3.world.quarantine && s3.world.quarantine[slot] == n.(ctime := c.rename.ctime)
  {
    assert FlushInv(s.world, s.flushes[id]);
    assert slot in s.world.deleted ==> DestroyedAsStaged(s.world, slot);
  }

  // ----- The token -----

  /** The table holds the row's own token or none. */
  predicate TokenKept(w: World) {
    w.tokens.None? || (w.payload.Valid? && w.tokens == w.payload.token)
  }

  lemma {:induction false} TokensKept(s: System, events: seq<Event>)
    requires TokenKept(s.world) && IsRun(s, events)
    ensures TokenKept(After(s, events).world) && After(s, events).world.payload == s.world.payload
    decreases |events|
  {
    if events != [] {
      TokensKept(Next(s, events[0]), events[1..]);
    }
  }

  /** Over every run: a call may go on to the claim exactly when the row is pending, its entries
      are readable and of the new form, and the call brings the row's token or finds it in the
      process that staged the row. */
  lemma TokenExact(payload: Payload, files: map<Path, Node>, events: seq<Event>, id: FlushId, given: Option<Token>)
    requires IsRun(Fresh(payload, files), events) && id !in After(Fresh(payload, files), events).flushes
    ensures var s := After(Fresh(payload, files), events);
            Next(s, Start(id, given)).flushes[id] == Ready <==>
              && s.world.row.status == Pending && payload.Valid? && payload.token.Some?
              && (forall k :: 0 <= k < |payload.entries| ==> payload.entries[k].Entry?)
              && (given == payload.token || (given == None && s.world.tokens.Some?))
  {
    TokensKept(Fresh(payload, files), events);
  }

  // ----- When True means completed -----

  lemma NeverWorksAgain(s: System, e: Event, id: FlushId)
    requires Enabled(s, e) && id in s.flushes && (s.flushes[id].Returned? || s.flushes[id].Dead?)
    ensures id in Next(s, e).flushes && !Working(Next(s, e).flushes[id])
    ensures Next(s, e).flushes[id].Returned? || Next(s, e).flushes[id].Dead?
  {
  }

  lemma {:induction false} StaysBack(s: System, events: seq<Event>, id: FlushId)
    requires IsRun(s, events) && id in s.flushes && (s.flushes[id].Returned? || s.flushes[id].Dead?)
    ensures id in After(s, events).flushes && !Working(After(s, events).flushes[id])
    decreases |events|
  {
    if events != [] {
      NeverWorksAgain(s, events[0], id);
      StaysBack(Next(s, events[0]), events[1..], id);
    }
  }

  /** While a flush is at work, only a sweep takes its row out of `executing`. */
  lemma RowOfWorking(s: System, e: Event, id: FlushId)
    requires Inv(s) && Enabled(s, e) && id in s.flushes && Working(s.flushes[id])
    ensures id in Next(s, e).flushes
    ensures var f := Next(s, e).flushes[id]; Working(f) || f.Returned? || f.Dead?
    ensures Working(Next(s, e).flushes[id]) ==>
              (Next(s, e).world.row.status == Executing <==> s.world.row.status == Executing && e != Sweeping)
  {
    if e.Step? && e.id != id {
      BystanderStep(s, id, e.id, e.choice);
    }
  }

  lemma {:induction false} StillExecuting(s: System, events: seq<Event>, id: FlushId)
    requires Inv(s) && IsRun(s, events) && id in s.flushes && Working(s.flushes[id])
    requires id in After(s, events).flushes && Working(After(s, events).flushes[id])
    ensures After(s, events).world.row.status == Executing <==>
              s.world.row.status == Executing && Sweeping !in events
    decreases |events|
  {
    if events != [] {
      NextInv(s, events[0]);
      RowOfWorking(s, events[0], id);
      if !Working(Next(s, events[0]).flushes[id]) {
        StaysBack(Next(s, events[0]), events[1..], id);
      }
      StillExecuting(Next(s, events[0]), events[1..], id);
      assert events == [events[0]] + events[1..];
    }
  }

  /** A flush that claims the row and comes to its end returns True in any case; the row is
      completed, for good, exactly when no sweep came in between. */
  lemma TrueCompletesExactly(s: System, id: FlushId, c: Choice, during: seq<Event>, last: Choice, later: seq<Event>)
    requires Inv(s) && id in s.flushes && s.flushes[id] == Ready && s.world.row.status == Pending
    requires IsRun(Next(s, Step(id, c)), during)
    requires var s1 := After(Next(s, Step(id, c)), during);
             id in s1.flushes && s1.flushes[id] == Closing && IsRun(Next(s1, Step(id, last)), later)
    ensures var s2 := Next(After(Next(s, Step(id, c)), during), Step(id, last));
            && s2.flushes[id] == Returned(true)
            && (After(s2, later).world.row.status == Completed <==> Sweeping !in during)
            && (After(s2, later).world.row.status == ManualRequired <==> Sweeping in during)
  {
    var s0 := Next(s, Step(id, c));
    NextInv(s, Step(id, c));
    RunInv(s0, during);
    StillExecuting(s0, during, id);
    var s1 := After(s0, during);
    assert FlushInv(s1.world, s1.flushes[id]);
    NextInv(s1, Step(id, last));
    TerminalRowsAbsorb(Next(s1, Step(id, last)), later);
  }

  /** The owner's flush of a row without entries, overtaken by a sweep. */
  function OvertakenRun(): seq<Event> {
    [Start(0, None), Step(0, ANY), Sweeping, Step(0, ANY), Step(0, ANY)]
  }

  lemma TrueAfterASweep()
    ensures var s := Fresh(Valid([], Some(1)), map[]);
            && IsRun(s, OvertakenRun())
            && After(s, OvertakenRun()).flushes[0] == Returned(true)
            && After(s, OvertakenRun()).world.row.status == ManualRequired
  {
    var s := Fresh(Valid([], Some(1)), map[]);
    var e := OvertakenRun();
    var s1 := Next(s, e[0]);
    assert s1.flushes[0] == Ready;
    var s2 := Next(s1, e[1]);
    assert s2.flushes[0] == Turn(0);
    var s3 := Next(s2, e[2]);
    assert s3.flushes[0] == Turn(0);
    var s4 := Next(s3, e[3]);
    assert s4.flushes[0] == Closing;
    var s5 := Next(s4, e[4]);
    assert IsRun(s5, []) && After(s5, []) == s5;
    assert IsRun(s4, [e[4]]) && After(s4, [e[4]]) == s5;
    assert IsRun(s3, [e[3], e[4]]) && After(s3, [e[3], e[4]]) == s5;
    assert IsRun(s2, [e[2], e[3], e[4]]) && After(s2, [e[2], e[3], e[4]]) == s5;
    assert IsRun(s1, [e[1], e[2], e[3], e[4]]) && After(s1, [e[1], e[2], e[3], e[4]]) == s5;
    assert e[1..] == [e[1], e[2], e[3], e[4]];
  }
}
