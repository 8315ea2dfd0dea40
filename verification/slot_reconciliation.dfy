/** Start-up reconciliation of video slots (_reconcile_video_slot_activity in app/db.py):
    each shot keeps one local owner of its slot, and every task a provider accepted is
    kept polling and kept charged.

    Rows are maps.  A text column that the code only tests for being non-empty is a bool
    or an Option, and operation ids carry no surrounding blanks. */
module SlotReconciliation {
  import opened Wrappers

  type JobId = nat
  type ShotId = string
  type VersionId = string
  type OperationId = string

  datatype JobStatus = Queued | Running | WaitingProvider | WaitingRetry | Waiting | Paused | Stale
                     | Cancelled | OtherStatus(name: string)
  datatype CreateState = Blank | NotStarted | Submitting | Accepted | OtherState(name: string)

  datatype Job = Job(
    isVideo: bool, shot: Option<ShotId>, version: Option<VersionId>,
    hasProject: bool, hasEpisode: bool,
    status: JobStatus, updatedAt: real, leased: bool,
    nonCancellable: bool, createState: CreateState, operation: Option<OperationId>,
    cancelRequested: bool, abandoned: bool,
    slotActive: bool, pollRequired: bool, adoptable: bool)

  datatype VersionStatus = VersionWaiting | VersionCancelled | VersionOther(name: string)
  datatype Version = Version(shot: ShotId, hasTask: bool, hasVideo: bool, status: VersionStatus, slotActive: bool)

  datatype ReservationStatus = Reserved | InUse | Released | Settled
  datatype ClaimStatus = ClaimReserved | ClaimAccepted | ClaimReleased | ClaimSettled | ClaimClosed
  datatype Claim = Claim(job: JobId, status: ClaimStatus, accepted: bool)

  datatype Tables = Tables(
    jobs: map<JobId, Job>,
    versions: map<VersionId, Version>,
    reservations: map<JobId, ReservationStatus>,
    claims: map<OperationId, Claim>)

  // ----- The query -----

  predicate HasTask(s: Tables, j: Job) {
    j.version.Some? && j.version.value in s.versions && s.versions[j.version.value].hasTask
  }

  predicate Pending(j: Job) {
    && !j.cancelRequested && !j.abandoned
    && (j.status in {Queued, Running, WaitingProvider, WaitingRetry, Waiting, Paused}
        || (j.status == Stale && j.nonCancellable))
  }

  /** Only a local generation: not a task that is merely polled for its bill. */
  predicate LocallyActive(j: Job) {
    Pending(j) && !(j.pollRequired && !j.adoptable)
  }

  predicate ProviderAccepted(s: Tables, j: Job) {
    j.createState == Accepted && (HasTask(s, j) || j.nonCancellable)
  }

  predicate ClaimClosedFor(s: Tables, id: JobId, j: Job) {
    && j.operation.Some? && j.operation.value in s.claims
    && s.claims[j.operation.value].job == id
    && s.claims[j.operation.value].status in {ClaimReleased, ClaimSettled, ClaimClosed}
  }

  predicate Selected(s: Tables, id: JobId) {
    id in s.jobs &&
    var j := s.jobs[id];
    j.isVideo && j.shot.Some? && (Pending(j) || (ProviderAccepted(s, j) && !ClaimClosedFor(s, id, j)))
  }

  function Rank(s: Tables, j: Job): nat {
    if j.slotActive then 0
    else if j.createState == Accepted && HasTask(s, j) then 1
    else if j.adoptable && !j.cancelRequested && !j.abandoned then 2
    else if j.leased then 3
    else 4
  }

  /** The ORDER BY within a shot. */
  predicate Precedes(s: Tables, a: JobId, b: JobId)
    requires a in s.jobs && b in s.jobs
  {
    var ja, jb := s.jobs[a], s.jobs[b];
    Rank(s, ja) < Rank(s, jb)
    || (Rank(s, ja) == Rank(s, jb)
        && (ja.updatedAt > jb.updatedAt || (ja.updatedAt == jb.updatedAt && a > b)))
  }

  /** The order of text columns: by code points, a prefix first. */
  predicate TextBefore(a: string, b: string) {
    b != "" && (a == "" || a[0] < b[0] || (a[0] == b[0] && TextBefore(a[1..], b[1..])))
  }

  lemma {:induction false} TextBeforeIsStrict(a: string, b: string)
    requires TextBefore(a, b)
    ensures a != b && !TextBefore(b, a)
  {
    if a != "" && a[0] == b[0] {
      TextBeforeIsStrict(a[1..], b[1..]);
    }
  }

  predicate ShotBefore(s: Tables, a: JobId, b: JobId) {
    && a in s.jobs && b in s.jobs && s.jobs[a].shot.Some? && s.jobs[b].shot.Some?
    && TextBefore(s.jobs[a].shot.value, s.jobs[b].shot.value)
  }

  /** The whole ORDER BY: row `a` has its turn before row `b`. */
  predicate TakenBefore(s: Tables, a: JobId, b: JobId) {
    ShotBefore(s, a, b)
    || (a in s.jobs && b in s.jobs && s.jobs[a].shot == s.jobs[b].shot && Precedes(s, a, b))
  }

  lemma TakenOnce(s: Tables, a: JobId, b: JobId)
    requires TakenBefore(s, a, b)
    ensures a != b && !TakenBefore(s, b, a) && !ShotBefore(s, b, a)
  {
    if ShotBefore(s, a, b) {
      TextBeforeIsStrict(s.jobs[a].shot.value, s.jobs[b].shot.value);
    } else {
      OneShot(s, a, b);
    }
  }

  lemma OneShot(s: Tables, a: JobId, b: JobId)
    requires a in s.jobs && b in s.jobs && s.jobs[a].shot == s.jobs[b].shot
    ensures !ShotBefore(s, a, b)
  {
    if s.jobs[a].shot.Some? && TextBefore(s.jobs[a].shot.value, s.jobs[a].shot.value) {
      TextBeforeIsStrict(s.jobs[a].shot.value, s.jobs[a].shot.value);
    }
  }

  datatype ShotRows = ShotRows(shot: ShotId, rows: seq<JobId>)

  /** `rows` are the query's rows of one shot, in its order. */
  ghost predicate IsShotRows(s: Tables, g: ShotRows) {
    && (forall i :: 0 <= i < |g.rows| ==> Selected(s, g.rows[i]) && s.jobs[g.rows[i]].shot == Some(g.shot))
    && (forall id :: Selected(s, id) && s.jobs[id].shot == Some(g.shot) ==> id in g.rows)
    && (forall i, j :: 0 <= i < j < |g.rows| ==> Precedes(s, g.rows[i], g.rows[j]))
  }

  /** The query's rows as the code groups them: every shot that has rows, in the order of shots. */
  ghost predicate IsGrouping(s: Tables, groups: seq<ShotRows>) {
    && (forall k :: 0 <= k < |groups| ==> IsShotRows(s, groups[k]))
    && (forall k, l :: 0 <= k < l < |groups| ==> TextBefore(groups[k].shot, groups[l].shot))
    && (forall id :: Selected(s, id) ==> exists k :: 0 <= k < |groups| && s.jobs[id].shot == Some(groups[k].shot))
  }

  // ----- What becomes of a row -----

  predicate Contends(s: Tables, id: JobId, shot: Option<ShotId>) {
    Selected(s, id) && LocallyActive(s.jobs[id]) && s.jobs[id].shot == shot
  }

  /** The first locally active row of its shot. */
  ghost predicate IsOwner(s: Tables, id: JobId) {
    id in s.jobs && Contends(s, id, s.jobs[id].shot)
    && forall other :: Contends(s, other, s.jobs[id].shot) && other != id ==> Precedes(s, id, other)
  }

  function OperationOf(j: Job): OperationId {
    if j.operation.Some? && j.operation.value != "" then j.operation.value
    else "video-create-" + (if j.version.Some? then j.version.value else "None")
  }

  predicate PreTransport(s: Tables, j: Job) {
    !j.nonCancellable && !HasTask(s, j) && j.createState in {Blank, NotStarted, Submitting}
  }

  function Cleared(j: Job): Job {
    if j.isVideo then j.(slotActive := false) else j
  }

  function Marked(j: Job): Job {
    j.(slotActive := true, adoptable := true)
  }

  function PolledOwner(j: Job): Job {
    j.(pollRequired := true, adoptable := true, operation := Some(OperationOf(j)))
  }

  function KeptPolling(j: Job, stamp: real): Job {
    j.(status := WaitingProvider, slotActive := false, pollRequired := true, adoptable := false,
       operation := Some(OperationOf(j)), cancelRequested := false, abandoned := false,
       leased := false, updatedAt := stamp)
  }

  function Closed(s: Tables, j: Job, stamp: real): Job {
    j.(status := Cancelled, slotActive := false, pollRequired := false, adoptable := false,
       cancelRequested := true, abandoned := false,
       createState := if PreTransport(s, j) then NotStarted else j.createState,
       nonCancellable := if PreTransport(s, j) then false else j.nonCancellable,
       leased := false, updatedAt := stamp)
  }

  function RowAfter(s: Tables, id: JobId, isOwner: bool, stamp: real): Job
    requires id in s.jobs
  {
    var j := s.jobs[id];
    if isOwner then
      if ProviderAccepted(s, j) then PolledOwner(Marked(Cleared(j))) else Marked(Cleared(j))
    else if ProviderAccepted(s, j) then KeptPolling(Cleared(j), stamp)
    else Closed(s, Cleared(j), stamp)
  }

  function ReservationRow(s: Tables, id: JobId, isOwner: bool, r: ReservationStatus): ReservationStatus
    requires id in s.jobs
  {
    if isOwner then r
    else if ProviderAccepted(s, s.jobs[id]) then Reserved
    else if r == Reserved || r == InUse then Released
    else r
  }

  ghost function JobAfter(s: Tables, id: JobId, stamp: real): Job
    requires id in s.jobs
  {
    if Selected(s, id) then RowAfter(s, id, IsOwner(s, id), stamp) else Cleared(s.jobs[id])
  }

  ghost function ReservationAfter(s: Tables, id: JobId): ReservationStatus
    requires id in s.reservations
  {
    if Selected(s, id) then ReservationRow(s, id, IsOwner(s, id), s.reservations[id]) else s.reservations[id]
  }

  ghost function JobsAfter(s: Tables, stamp: real): map<JobId, Job> {
    map id | id in s.jobs :: JobAfter(s, id, stamp)
  }

  ghost function ReservationsAfter(s: Tables): map<JobId, ReservationStatus> {
    map id | id in s.reservations :: ReservationAfter(s, id)
  }

  predicate Chargeable(j: Job) {
    j.hasProject && j.hasEpisode && j.version.Some?
  }

  function FirstLocallyActive(s: Tables, rows: seq<JobId>): (owner: Option<JobId>)
    requires forall i :: 0 <= i < |rows| ==> rows[i] in s.jobs
  {
    if rows == [] then None
    else if LocallyActive(s.jobs[rows[0]]) then Some(rows[0])
    else FirstLocallyActive(s, rows[1..])
  }

  lemma {:induction false} FirstFound(s: Tables, rows: seq<JobId>)
    requires forall i :: 0 <= i < |rows| ==> rows[i] in s.jobs
    ensures var owner := FirstLocallyActive(s, rows);
            if owner.None? then forall i :: 0 <= i < |rows| ==> !LocallyActive(s.jobs[rows[i]])
            else exists k :: 0 <= k < |rows| && rows[k] == owner.value && LocallyActive(s.jobs[rows[k]])
                             && forall i :: 0 <= i < k ==> !LocallyActive(s.jobs[rows[i]])
  {
    if rows != [] {
      if LocallyActive(s.jobs[rows[0]]) {
        assert rows[0] == FirstLocallyActive(s, rows).value;
      } else {
        FirstFound(s, rows[1..]);
        if FirstLocallyActive(s, rows[1..]).Some? {
          var k :| 0 <= k < |rows| - 1 && rows[1..][k] == FirstLocallyActive(s, rows[1..]).value
                   && LocallyActive(s.jobs[rows[1..][k]])
                   && forall i :: 0 <= i < k ==> !LocallyActive(s.jobs[rows[1..][i]]);
          assert rows[k + 1] == rows[1..][k];
          forall i | 0 <= i < k + 1 ensures !LocallyActive(s.jobs[rows[i]]) {
            if i > 0 { assert rows[i] == rows[1..][i - 1]; }
          }
        } else {
          forall i | 0 <= i < |rows| ensures !LocallyActive(s.jobs[rows[i]]) {
            if i > 0 { assert rows[i] == rows[1..][i - 1]; }
          }
        }
      }
    }
  }

  lemma OneOwnerPerShot(s: Tables, a: JobId, b: JobId)
    requires IsOwner(s, a) && IsOwner(s, b) && s.jobs[a].shot == s.jobs[b].shot
    ensures a == b
  {
  }

  lemma FirstOwns(s: Tables, g: ShotRows, id: JobId)
    requires IsShotRows(s, g) && FirstLocallyActive(s, g.rows) == Some(id)
    ensures id in g.rows && IsOwner(s, id)
  {
    FirstFound(s, g.rows);
    var k :| 0 <= k < |g.rows| && g.rows[k] == id && LocallyActive(s.jobs[g.rows[k]])
             && forall i :: 0 <= i < k ==> !LocallyActive(s.jobs[g.rows[i]]);
    forall other | Contends(s, other, Some(g.shot)) && other != id ensures Precedes(s, id, other) {
      var m :| 0 <= m < |g.rows| && g.rows[m] == other;
    }
  }

  /** The row the code picks is the owner, and it is the only one. */
  lemma FirstIsOwner(s: Tables, g: ShotRows, id: JobId)
    requires IsShotRows(s, g) && id in g.rows
    ensures IsOwner(s, id) <==> FirstLocallyActive(s, g.rows) == Some(id)
  {
    var m :| 0 <= m < |g.rows| && g.rows[m] == id;
    FirstFound(s, g.rows);
    var owner := FirstLocallyActive(s, g.rows);
    if owner.Some? {
      FirstOwns(s, g, owner.value);
      if IsOwner(s, id) {
        OneOwnerPerShot(s, id, owner.value);
      }
    }
  }

  /** Job rows when those in `done` have had their turn and `marked` is the shot's owner. */
  ghost function JobsMid(s: Tables, done: set<JobId>, marked: Option<JobId>, stamp: real): map<JobId, Job> {
    map id | id in s.jobs ::
      if id in done then RowAfter(s, id, IsOwner(s, id), stamp)
      else if Some(id) == marked then Marked(Cleared(s.jobs[id]))
      else Cleared(s.jobs[id])
  }

  ghost function ReservationsMid(s: Tables, done: set<JobId>): map<JobId, ReservationStatus> {
    map id | id in s.reservations ::
      if id in done && id in s.jobs then ReservationRow(s, id, IsOwner(s, id), s.reservations[id])
      else s.reservations[id]
  }

  // ----- What becomes of versions -----

  predicate Names(s: Tables, id: JobId, v: VersionId) {
    id in s.jobs && s.jobs[id].version == Some(v)
  }

  /** The turn of `id` leaves version `v` waiting: a row kept polling, without a video yet. */
  ghost predicate Keeps(s: Tables, id: JobId, v: VersionId) {
    && Selected(s, id) && !IsOwner(s, id) && Names(s, id, v) && ProviderAccepted(s, s.jobs[id])
    && v in s.versions && !s.versions[v].hasVideo
  }

  /** The turn of `id` leaves version `v` cancelled: a row that is closed. */
  ghost predicate Closes(s: Tables, id: JobId, v: VersionId) {
    Selected(s, id) && !IsOwner(s, id) && Names(s, id, v) && !ProviderAccepted(s, s.jobs[id])
  }

  ghost predicate ClosesLast(s: Tables, v: VersionId, turned: set<JobId>, id: JobId) {
    && id in turned && Closes(s, id, v)
    && forall kept :: kept in turned && Keeps(s, kept, v) ==> TakenBefore(s, kept, id)
  }

  ghost predicate KeptIn(s: Tables, v: VersionId, turned: set<JobId>) {
    exists id :: id in turned && Keeps(s, id, v)
  }

  /** Owner `id` names `v`, and no kept or closed row names it in the owner's shot or later. */
  ghost predicate MarksLast(s: Tables, v: VersionId, turned: set<JobId>, id: JobId) {
    && IsOwner(s, id) && Names(s, id, v)
    && forall x :: x in turned && (Keeps(s, x, v) || Closes(s, x, v)) ==> ShotBefore(s, x, id)
  }

  /** A version when the owners in `marked` have been marked and the rows in `turned` have
      had their turn. */
  ghost function VersionAt(s: Tables, v: VersionId, turned: set<JobId>, marked: set<JobId>): Version
    requires v in s.versions
  {
    s.versions[v].(
      status := if exists id :: ClosesLast(s, v, turned, id) then VersionCancelled
                else if KeptIn(s, v, turned) then VersionWaiting
                else s.versions[v].status,
      slotActive := exists id :: id in marked && MarksLast(s, v, turned, id))
  }

  ghost function VersionsAt(s: Tables, turned: set<JobId>, marked: set<JobId>): map<VersionId, Version> {
    map v | v in s.versions :: VersionAt(s, v, turned, marked)
  }

  /** The version rows after the turn of `id`. */
  function VersionsTurned(s: Tables, id: JobId, isOwner: bool, versions: map<VersionId, Version>)
    : map<VersionId, Version>
    requires id in s.jobs
  {
    var j := s.jobs[id];
    if isOwner || j.version.None? || j.version.value !in versions then versions
    else if !ProviderAccepted(s, j) then
      versions[j.version.value := versions[j.version.value].(status := VersionCancelled, slotActive := false)]
    else if versions[j.version.value].hasVideo then versions
    else versions[j.version.value := versions[j.version.value].(status := VersionWaiting, slotActive := false)]
  }

  /** Row `id` comes after all in `turned`, and in no earlier shot than the owners marked. */
  ghost predicate NextInTurn(s: Tables, turned: set<JobId>, marked: set<JobId>, id: JobId) {
    && Selected(s, id) && (IsOwner(s, id) ==> id in marked)
    && (forall x :: x in turned ==> TakenBefore(s, x, id))
    && (forall o :: o in marked ==> !ShotBefore(s, id, o))
  }

  lemma MarksLastAfter(s: Tables, v: VersionId, turned: set<JobId>, id: JobId, o: JobId)
    requires !ShotBefore(s, id, o)
    ensures MarksLast(s, v, turned + {id}, o) <==>
              MarksLast(s, v, turned, o) && !Keeps(s, id, v) && !Closes(s, id, v)
  {
  }

  lemma ClosesLastAfter(s: Tables, v: VersionId, turned: set<JobId>, id: JobId, x: JobId)
    requires forall y :: y in turned ==> TakenBefore(s, y, id)
    ensures ClosesLast(s, v, turned + {id}, x) <==>
              (x == id && Closes(s, id, v)) || (x != id && ClosesLast(s, v, turned, x) && !Keeps(s, id, v))
  {
    if x in turned {
      TakenOnce(s, x, id);
    }
  }

  lemma VersionTurn(s: Tables, turned: set<JobId>, marked: set<JobId>, id: JobId, v: VersionId)
    requires NextInTurn(s, turned, marked, id) && v in s.versions
    ensures VersionAt(s, v, turned + {id}, marked)
              == VersionsTurned(s, id, IsOwner(s, id), VersionsAt(s, turned, marked))[v]
  {
    forall o | o in marked
      ensures MarksLast(s, v, turned + {id}, o) <==>
                MarksLast(s, v, turned, o) && !Keeps(s, id, v) && !Closes(s, id, v)
    {
      MarksLastAfter(s, v, turned, id, o);
    }
    forall x
      ensures ClosesLast(s, v, turned + {id}, x) <==>
                (x == id && Closes(s, id, v)) || (x != id && ClosesLast(s, v, turned, x) && !Keeps(s, id, v))
    {
      ClosesLastAfter(s, v, turned, id, x);
    }
    assert id !in turned by {
      if id in turned {
        TakenOnce(s, id, id);
      }
    }
    KeptInAfter(s, v, turned, id);
    assert VersionsAt(s, turned, marked)[v] == VersionAt(s, v, turned, marked);
    if Closes(s, id, v) {
      assert ClosesLast(s, v, turned + {id}, id);
    }
  }

  lemma KeptInAfter(s: Tables, v: VersionId, turned: set<JobId>, id: JobId)
    ensures KeptIn(s, v, turned + {id}) <==> KeptIn(s, v, turned) || Keeps(s, id, v)
  {
    if KeptIn(s, v, turned) {
      var x :| x in turned && Keeps(s, x, v);
      assert x in turned + {id};
    } else if Keeps(s, id, v) {
      assert id in turned + {id};
    }
  }

  lemma VersionsTurn(s: Tables, turned: set<JobId>, marked: set<JobId>, id: JobId)
    requires NextInTurn(s, turned, marked, id)
    ensures VersionsAt(s, turned + {id}, marked)
              == VersionsTurned(s, id, IsOwner(s, id), VersionsAt(s, turned, marked))
  {
    forall v | v in s.versions
      ensures VersionAt(s, v, turned + {id}, marked)
                == VersionsTurned(s, id, IsOwner(s, id), VersionsAt(s, turned, marked))[v]
    {
      VersionTurn(s, turned, marked, id, v);
    }
  }

  lemma OnlyOwnersMark(s: Tables, turned: set<JobId>, marked: set<JobId>, id: JobId)
    requires IsOwner(s, id) ==> id in marked
    ensures VersionsAt(s, turned, marked + {id}) == VersionsAt(s, turned, marked)
  {
    forall v | v in s.versions ensures VersionAt(s, v, turned, marked + {id}) == VersionAt(s, v, turned, marked) {
    }
  }

  lemma VersionsMark(s: Tables, turned: set<JobId>, id: JobId)
    requires IsOwner(s, id) && forall x :: x in turned ==> ShotBefore(s, x, id)
    ensures VersionsAt(s, turned, turned + {id}) == VersionsMarked(VersionsAt(s, turned, turned), s.jobs[id].version)
  {
    forall v | v in s.versions
      ensures VersionAt(s, v, turned, turned + {id})
                == VersionsMarked(VersionsAt(s, turned, turned), s.jobs[id].version)[v]
    {
      if Names(s, id, v) {
        assert MarksLast(s, v, turned, id);
      }
    }
  }

  function VersionsMarked(versions: map<VersionId, Version>, v: Option<VersionId>): map<VersionId, Version> {
    if v.Some? && v.value in versions then versions[v.value := versions[v.value].(slotActive := true)] else versions
  }

  function Plus(done: set<JobId>, marked: Option<JobId>): set<JobId> {
    if marked.Some? then done + {marked.value} else done
  }

  // ----- What becomes of claims -----

  /** The turn of `id` records the charge, unless the ledger has the operation already. */
  ghost predicate Records(s: Tables, id: JobId, op: OperationId) {
    Selected(s, id) && ProviderAccepted(s, s.jobs[id]) && Chargeable(s.jobs[id]) && OperationOf(s.jobs[id]) == op
  }

  /** The turn of `id` releases this claim: reserved for a job that never reached the provider. */
  ghost predicate Withdraws(s: Tables, id: JobId, op: OperationId) {
    && Selected(s, id) && !IsOwner(s, id) && !ProviderAccepted(s, s.jobs[id]) && PreTransport(s, s.jobs[id])
    && s.jobs[id].operation == Some(op) && Withdrawable(s.claims, op, id)
  }

  predicate Withdrawable(claims: map<OperationId, Claim>, op: OperationId, id: JobId) {
    && op != "" && op in claims
    && claims[op].job == id && claims[op].status == ClaimReserved && !claims[op].accepted
  }

  ghost predicate RecordsFirst(s: Tables, op: OperationId, turned: set<JobId>, id: JobId) {
    && id in turned && Records(s, id, op)
    && forall other :: other in turned && Records(s, other, op) && other != id ==> TakenBefore(s, id, other)
  }

  ghost predicate RecordedIn(s: Tables, op: OperationId, turned: set<JobId>) {
    exists id :: id in turned && Records(s, id, op)
  }

  ghost function OldClaim(s: Tables, turned: set<JobId>, op: OperationId): Claim
    requires op in s.claims
  {
    if s.claims[op].job in turned && Withdraws(s, s.claims[op].job, op)
    then s.claims[op].(status := ClaimReleased) else s.claims[op]
  }

  /** The ledger when the rows in `turned` have had their turn: old claims stay unless their
      own job withdraws them, and a new one belongs to the first row that records it. */
  ghost predicate ClaimsAt(s: Tables, turned: set<JobId>, claims: map<OperationId, Claim>) {
    && (forall op :: op in claims <==> op in s.claims || RecordedIn(s, op, turned))
    && (forall op :: op in s.claims ==> claims[op] == OldClaim(s, turned, op))
    && (forall op :: op in claims && op !in s.claims ==>
          claims[op] == Claim(claims[op].job, ClaimAccepted, true) && RecordsFirst(s, op, turned, claims[op].job))
  }

  /** The ledger after the turn of `id`. */
  function ClaimsTurned(s: Tables, id: JobId, isOwner: bool, claims: map<OperationId, Claim>): map<OperationId, Claim>
    requires id in s.jobs
  {
    var j := s.jobs[id];
    if ProviderAccepted(s, j) then
      if Chargeable(j) && OperationOf(j) !in claims
      then claims[OperationOf(j) := Claim(id, ClaimAccepted, true)] else claims
    else if !isOwner && PreTransport(s, j) && j.operation.Some? && Withdrawable(claims, j.operation.value, id) then
      claims[j.operation.value := claims[j.operation.value].(status := ClaimReleased)]
    else claims
  }

  lemma NewClaimTurn(s: Tables, turned: set<JobId>, id: JobId, claims: map<OperationId, Claim>, op: OperationId)
    requires ClaimsAt(s, turned, claims) && Selected(s, id) && forall x :: x in turned ==> TakenBefore(s, x, id)
    requires id !in turned && op !in s.claims && op in ClaimsTurned(s, id, IsOwner(s, id), claims)
    ensures var c := ClaimsTurned(s, id, IsOwner(s, id), claims)[op];
            c == Claim(c.job, ClaimAccepted, true) && RecordsFirst(s, op, turned + {id}, c.job)
  {
    assert op !in claims ==> !RecordedIn(s, op, turned);
  }

  lemma ClaimsTurn(s: Tables, turned: set<JobId>, id: JobId, claims: map<OperationId, Claim>)
    requires ClaimsAt(s, turned, claims) && Selected(s, id) && forall x :: x in turned ==> TakenBefore(s, x, id)
    ensures ClaimsAt(s, turned + {id}, ClaimsTurned(s, id, IsOwner(s, id), claims))
  {
    var after := ClaimsTurned(s, id, IsOwner(s, id), claims);
    if id in turned {
      TakenOnce(s, id, id);
    }
    forall op ensures RecordedIn(s, op, turned + {id}) <==> RecordedIn(s, op, turned) || Records(s, id, op) {
    }
    forall op | op in s.claims ensures after[op] == OldClaim(s, turned + {id}, op) {
      OldClaimTurn(s, turned, id, claims, op);
    }
    forall op | op in after && op !in s.claims
      ensures after[op] == Claim(after[op].job, ClaimAccepted, true)
      ensures RecordsFirst(s, op, turned + {id}, after[op].job)
    {
      NewClaimTurn(s, turned, id, claims, op);
    }
  }

  lemma OldClaimTurn(s: Tables, turned: set<JobId>, id: JobId, claims: map<OperationId, Claim>, op: OperationId)
    requires ClaimsAt(s, turned, claims) && Selected(s, id) && id !in turned && op in s.claims
    ensures ClaimsTurned(s, id, IsOwner(s, id), claims)[op] == OldClaim(s, turned + {id}, op)
  {
    assert claims[op] == OldClaim(s, turned, op);
  }

  lemma MidStep(s: Tables, done: set<JobId>, marked: Option<JobId>, id: JobId, stamp: real)
    requires id in s.jobs && id !in done
    ensures JobsMid(s, done + {id}, marked, stamp)
              == JobsMid(s, done, marked, stamp)[id := RowAfter(s, id, IsOwner(s, id), stamp)]
    ensures id in s.reservations ==>
              ReservationsMid(s, done + {id})
                == ReservationsMid(s, done)[id := ReservationRow(s, id, IsOwner(s, id), s.reservations[id])]
    ensures id !in s.reservations ==> ReservationsMid(s, done + {id}) == ReservationsMid(s, done)
  {
  }

  lemma MarkStep(s: Tables, done: set<JobId>, id: JobId, stamp: real)
    requires id in s.jobs && id !in done
    ensures JobsMid(s, done, Some(id), stamp)
              == JobsMid(s, done, None, stamp)[id := Marked(JobsMid(s, done, None, stamp)[id])]
    ensures JobsMid(s, done, None, stamp)[id] == Cleared(s.jobs[id])
  {
  }

  /** The tables part of the way through. */
  ghost predicate Mid(s: Tables, t: Tables, done: set<JobId>, marked: Option<JobId>, stamp: real) {
    && t.jobs == JobsMid(s, done, marked, stamp) && t.reservations == ReservationsMid(s, done)
    && t.versions == VersionsAt(s, done, Plus(done, marked)) && ClaimsAt(s, done, t.claims)
  }

  // ----- The loops -----

  class SlotTables {
    var jobs: map<JobId, Job>
    var versions: map<VersionId, Version>
    var reservations: map<JobId, ReservationStatus>
    var claims: map<OperationId, Claim>

    function State(): Tables reads this {
      Tables(jobs, versions, reservations, claims)
    }

    method ClearFlags()
      modifies this`jobs, this`versions
      ensures jobs == map id | id in old(jobs) :: Cleared(old(jobs)[id])
      ensures versions == map v | v in old(versions) :: old(versions)[v].(slotActive := false)
    {
      jobs := map id | id in jobs :: Cleared(jobs[id]);
      versions := map v | v in versions :: versions[v].(slotActive := false);
    }

    method MarkOwner(id: JobId)
      requires id in jobs
      modifies this`jobs, this`versions
      ensures jobs == old(jobs)[id := Marked(old(jobs)[id])]
      ensures versions == VersionsMarked(old(versions), jobs[id].version)
    {
      jobs := jobs[id := Marked(jobs[id])];
      var v := jobs[id].version;
      if v.Some? && v.value in versions {
        versions := versions[v.value := versions[v.value].(slotActive := true)];
      }
    }

    method SetVersion(v: Option<VersionId>, status: VersionStatus, onlyWithoutVideo: bool)
      modifies this`versions
      ensures versions == if v.Some? && v.value in old(versions)
                             && !(onlyWithoutVideo && old(versions)[v.value].hasVideo)
                          then old(versions)[v.value := old(versions)[v.value].(status := status, slotActive := false)]
                          else old(versions)
    {
      if v.Some? && v.value in versions && !(onlyWithoutVideo && versions[v.value].hasVideo) {
        versions := versions[v.value := versions[v.value].(status := status, slotActive := false)];
      }
    }

    method KeepReservation(id: JobId)
      modifies this`reservations
      ensures reservations == if id in old(reservations) then old(reservations)[id := Reserved] else old(reservations)
    {
      if id in reservations {
        reservations := reservations[id := Reserved];
      }
    }

    method ReleaseReservation(id: JobId)
      modifies this`reservations
      ensures reservations == if id in old(reservations) && old(reservations)[id] in {Reserved, InUse}
                              then old(reservations)[id := Released] else old(reservations)
    {
      if id in reservations && reservations[id] in {Reserved, InUse} {
        reservations := reservations[id := Released];
      }
    }

    method InsertClaim(op: OperationId, id: JobId)
      modifies this`claims
      ensures claims == if op in old(claims) then old(claims) else old(claims)[op := Claim(id, ClaimAccepted, true)]
    {
      if op !in claims {
        claims := claims[op := Claim(id, ClaimAccepted, true)];
      }
    }

    method ReleaseClaim(op: Option<OperationId>, id: JobId)
      modifies this`claims
      ensures claims == if op.Some? && Withdrawable(old(claims), op.value, id)
                        then old(claims)[op.value := old(claims)[op.value].(status := ClaimReleased)] else old(claims)
    {
      if op.Some? && op.value != "" && op.value in claims {
        var c := claims[op.value];
        if c.job == id && c.status == ClaimReserved && !c.accepted {
          claims := claims[op.value := c.(status := ClaimReleased)];
        }
      }
    }

    /** One turn of the inner loop. `s` is what the query read. */
    method ReconcileRow(s: Tables, id: JobId, isOwner: bool, stamp: real)
      requires id in s.jobs && id in jobs
      requires jobs[id] == if isOwner then Marked(Cleared(s.jobs[id])) else Cleared(s.jobs[id])
      modifies this
      ensures jobs == old(jobs)[id := RowAfter(s, id, isOwner, stamp)]
      ensures reservations == if id in old(reservations)
                              then old(reservations)[id := ReservationRow(s, id, isOwner, old(reservations)[id])]
                              else old(reservations)
      ensures versions == VersionsTurned(s, id, isOwner, old(versions))
      ensures claims == ClaimsTurned(s, id, isOwner, old(claims))
    {
      var j := s.jobs[id];
      if ProviderAccepted(s, j) {
        if isOwner {
          jobs := jobs[id := PolledOwner(jobs[id])];
          assert id in reservations ==> reservations == reservations[id := reservations[id]];
        } else {
          jobs := jobs[id := KeptPolling(jobs[id], stamp)];
          SetVersion(j.version, VersionWaiting, true);
          KeepReservation(id);
        }
        if Chargeable(j) {
          InsertClaim(OperationOf(j), id);
        }
        return;
      }
      if isOwner {
        assert jobs == jobs[id := jobs[id]];
        assert id in reservations ==> reservations == reservations[id := reservations[id]];
        return;
      }
      jobs := jobs[id := Closed(s, jobs[id], stamp)];
      SetVersion(j.version, VersionCancelled, false);
      ReleaseReservation(id);
      assert id in old(reservations) ==>
        reservations == old(reservations)[id := ReservationRow(s, id, isOwner, old(reservations)[id])];
      if PreTransport(s, j) {
        ReleaseClaim(j.operation, id);
      }
    }

    method TakeTurn(s: Tables, id: JobId, isOwner: bool, ghost done: set<JobId>, ghost marked: Option<JobId>,
                    stamp: real)
      requires Mid(s, State(), done, marked, stamp)
      requires NextInTurn(s, done, Plus(done, marked), id) && id !in done
      requires isOwner == IsOwner(s, id) && isOwner == (marked == Some(id))
      modifies this
      ensures Mid(s, State(), done + {id}, marked, stamp)
    {
      MidStep(s, done, marked, id, stamp);
      VersionsTurn(s, done, Plus(done, marked), id);
      ClaimsTurn(s, done, id, claims);
      ReconcileRow(s, id, isOwner, stamp);
      OnlyOwnersMark(s, done + {id}, Plus(done, marked), id);
      assert Plus(done + {id}, marked) == Plus(done, marked) + {id};
    }

    method PickOwner(s: Tables, g: ShotRows, ghost done: set<JobId>, stamp: real) returns (owner: Option<JobId>)
      requires IsShotRows(s, g) && InEarlierShots(s, done, g.shot)
      requires Mid(s, State(), done, None, stamp)
      modifies this
      ensures owner == FirstLocallyActive(s, g.rows) && Mid(s, State(), done, owner, stamp)
    {
      owner := FirstLocallyActive(s, g.rows);
      if owner.Some? {
        FirstOwns(s, g, owner.value);
        NotInEarlierShots(s, done, g, owner.value);
        MarkStep(s, done, owner.value, stamp);
        VersionsMark(s, done, owner.value);
        MarkOwner(owner.value);
      }
    }

    method TakeRow(s: Tables, g: ShotRows, i: nat, owner: Option<JobId>, ghost done: set<JobId>, stamp: real)
      requires IsShotRows(s, g) && i < |g.rows| && InEarlierShots(s, done, g.shot)
      requires owner == FirstLocallyActive(s, g.rows) && Mid(s, State(), RowsUpTo(done, g, i), owner, stamp)
      modifies this
      ensures Mid(s, State(), RowsUpTo(done, g, i + 1), owner, stamp)
    {
      FirstIsOwner(s, g, g.rows[i]);
      NextRow(s, g, done, i);
      OneRowMore(done, g, i);
      TakeTurn(s, g.rows[i], owner == Some(g.rows[i]), RowsUpTo(done, g, i), owner, stamp);
    }

    /** The body of the outer loop. */
    method ReconcileShot(s: Tables, g: ShotRows, ghost done: set<JobId>, stamp: real)
      requires IsShotRows(s, g) && InEarlierShots(s, done, g.shot)
      requires Mid(s, State(), done, None, stamp)
      modifies this
      ensures Mid(s, State(), RowsUpTo(done, g, |g.rows|), None, stamp)
    {
      var owner := PickOwner(s, g, done, stamp);
      NoRowsYet(done, g);
      for i := 0 to |g.rows|
        invariant Mid(s, State(), RowsUpTo(done, g, i), owner, stamp)
      {
        TakeRow(s, g, i, owner, done, stamp);
      }
      OwnerTurned(s, State(), g, done, stamp);
    }

    method TakeShot(s: Tables, groups: seq<ShotRows>, k: nat, stamp: real)
      requires IsGrouping(s, groups) && k < |groups| && Mid(s, State(), RowsOfFirst(s, groups, k), None, stamp)
      modifies this
      ensures Mid(s, State(), RowsOfFirst(s, groups, k + 1), None, stamp)
    {
      GroupApart(s, groups, k);
      ReconcileShot(s, groups[k], RowsOfFirst(s, groups, k), stamp);
    }

    /** The outer loop. */
    method TakeShots(s: Tables, groups: seq<ShotRows>, stamp: real)
      requires IsGrouping(s, groups) && Mid(s, State(), RowsOfFirst(s, groups, 0), None, stamp)
      modifies this
      ensures Mid(s, State(), RowsOfFirst(s, groups, |groups|), None, stamp)
    {
      for k := 0 to |groups|
        invariant Mid(s, State(), RowsOfFirst(s, groups, k), None, stamp)
      {
        TakeShot(s, groups, k, stamp);
      }
    }

    /** _reconcile_video_slot_activity, given the query's rows grouped by shot. */
    method Reconcile(groups: seq<ShotRows>, stamp: real)
      requires IsGrouping(State(), groups)
      modifies this
      ensures Reconciled(old(State()), State(), stamp)
    {
      var s := State();
      ClearFlags();
      NothingTurned(s, State(), groups, stamp);
      TakeShots(s, groups, stamp);
      AllRowsTaken(s, State(), groups, stamp);
    }
  }

  ghost function RowsUpTo(done: set<JobId>, g: ShotRows, i: nat): set<JobId>
    requires i <= |g.rows|
  {
    done + set id | id in g.rows[..i]
  }

  lemma NoRowsYet(done: set<JobId>, g: ShotRows)
    ensures RowsUpTo(done, g, 0) == done
  {
  }

  /** The rows in `done` belong to shots before `shot`. */
  ghost predicate InEarlierShots(s: Tables, done: set<JobId>, shot: ShotId) {
    forall id :: id in done ==> id in s.jobs && s.jobs[id].shot.Some? && TextBefore(s.jobs[id].shot.value, shot)
  }

  lemma NotInEarlierShots(s: Tables, done: set<JobId>, g: ShotRows, id: JobId)
    requires IsShotRows(s, g) && InEarlierShots(s, done, g.shot) && id in g.rows
    ensures Selected(s, id) && s.jobs[id].shot == Some(g.shot) && id !in done
    ensures forall x :: x in done ==> ShotBefore(s, x, id)
  {
    var i :| 0 <= i < |g.rows| && g.rows[i] == id;
    if id in done {
      TextBeforeIsStrict(g.shot, g.shot);
    }
  }

  lemma RowsBefore(s: Tables, g: ShotRows, done: set<JobId>, i: nat, x: JobId)
    requires IsShotRows(s, g) && i < |g.rows| && InEarlierShots(s, done, g.shot) && x in RowsUpTo(done, g, i)
    ensures TakenBefore(s, x, g.rows[i]) && x != g.rows[i] && !ShotBefore(s, g.rows[i], x)
  {
    NotInEarlierShots(s, done, g, g.rows[i]);
    if x !in done {
      var k :| 0 <= k < i && g.rows[k] == x;
      assert Precedes(s, g.rows[k], g.rows[i]);
    }
    TakenOnce(s, x, g.rows[i]);
  }

  lemma OwnerNotLater(s: Tables, g: ShotRows, done: set<JobId>, i: nat, o: JobId)
    requires IsShotRows(s, g) && i < |g.rows| && InEarlierShots(s, done, g.shot)
    requires o in Plus(RowsUpTo(done, g, i), FirstLocallyActive(s, g.rows))
    ensures !ShotBefore(s, g.rows[i], o)
  {
    if o in RowsUpTo(done, g, i) {
      RowsBefore(s, g, done, i, o);
    } else {
      FirstOwns(s, g, o);
      OneShot(s, g.rows[i], o);
    }
  }

  lemma OneRowMore(done: set<JobId>, g: ShotRows, i: nat)
    requires i < |g.rows|
    ensures RowsUpTo(done, g, i + 1) == RowsUpTo(done, g, i) + {g.rows[i]}
  {
    assert g.rows[..i + 1] == g.rows[..i] + [g.rows[i]];
  }

  lemma NextRow(s: Tables, g: ShotRows, done: set<JobId>, i: nat)
    requires IsShotRows(s, g) && i < |g.rows| && InEarlierShots(s, done, g.shot)
    ensures var owner := FirstLocallyActive(s, g.rows);
            NextInTurn(s, RowsUpTo(done, g, i), Plus(RowsUpTo(done, g, i), owner), g.rows[i])
    ensures g.rows[i] !in RowsUpTo(done, g, i)
  {
    var id, turned, owner := g.rows[i], RowsUpTo(done, g, i), FirstLocallyActive(s, g.rows);
    FirstIsOwner(s, g, id);
    forall x | x in turned ensures TakenBefore(s, x, id) && x != id {
      RowsBefore(s, g, done, i, x);
    }
    forall o | o in Plus(turned, owner) ensures !ShotBefore(s, id, o) {
      OwnerNotLater(s, g, done, i, o);
    }
  }

  lemma MarkForgotten(s: Tables, turned: set<JobId>, id: JobId, stamp: real)
    requires id in turned
    ensures JobsMid(s, turned, Some(id), stamp) == JobsMid(s, turned, None, stamp) && Plus(turned, Some(id)) == turned
  {
  }

  lemma OwnerTurned(s: Tables, t: Tables, g: ShotRows, done: set<JobId>, stamp: real)
    requires IsShotRows(s, g) && Mid(s, t, RowsUpTo(done, g, |g.rows|), FirstLocallyActive(s, g.rows), stamp)
    ensures Mid(s, t, RowsUpTo(done, g, |g.rows|), None, stamp)
  {
    var owner := FirstLocallyActive(s, g.rows);
    if owner.Some? {
      FirstOwns(s, g, owner.value);
      assert g.rows[..|g.rows|] == g.rows;
      MarkForgotten(s, RowsUpTo(done, g, |g.rows|), owner.value, stamp);
    }
  }

  /** The rows of the first `k` groups. */
  ghost function RowsOfFirst(s: Tables, groups: seq<ShotRows>, k: nat): set<JobId>
    requires k <= |groups|
  {
    set id | id in s.jobs && Selected(s, id) && InFirst(groups, k, s.jobs[id].shot)
  }

  ghost predicate InFirst(groups: seq<ShotRows>, k: nat, shot: Option<ShotId>)
    requires k <= |groups|
  {
    exists l :: 0 <= l < k && shot == Some(groups[l].shot)
  }

  lemma GroupApart(s: Tables, groups: seq<ShotRows>, k: nat)
    requires IsGrouping(s, groups) && k < |groups|
    ensures InEarlierShots(s, RowsOfFirst(s, groups, k), groups[k].shot)
    ensures RowsOfFirst(s, groups, k + 1) == RowsUpTo(RowsOfFirst(s, groups, k), groups[k], |groups[k].rows|)
  {
    var g := groups[k];
    assert g.rows[..|g.rows|] == g.rows;
    forall id | id in RowsOfFirst(s, groups, k) ensures TextBefore(s.jobs[id].shot.value, g.shot) {
      var l :| 0 <= l < k && s.jobs[id].shot == Some(groups[l].shot);
    }
    forall id | id in g.rows ensures id in RowsOfFirst(s, groups, k + 1) {
      var i :| 0 <= i < |g.rows| && g.rows[i] == id;
    }
  }

  lemma NothingTurned(s: Tables, t: Tables, groups: seq<ShotRows>, stamp: real)
    requires t == s.(jobs := map id | id in s.jobs :: Cleared(s.jobs[id]),
                     versions := map v | v in s.versions :: s.versions[v].(slotActive := false))
    ensures Mid(s, t, RowsOfFirst(s, groups, 0), None, stamp)
  {
    assert RowsOfFirst(s, groups, 0) == {};
  }

  lemma AllRowsTaken(s: Tables, t: Tables, groups: seq<ShotRows>, stamp: real)
    requires IsGrouping(s, groups) && Mid(s, t, RowsOfFirst(s, groups, |groups|), None, stamp)
    ensures Reconciled(s, t, stamp)
  {
    assert RowsOfFirst(s, groups, |groups|) == AllRows(s);
    assert t.jobs == JobsAfter(s, stamp);
    assert t.reservations == ReservationsAfter(s);
  }

  ghost function AllRows(s: Tables): set<JobId> {
    set id | id in s.jobs && Selected(s, id)
  }

  /** What the whole pass leaves behind. */
  ghost predicate Reconciled(s: Tables, t: Tables, stamp: real) {
    && t.jobs == JobsAfter(s, stamp)
    && t.reservations == ReservationsAfter(s)
    && t.versions == VersionsAt(s, AllRows(s), AllRows(s))
    && ClaimsAt(s, AllRows(s), t.claims)
  }

  // ----- What the pass guarantees -----

  predicate HoldsSlot(s: Tables, id: JobId, shot: ShotId) {
    id in s.jobs && s.jobs[id].isVideo && s.jobs[id].shot == Some(shot) && s.jobs[id].slotActive
  }

  /** The unique index on active video jobs can be built, and the job that holds a slot
      was locally active before. */
  lemma OneActiveJobPerShot(s: Tables, t: Tables, stamp: real, shot: ShotId, a: JobId, b: JobId)
    requires Reconciled(s, t, stamp) && HoldsSlot(t, a, shot)
    ensures Selected(s, a) && LocallyActive(s.jobs[a]) && t.jobs[a].adoptable
    ensures HoldsSlot(t, b, shot) ==> a == b
  {
    assert t.jobs[a] == JobAfter(s, a, stamp);
    if HoldsSlot(t, b, shot) {
      assert t.jobs[b] == JobAfter(s, b, stamp);
      OneOwnerPerShot(s, a, b);
    }
  }

  /** The order of a shot's rows: a job that has the slot before one that has not; then one whose
      task the provider accepted, one whose result may be adopted and that was not given up, one
      under a lease; then the one written last, and of those the one with the higher id. */
  lemma RowOrderExact(s: Tables, id: JobId, other: JobId)
    requires id in s.jobs && other in s.jobs
    ensures var a, b := s.jobs[id], s.jobs[other];
            var taskA, taskB := a.createState == Accepted && HasTask(s, a), b.createState == Accepted && HasTask(s, b);
            var goodA := a.adoptable && !(a.cancelRequested || a.abandoned);
            var goodB := b.adoptable && !(b.cancelRequested || b.abandoned);
            Precedes(s, id, other) <==>
              if a.slotActive != b.slotActive then a.slotActive
              else if !a.slotActive && taskA != taskB then taskA
              else if !a.slotActive && !taskA && goodA != goodB then goodA
              else if !a.slotActive && !taskA && !goodA && a.leased != b.leased then a.leased
              else a.updatedAt > b.updatedAt || (a.updatedAt == b.updatedAt && id > other)
  {
  }

  /** So among those who contend for a slot it stays with a job that has it, or else goes to the
      first by provider task, adoptable result, lease and time. */
  lemma OwnerIsBest(s: Tables, id: JobId, other: JobId)
    requires IsOwner(s, id) && other != id && Contends(s, other, s.jobs[id].shot)
    ensures var a, b := s.jobs[id], s.jobs[other];
            var taskA, taskB := a.createState == Accepted && HasTask(s, a), b.createState == Accepted && HasTask(s, b);
            if a.slotActive != b.slotActive then a.slotActive
            else if !a.slotActive && taskA != taskB then taskA
            else if !a.slotActive && !taskA && a.adoptable != b.adoptable then a.adoptable
            else if !a.slotActive && !taskA && !a.adoptable && a.leased != b.leased then a.leased
            else a.updatedAt > b.updatedAt || (a.updatedAt == b.updatedAt && id > other)
  {
    RowOrderExact(s, id, other);
  }

  lemma RowKeepsPlace(s: Tables, id: JobId, isOwner: bool, stamp: real)
    requires id in s.jobs
    ensures var row := RowAfter(s, id, isOwner, stamp);
            row.shot == s.jobs[id].shot && row.isVideo == s.jobs[id].isVideo && (isOwner ==> row.slotActive)
  {
  }

  lemma OwnerHolds(s: Tables, t: Tables, stamp: real, id: JobId, shot: ShotId)
    requires t.jobs == JobsAfter(s, stamp) && IsOwner(s, id) && s.jobs[id].shot == Some(shot)
    ensures HoldsSlot(t, id, shot)
  {
    RowKeepsPlace(s, id, true, stamp);
    assert t.jobs[id] == JobAfter(s, id, stamp) == RowAfter(s, id, true, stamp);
  }

  lemma FirstPrecedes(s: Tables, g: ShotRows, id: JobId)
    requires IsShotRows(s, g) && Contends(s, id, Some(g.shot))
    ensures var owner := FirstLocallyActive(s, g.rows);
            owner.Some? && owner.value in g.rows && (owner.value == id || Precedes(s, owner.value, id))
  {
    FirstFound(s, g.rows);
    var i :| 0 <= i < |g.rows| && g.rows[i] == id;
  }

  /** A shot with a locally active job has a holder afterwards: the first such job in the
      order of the query. */
  lemma AContendedSlotIsHeld(s: Tables, t: Tables, stamp: real, g: ShotRows, id: JobId)
    requires Reconciled(s, t, stamp) && IsShotRows(s, g) && Contends(s, id, Some(g.shot))
    ensures var owner := FirstLocallyActive(s, g.rows);
            owner.Some? && HoldsSlot(t, owner.value, g.shot) && (owner.value == id || Precedes(s, owner.value, id))
  {
    FirstPrecedes(s, g, id);
    var owner := FirstLocallyActive(s, g.rows).value;
    FirstOwns(s, g, owner);
    OwnerHolds(s, t, stamp, owner, g.shot);
  }

  /** Every other row of the query is polled for its bill or closed. */
  lemma OthersArePolledOrClosed(s: Tables, t: Tables, stamp: real, id: JobId)
    requires Reconciled(s, t, stamp) && Selected(s, id) && !IsOwner(s, id)
    ensures id in t.jobs && !t.jobs[id].slotActive && !t.jobs[id].adoptable && !t.jobs[id].leased
    ensures ProviderAccepted(s, s.jobs[id]) ==>
              t.jobs[id].status == WaitingProvider && t.jobs[id].pollRequired && !t.jobs[id].cancelRequested
    ensures !ProviderAccepted(s, s.jobs[id]) ==>
              t.jobs[id].status == Cancelled && !t.jobs[id].pollRequired && t.jobs[id].cancelRequested
    ensures id in s.reservations && ProviderAccepted(s, s.jobs[id]) ==> t.reservations[id] == Reserved
    ensures id in s.reservations && !ProviderAccepted(s, s.jobs[id]) ==> t.reservations[id] !in {Reserved, InUse}
  {
    assert t.jobs[id] == JobAfter(s, id, stamp);
    if id in s.reservations {
      assert t.reservations[id] == ReservationAfter(s, id);
    }
  }

  /** What is known of a job at the start, in the columns of the tables. */
  datatype Facts = Facts(accepted: bool, open: bool, billed: bool, operation: OperationId)

  function FactsOf(s: Tables, id: JobId): Facts
    requires id in s.jobs
  {
    var j := s.jobs[id];
    var task := match j.version
                case None => false
                case Some(v) => v in s.versions && s.versions[v].hasTask;
    var claim := match j.operation
                 case None => None
                 case Some(op) => if op in s.claims && s.claims[op].job == id then Some(s.claims[op].status) else None;
    Facts(match j.createState { case Accepted => task || j.nonCancellable case _ => false },
          match j.status {
            case Queued | Running | WaitingProvider | WaitingRetry | Waiting | Paused =>
              !j.cancelRequested && !j.abandoned
            case Stale => j.nonCancellable && !j.cancelRequested && !j.abandoned
            case Cancelled => false
            case OtherStatus(_) => false
          },
          match claim {
            case None => false
            case Some(status) => status == ClaimReleased || status == ClaimSettled || status == ClaimClosed
          },
          match j.operation
          case None => "video-create-" + (if j.version.Some? then j.version.value else "None")
          case Some(op) => if |op| > 0 then op
                           else "video-create-" + (if j.version.Some? then j.version.value else "None"))
  }

  lemma FactsAgree(s: Tables, id: JobId)
    requires id in s.jobs
    ensures FactsOf(s, id) == Facts(ProviderAccepted(s, s.jobs[id]), Pending(s.jobs[id]),
                                    ClaimClosedFor(s, id, s.jobs[id]), OperationOf(s.jobs[id]))
  {
  }

  /** What may become of a job, column by column.  Out of the query's reach it loses its flag;
      else it holds its shot's slot, or waits for the provider to bill it, or is cancelled. */
  predicate Became(s: Tables, id: JobId, k: Job, stamp: real)
    requires id in s.jobs
  {
    var j, f := s.jobs[id], FactsOf(s, id);
    if !j.isVideo then k == j
    else if j.shot.None? || !(f.open || (f.accepted && !f.billed)) then k == j.(slotActive := false)
    else if k.slotActive then
      && f.open && (j.pollRequired ==> j.adoptable)
      && k == if f.accepted
              then j.(slotActive := true, adoptable := true, pollRequired := true, operation := Some(f.operation))
              else j.(slotActive := true, adoptable := true)
    else if f.accepted then
      k == j.(status := WaitingProvider, slotActive := false, pollRequired := true, adoptable := false,
              operation := Some(f.operation), cancelRequested := false, abandoned := false,
              leased := false, updatedAt := stamp)
    else
      k == j.(status := Cancelled, slotActive := false, pollRequired := false, adoptable := false,
              cancelRequested := true, abandoned := false, leased := false, updatedAt := stamp,
              createState := k.createState)
  }

  lemma TurnOutcome(s: Tables, id: JobId, isOwner: bool, stamp: real)
    requires Selected(s, id) && (isOwner ==> LocallyActive(s.jobs[id]))
    ensures Became(s, id, RowAfter(s, id, isOwner, stamp), stamp)
  {
    FactsAgree(s, id);
  }

  lemma UntouchedOutcome(s: Tables, id: JobId, stamp: real)
    requires id in s.jobs && !Selected(s, id)
    ensures Became(s, id, Cleared(s.jobs[id]), stamp)
  {
    FactsAgree(s, id);
  }

  lemma RowOutcome(s: Tables, t: Tables, stamp: real, id: JobId)
    requires Reconciled(s, t, stamp) && id in s.jobs
    ensures id in t.jobs && Became(s, id, t.jobs[id], stamp)
  {
    assert t.jobs[id] == JobAfter(s, id, stamp);
    if Selected(s, id) {
      TurnOutcome(s, id, IsOwner(s, id), stamp);
    } else {
      UntouchedOutcome(s, id, stamp);
    }
  }

  /** And of its reservation: only a row that waits for its bill is reserved anew, and only a
      cancelled one lets its money go. */
  lemma ReservationOutcome(s: Tables, t: Tables, stamp: real, id: JobId)
    requires Reconciled(s, t, stamp) && id in s.jobs && id in s.reservations
    ensures id in t.reservations
    ensures var j, k, f := s.jobs[id], t.jobs[id], FactsOf(s, id);
            var concerned := j.isVideo && j.shot.Some? && (f.open || (f.accepted && !f.billed));
            t.reservations[id] ==
              if concerned && !k.slotActive && f.accepted then Reserved
              else if concerned && !k.slotActive && s.reservations[id] != Settled then Released
              else s.reservations[id]
  {
    FactsAgree(s, id);
    assert t.jobs[id] == JobAfter(s, id, stamp);
    assert t.reservations[id] == ReservationAfter(s, id);
  }

  /** A job whose charge the ledger must show, in the columns of the tables. */
  predicate MustShow(s: Tables, id: JobId, op: OperationId) {
    && id in s.jobs && s.jobs[id].isVideo && s.jobs[id].shot.Some? && FactsOf(s, id).accepted
    && (FactsOf(s, id).open || !FactsOf(s, id).billed)
    && s.jobs[id].hasProject && s.jobs[id].hasEpisode && s.jobs[id].version.Some? && FactsOf(s, id).operation == op
  }

  /** The ledger gains exactly the operations of such jobs that it lacked, each as accepted and
      for one of them; it loses none. */
  lemma LedgerOutcome(s: Tables, t: Tables, stamp: real, op: OperationId)
    requires Reconciled(s, t, stamp)
    ensures op in t.claims <==> op in s.claims || exists id :: MustShow(s, id, op)
    ensures op in t.claims && op !in s.claims ==>
              MustShow(s, t.claims[op].job, op) && t.claims[op] == Claim(t.claims[op].job, ClaimAccepted, true)
  {
    forall id ensures MustShow(s, id, op) <==> id in AllRows(s) && Records(s, id, op) {
      if id in s.jobs {
        FactsAgree(s, id);
      }
    }
    if op in t.claims && op !in s.claims {
      assert RecordsFirst(s, op, AllRows(s), t.claims[op].job);
    }
    if id :| MustShow(s, id, op) {
      assert id in AllRows(s) && Records(s, id, op);
    }
    if RecordedIn(s, op, AllRows(s)) {
      var id :| id in AllRows(s) && Records(s, id, op);
      assert MustShow(s, id, op);
    }
  }

  lemma SameTask(s: Tables, t: Tables, j: Job, k: Job)
    requires s.versions.Keys == t.versions.Keys
    requires forall v :: v in s.versions ==> t.versions[v].hasTask == s.versions[v].hasTask
    requires j.version == k.version
    ensures HasTask(s, j) == HasTask(t, k)
  {
  }

  predicate KeepsTask(s: Tables, j: Job, k: Job) {
    && k.version == j.version
    && (ProviderAccepted(s, j) ==> k.createState == j.createState && k.nonCancellable == j.nonCancellable)
    && (k.createState == Accepted ==> j.createState == Accepted)
    && (k.nonCancellable ==> j.nonCancellable)
  }

  lemma ClosedKeepsTask(s: Tables, j: Job, stamp: real)
    requires !ProviderAccepted(s, j)
    ensures KeepsTask(s, j, Closed(s, Cleared(j), stamp))
  {
  }

  lemma RowKeepsTask(s: Tables, id: JobId, isOwner: bool, stamp: real)
    requires id in s.jobs
    ensures KeepsTask(s, s.jobs[id], RowAfter(s, id, isOwner, stamp)) && KeepsTask(s, s.jobs[id], Cleared(s.jobs[id]))
  {
    if !isOwner && !ProviderAccepted(s, s.jobs[id]) {
      ClosedKeepsTask(s, s.jobs[id], stamp);
    }
  }

  lemma TaskUnchanged(s: Tables, t: Tables, stamp: real, id: JobId)
    requires Reconciled(s, t, stamp) && id in s.jobs
    ensures id in t.jobs && t.jobs[id].version == s.jobs[id].version && HasTask(t, t.jobs[id]) == HasTask(s, s.jobs[id])
    ensures ProviderAccepted(t, t.jobs[id]) == ProviderAccepted(s, s.jobs[id])
  {
    RowKeepsTask(s, id, IsOwner(s, id), stamp);
    assert t.jobs[id] == JobAfter(s, id, stamp);
    assert KeepsTask(s, s.jobs[id], t.jobs[id]);
    SameTask(s, t, s.jobs[id], t.jobs[id]);
  }

  /** No liability is dropped: a task the provider accepted stays accepted, its reservation
      is never newly released, and its claim stays on the ledger. */
  lemma LiabilitiesSurvive(s: Tables, t: Tables, stamp: real, id: JobId)
    requires Reconciled(s, t, stamp) && id in s.jobs && ProviderAccepted(s, s.jobs[id])
    ensures id in t.jobs && ProviderAccepted(t, t.jobs[id])
    ensures id in s.reservations ==> t.reservations[id] in {s.reservations[id], Reserved}
    ensures Selected(s, id) ==> t.jobs[id].pollRequired && t.jobs[id].operation == Some(OperationOf(s.jobs[id]))
    ensures Selected(s, id) && Chargeable(s.jobs[id]) ==> OperationOf(s.jobs[id]) in t.claims
    ensures forall op :: op in s.claims && s.claims[op].job == id ==> op in t.claims && t.claims[op] == s.claims[op]
  {
    TaskUnchanged(s, t, stamp, id);
    assert t.jobs[id] == JobAfter(s, id, stamp);
    if id in s.reservations {
      assert t.reservations[id] == ReservationAfter(s, id);
    }
    assert Selected(s, id) && Chargeable(s.jobs[id]) ==> Records(s, id, OperationOf(s.jobs[id]));
  }

  /** What a reserved claim may be released for: its own job gives way, can still be cancelled,
      has no task at the provider and never got past the submission. */
  ghost predicate GivesWayUnsent(s: Tables, id: JobId, op: OperationId) {
    && Selected(s, id) && !IsOwner(s, id) && s.jobs[id].operation == Some(op) && op != ""
    && !s.jobs[id].nonCancellable && !HasTask(s, s.jobs[id])
    && (s.jobs[id].createState == Blank || s.jobs[id].createState == NotStarted
        || s.jobs[id].createState == Submitting)
  }

  /** A claim changes exactly when it was reserved, not accepted, and its job gave way unsent;
      it is then released.  So no possible charge is forgotten. */
  lemma ClaimReleasedExact(s: Tables, t: Tables, stamp: real, op: OperationId)
    requires Reconciled(s, t, stamp) && op in s.claims
    ensures op in t.claims && t.claims[op] == s.claims[op].(status := t.claims[op].status)
    ensures t.claims[op].status != s.claims[op].status <==>
              s.claims[op].status == ClaimReserved && !s.claims[op].accepted && GivesWayUnsent(s, s.claims[op].job, op)
    ensures t.claims[op].status != s.claims[op].status ==> t.claims[op].status == ClaimReleased
  {
    var id := s.claims[op].job;
    assert t.claims[op] == OldClaim(s, AllRows(s), op);
    assert Selected(s, id) ==> id in AllRows(s);
  }

  /** And a job forgets how far it had got with the provider exactly when it gives way unsent:
      every other job keeps its create state and stays as hard to cancel as it was. */
  lemma CreateStateExact(s: Tables, t: Tables, stamp: real, id: JobId)
    requires Reconciled(s, t, stamp) && id in s.jobs
    ensures id in t.jobs && t.jobs[id].nonCancellable == s.jobs[id].nonCancellable
    ensures t.jobs[id].createState
              == if Selected(s, id) && !IsOwner(s, id) && !s.jobs[id].nonCancellable && !HasTask(s, s.jobs[id])
                    && (s.jobs[id].createState == Blank || s.jobs[id].createState == Submitting)
                 then NotStarted else s.jobs[id].createState
  {
    assert t.jobs[id] == JobAfter(s, id, stamp);
  }

  lemma ClosedClaimsStay(s: Tables, t: Tables, stamp: real, id: JobId)
    requires Reconciled(s, t, stamp) && id in s.jobs && !Selected(s, id)
    ensures ClaimClosedFor(t, id, Cleared(s.jobs[id])) <==> ClaimClosedFor(s, id, s.jobs[id])
  {
    var op := s.jobs[id].operation;
    if op.Some? && op.value in s.claims && s.claims[op.value].job == id {
      assert t.claims[op.value] == OldClaim(s, AllRows(s), op.value);
    }
  }

  /** Rows outside the query lose their slot flag and nothing else. */
  lemma UnselectedRowsKeepEverythingElse(s: Tables, t: Tables, stamp: real, id: JobId)
    requires Reconciled(s, t, stamp) && id in s.jobs && !Selected(s, id)
    ensures t.jobs[id] == Cleared(s.jobs[id]) && !Selected(t, id)
    ensures id in s.reservations ==> t.reservations[id] == s.reservations[id]
  {
    assert t.jobs[id] == JobAfter(s, id, stamp);
    TaskUnchanged(s, t, stamp, id);
    ClosedClaimsStay(s, t, stamp, id);
    if id in s.reservations {
      assert t.reservations[id] == ReservationAfter(s, id);
    }
  }

  lemma OwnersContendAgain(s: Tables, t: Tables, stamp: real, id: JobId, shot: Option<ShotId>)
    requires Reconciled(s, t, stamp)
    ensures Contends(t, id, shot) <==> (IsOwner(s, id) && s.jobs[id].shot == shot)
  {
    if id in s.jobs {
      assert t.jobs[id] == JobAfter(s, id, stamp);
      if !Selected(s, id) {
        UnselectedRowsKeepEverythingElse(s, t, stamp, id);
      }
    }
  }

  lemma SameOwners(s: Tables, t: Tables, stamp: real, id: JobId)
    requires Reconciled(s, t, stamp)
    ensures IsOwner(t, id) <==> IsOwner(s, id)
  {
    if id in s.jobs {
      var shot := s.jobs[id].shot;
      assert t.jobs[id] == JobAfter(s, id, stamp);
      OwnersContendAgain(s, t, stamp, id, shot);
      forall other | Contends(t, other, shot) && IsOwner(s, id) ensures other == id {
        OwnersContendAgain(s, t, stamp, other, shot);
        OneOwnerPerShot(s, other, id);
      }
    }
  }

  lemma StaysSelected(s: Tables, t: Tables, stamp: real, id: JobId)
    requires Reconciled(s, t, stamp) && Selected(s, id)
    ensures Selected(t, id) <==> (IsOwner(s, id) || ProviderAccepted(s, s.jobs[id]))
  {
    assert t.jobs[id] == JobAfter(s, id, stamp);
    TaskUnchanged(s, t, stamp, id);
  }

  lemma OperationStable(j: Job, k: Job)
    requires k.operation == Some(OperationOf(j))
    ensures OperationOf(k) == OperationOf(j)
  {
    assert |"video-create-"| > 0;
  }

  lemma OwnerTwice(j: Job, k: Job)
    requires j.isVideo
    requires k == PolledOwner(Marked(Cleared(j))) || k == Marked(Cleared(j))
    ensures Marked(Cleared(k)) == k && (k == PolledOwner(Marked(Cleared(j))) ==> PolledOwner(k) == k)
  {
    if k == PolledOwner(Marked(Cleared(j))) {
      OperationStable(Marked(Cleared(j)), k);
    }
  }

  lemma PolledTwice(j: Job, k: Job, stamp: real, stamp': real)
    requires j.isVideo && k == KeptPolling(Cleared(j), stamp)
    ensures KeptPolling(Cleared(k), stamp').(updatedAt := stamp) == k
  {
    OperationStable(Cleared(j), k);
    assert OperationOf(Cleared(k)) == OperationOf(k);
  }

  lemma RowTwice(s: Tables, t: Tables, id: JobId, isOwner: bool, stamp: real, stamp': real)
    requires id in s.jobs && id in t.jobs && s.jobs[id].isVideo && t.jobs[id] == RowAfter(s, id, isOwner, stamp)
    requires ProviderAccepted(t, t.jobs[id]) == ProviderAccepted(s, s.jobs[id])
    requires isOwner || ProviderAccepted(s, s.jobs[id])
    ensures RowAfter(t, id, isOwner, stamp').(updatedAt := t.jobs[id].updatedAt) == t.jobs[id]
  {
    if isOwner {
      OwnerTwice(s.jobs[id], t.jobs[id]);
    } else {
      PolledTwice(s.jobs[id], t.jobs[id], stamp, stamp');
    }
  }

  lemma SecondPassOnJobs(s: Tables, t: Tables, u: Tables, stamp: real, stamp': real, id: JobId)
    requires Reconciled(s, t, stamp) && Reconciled(t, u, stamp') && id in s.jobs
    ensures id in u.jobs && u.jobs[id].(updatedAt := t.jobs[id].updatedAt) == t.jobs[id]
  {
    SameOwners(s, t, stamp, id);
    assert t.jobs[id] == JobAfter(s, id, stamp) && u.jobs[id] == JobAfter(t, id, stamp');
    if Selected(s, id) {
      TaskUnchanged(s, t, stamp, id);
      StaysSelected(s, t, stamp, id);
      if Selected(t, id) {
        RowTwice(s, t, id, IsOwner(s, id), stamp, stamp');
      }
    } else {
      UnselectedRowsKeepEverythingElse(s, t, stamp, id);
    }
  }

  lemma SecondPassOnReservations(s: Tables, t: Tables, u: Tables, stamp: real, stamp': real, id: JobId)
    requires Reconciled(s, t, stamp) && Reconciled(t, u, stamp') && id in s.jobs && id in s.reservations
    ensures id in u.reservations && u.reservations[id] == t.reservations[id]
  {
    SameOwners(s, t, stamp, id);
    assert t.reservations[id] == ReservationAfter(s, id) && u.reservations[id] == ReservationAfter(t, id);
    TaskUnchanged(s, t, stamp, id);
    if Selected(s, id) {
      StaysSelected(s, t, stamp, id);
    } else {
      UnselectedRowsKeepEverythingElse(s, t, stamp, id);
    }
  }

  /** A second pass picks the same owners and changes no job but for its time stamp, no
      reservation and no claim. */
  lemma SecondPassChangesNoJob(s: Tables, t: Tables, u: Tables, stamp: real, stamp': real, id: JobId)
    requires Reconciled(s, t, stamp) && Reconciled(t, u, stamp') && id in s.jobs
    ensures IsOwner(t, id) <==> IsOwner(s, id)
    ensures id in u.jobs && id in t.jobs && u.jobs[id].(updatedAt := t.jobs[id].updatedAt) == t.jobs[id]
    ensures id in s.reservations ==> id in u.reservations && u.reservations[id] == t.reservations[id]
    ensures u.claims == t.claims
  {
    SameOwners(s, t, stamp, id);
    SecondPassOnJobs(s, t, u, stamp, stamp', id);
    if id in s.reservations {
      SecondPassOnReservations(s, t, u, stamp, stamp', id);
    }
    SecondPassOnClaims(s, t, u, stamp, stamp');
  }

  lemma SelectedTwice(s: Tables, t: Tables, stamp: real, id: JobId)
    requires Reconciled(s, t, stamp)
    ensures Selected(t, id) <==> Selected(s, id) && (IsOwner(s, id) || ProviderAccepted(s, s.jobs[id]))
    ensures Selected(t, id) ==> ProviderAccepted(t, t.jobs[id]) == ProviderAccepted(s, s.jobs[id])
  {
    if Selected(s, id) {
      StaysSelected(s, t, stamp, id);
    } else if id in s.jobs {
      UnselectedRowsKeepEverythingElse(s, t, stamp, id);
    }
    if id in s.jobs {
      TaskUnchanged(s, t, stamp, id);
    }
  }

  lemma RecordsTwice(s: Tables, t: Tables, stamp: real, id: JobId, op: OperationId)
    requires Reconciled(s, t, stamp)
    ensures Records(t, id, op) ==> Records(s, id, op)
    ensures !Withdraws(t, id, op)
  {
    SelectedTwice(s, t, stamp, id);
    SameOwners(s, t, stamp, id);
    if Selected(t, id) && ProviderAccepted(t, t.jobs[id]) {
      assert t.jobs[id] == JobAfter(s, id, stamp);
      OperationStable(s.jobs[id], t.jobs[id]);
    }
  }

  lemma SecondPassOnClaims(s: Tables, t: Tables, u: Tables, stamp: real, stamp': real)
    requires Reconciled(s, t, stamp) && Reconciled(t, u, stamp')
    ensures u.claims == t.claims
  {
    forall op ensures op in u.claims <==> op in t.claims {
      forall id ensures Records(t, id, op) ==> Records(s, id, op) {
        RecordsTwice(s, t, stamp, id, op);
      }
    }
    forall op | op in t.claims ensures u.claims[op] == t.claims[op] {
      RecordsTwice(s, t, stamp, t.claims[op].job, op);
      assert u.claims[op] == OldClaim(t, AllRows(t), op);
    }
  }

  // ----- What a second pass does to versions -----

  ghost predicate LastWriteCloses(s: Tables, v: VersionId) {
    exists id :: ClosesLast(s, v, AllRows(s), id)
  }

  /** Owner `id` names `v`, and no kept row names it in the owner's shot or later. */
  ghost predicate OutlastsKept(s: Tables, v: VersionId, id: JobId) {
    IsOwner(s, id) && Names(s, id, v) && forall kept :: Keeps(s, kept, v) ==> ShotBefore(s, kept, id)
  }

  /** A closed row hid what an owner or a kept row did to `v`: it wrote the status after the
      last kept row, or it took the flag that an owner would otherwise have left. */
  ghost predicate Hidden(s: Tables, v: VersionId) {
    || (KeptIn(s, v, AllRows(s)) && LastWriteCloses(s, v))
    || ((exists id :: OutlastsKept(s, v, id)) && !exists id :: MarksLast(s, v, AllRows(s), id))
  }

  lemma KeepsTwice(s: Tables, t: Tables, stamp: real, v: VersionId, id: JobId)
    requires Reconciled(s, t, stamp)
    ensures Keeps(t, id, v) <==> Keeps(s, id, v)
    ensures !Closes(t, id, v)
    ensures IsOwner(t, id) && Names(t, id, v) <==> IsOwner(s, id) && Names(s, id, v)
  {
    SelectedTwice(s, t, stamp, id);
    SameOwners(s, t, stamp, id);
    if id in s.jobs {
      TaskUnchanged(s, t, stamp, id);
    }
  }

  lemma SameShot(s: Tables, t: Tables, stamp: real, id: JobId)
    requires t.jobs == JobsAfter(s, stamp) && id in s.jobs
    ensures id in t.jobs && t.jobs[id].shot == s.jobs[id].shot
  {
    RowKeepsPlace(s, id, IsOwner(s, id), stamp);
    assert t.jobs[id] == JobAfter(s, id, stamp);
  }

  lemma SameShots(s: Tables, t: Tables, stamp: real, a: JobId, b: JobId)
    requires t.jobs == JobsAfter(s, stamp)
    ensures ShotBefore(t, a, b) <==> ShotBefore(s, a, b)
  {
    if a in s.jobs && b in s.jobs {
      SameShot(s, t, stamp, a);
      SameShot(s, t, stamp, b);
    }
  }

  lemma MarksLastTwice(s: Tables, t: Tables, stamp: real, v: VersionId, id: JobId)
    requires Reconciled(s, t, stamp)
    ensures MarksLast(t, v, AllRows(t), id) <==> OutlastsKept(s, v, id)
  {
    forall x
      ensures Keeps(t, x, v) || Closes(t, x, v) <==> Keeps(s, x, v)
      ensures ShotBefore(t, x, id) <==> ShotBefore(s, x, id)
    {
      KeepsTwice(s, t, stamp, v, x);
      SameShots(s, t, stamp, x, id);
    }
    KeepsTwice(s, t, stamp, v, id);
  }

  /** The version row a pass leaves. */
  lemma PassOnVersion(s: Tables, t: Tables, stamp: real, v: VersionId)
    requires Reconciled(s, t, stamp) && v in s.versions
    ensures v in t.versions
    ensures t.versions[v] == s.versions[v].(status := t.versions[v].status, slotActive := t.versions[v].slotActive)
    ensures t.versions[v].status == if LastWriteCloses(s, v) then VersionCancelled
                                    else if KeptIn(s, v, AllRows(s)) then VersionWaiting else s.versions[v].status
    ensures t.versions[v].slotActive <==> exists id :: MarksLast(s, v, AllRows(s), id)
  {
    assert t.versions[v] == VersionAt(s, v, AllRows(s), AllRows(s));
  }

  lemma SecondPassOnVersion(s: Tables, t: Tables, u: Tables, stamp: real, stamp': real, v: VersionId)
    requires Reconciled(s, t, stamp) && Reconciled(t, u, stamp') && v in s.versions
    ensures v in t.versions && v in u.versions && (u.versions[v] == t.versions[v] <==> !Hidden(s, v))
  {
    forall id
      ensures (MarksLast(t, v, AllRows(t), id) <==> OutlastsKept(s, v, id)) && !Closes(t, id, v)
      ensures Keeps(t, id, v) <==> Keeps(s, id, v)
    {
      MarksLastTwice(s, t, stamp, v, id);
      KeepsTwice(s, t, stamp, v, id);
    }
    assert KeptIn(t, v, AllRows(t)) <==> KeptIn(s, v, AllRows(s)) by {
      forall id | Keeps(s, id, v) ensures id in AllRows(s) && id in AllRows(t) && Keeps(t, id, v) {
      }
    }
    PassOnVersion(s, t, stamp, v);
    PassOnVersion(t, u, stamp', v);
  }

  /** A second pass leaves the version rows as they are exactly when no closed row hid what an
      owner or a kept row did to one of them. */
  lemma SecondPassExact(s: Tables, t: Tables, u: Tables, stamp: real, stamp': real)
    requires Reconciled(s, t, stamp) && Reconciled(t, u, stamp')
    ensures u.versions == t.versions <==> forall v :: v in s.versions ==> !Hidden(s, v)
  {
    forall v | v in s.versions
      ensures v in t.versions && v in u.versions && (u.versions[v] == t.versions[v] <==> !Hidden(s, v))
    {
      SecondPassOnVersion(s, t, u, stamp, stamp', v);
    }
  }

  /** So it suffices that no closed row names a version that an owner or a kept row names. */
  lemma ClosedApartSettles(s: Tables, t: Tables, u: Tables, stamp: real, stamp': real)
    requires Reconciled(s, t, stamp) && Reconciled(t, u, stamp')
    requires forall v, closed, other :: Closes(s, closed, v) ==>
               !Keeps(s, other, v) && !(IsOwner(s, other) && Names(s, other, v))
    ensures u.versions == t.versions
  {
    forall v | v in s.versions ensures !Hidden(s, v) {
      if id :| OutlastsKept(s, v, id) {
        assert MarksLast(s, v, AllRows(s), id);
      }
    }
    SecondPassExact(s, t, u, stamp, stamp');
  }

  /** For a version that only jobs of one shot name: an owner and a closed row share it and no
      kept row does, or a closed row comes after all kept ones. */
  lemma HiddenInOneShot(s: Tables, v: VersionId)
    requires v in s.versions
    requires forall a, b :: Selected(s, a) && Selected(s, b) && Names(s, a, v) && Names(s, b, v) ==>
               s.jobs[a].shot == s.jobs[b].shot
    ensures Hidden(s, v) <==>
              if KeptIn(s, v, AllRows(s)) then LastWriteCloses(s, v)
              else (exists o :: IsOwner(s, o) && Names(s, o, v)) && exists c :: Closes(s, c, v)
  {
    forall a, b | Selected(s, a) && Selected(s, b) && Names(s, a, v) && Names(s, b, v) ensures !ShotBefore(s, a, b) {
      OneShot(s, a, b);
    }
    if KeptIn(s, v, AllRows(s)) {
      var kept :| kept in AllRows(s) && Keeps(s, kept, v);
      forall o ensures !OutlastsKept(s, v, o) {
      }
    } else {
      forall o | IsOwner(s, o) && Names(s, o, v)
        ensures OutlastsKept(s, v, o) && (MarksLast(s, v, AllRows(s), o) <==> !exists c :: Closes(s, c, v))
      {
        forall c | Closes(s, c, v) ensures c in AllRows(s) && !ShotBefore(s, c, o) {
        }
      }
    }
  }

  function QueuedJob(shot: ShotId, version: VersionId): Job {
    Job(true, Some(shot), Some(version), true, true, Queued, 0.0, false, false, NotStarted, None, false, false,
        false, false, false)
  }

  /** Two queued jobs of one shot name its one version. */
  function Shared(): Tables {
    Tables(map[0 := QueuedJob("a", "v"), 1 := QueuedJob("a", "v")],
           map["v" := Version("a", false, false, VersionOther("queued"), false)], map[], map[])
  }

  lemma SharedHidden()
    ensures var s := Shared();
            && IsOwner(s, 1) && Closes(s, 0, "v") && ClosesLast(s, "v", AllRows(s), 0) && OutlastsKept(s, "v", 1)
            && forall id :: !MarksLast(s, "v", AllRows(s), id) && !Keeps(s, id, "v")
  {
    var s := Shared();
    assert Contends(s, 0, Some("a")) && Contends(s, 1, Some("a"));
    OneShot(s, 0, 1);
    forall id ensures !MarksLast(s, "v", AllRows(s), id) && !Keeps(s, id, "v") {
      if IsOwner(s, id) {
        OneOwnerPerShot(s, id, 1);
      }
    }
  }

  lemma NeverKeptNorClosed(s: Tables, t: Tables, stamp: real, v: VersionId)
    requires Reconciled(s, t, stamp) && forall id :: !Keeps(s, id, v)
    ensures forall id :: !Keeps(t, id, v) && !Closes(t, id, v)
  {
    forall id ensures !Keeps(t, id, v) && !Closes(t, id, v) {
      KeepsTwice(s, t, stamp, v, id);
    }
  }

  lemma SharedVersionLost(t: Tables, stamp: real)
    requires Reconciled(Shared(), t, stamp)
    ensures t.versions == map["v" := Version("a", false, false, VersionCancelled, false)]
  {
    SharedHidden();
    assert t.versions["v"] == VersionAt(Shared(), "v", AllRows(Shared()), AllRows(Shared()));
  }

  /** Closing the first takes the flag its owner gave the version; a second pass gives it back. */
  lemma SharedVersionComesBack(t: Tables, u: Tables, stamp: real, stamp': real)
    requires Reconciled(Shared(), t, stamp) && Reconciled(t, u, stamp')
    ensures t.versions == map["v" := Version("a", false, false, VersionCancelled, false)]
    ensures u.versions == map["v" := Version("a", false, false, VersionCancelled, true)]
  {
    SharedHidden();
    SharedVersionLost(t, stamp);
    MarksLastTwice(Shared(), t, stamp, "v", 1);
    NeverKeptNorClosed(Shared(), t, stamp, "v");
    assert u.versions["v"] == VersionAt(t, "v", AllRows(t), AllRows(t));
  }

  // ----- One active version per shot -----

  ghost predicate OneActiveVersionPerShot(t: Tables) {
    forall v, w :: ActiveInOneShot(t, v, w) ==> v == w
  }

  predicate ActiveInOneShot(t: Tables, v: VersionId, w: VersionId) {
    && v in t.versions && w in t.versions && t.versions[v].slotActive && t.versions[w].slotActive
    && t.versions[v].shot == t.versions[w].shot
  }

  /** Owner `id` has the last word on the flag of the version it names. */
  ghost predicate Lasts(s: Tables, id: JobId) {
    IsOwner(s, id) && s.jobs[id].version.Some? && MarksLast(s, s.jobs[id].version.value, AllRows(s), id)
  }

  predicate VersionsInOneShot(s: Tables, v: Option<VersionId>, w: Option<VersionId>) {
    && v.Some? && w.Some? && v.value in s.versions && w.value in s.versions
    && s.versions[v.value].shot == s.versions[w.value].shot
  }

  /** No two such owners name different versions of one shot. */
  ghost predicate OwnersVersionsApart(s: Tables) {
    forall a, b :: Lasts(s, a) && Lasts(s, b) && VersionsInOneShot(s, s.jobs[a].version, s.jobs[b].version) ==>
      s.jobs[a].version == s.jobs[b].version
  }

  /** Each job's version belongs to the job's shot. */
  ghost predicate VersionsInPlace(s: Tables) {
    forall id :: id in s.jobs && s.jobs[id].version.Some? && s.jobs[id].version.value in s.versions ==>
      s.jobs[id].shot == Some(s.versions[s.jobs[id].version.value].shot)
  }

  lemma InPlaceMeansApart(s: Tables)
    requires VersionsInPlace(s)
    ensures OwnersVersionsApart(s)
  {
    forall a, b | Lasts(s, a) && Lasts(s, b) && VersionsInOneShot(s, s.jobs[a].version, s.jobs[b].version)
      ensures a == b
    {
      OneOwnerPerShot(s, a, b);
    }
  }

  lemma ActiveMeansLasts(s: Tables, t: Tables, stamp: real, v: VersionId)
    requires Reconciled(s, t, stamp) && v in s.versions
    ensures v in t.versions && t.versions[v].shot == s.versions[v].shot
    ensures t.versions[v].slotActive <==> exists id :: Lasts(s, id) && s.jobs[id].version == Some(v)
  {
    assert t.versions[v] == VersionAt(s, v, AllRows(s), AllRows(s));
    forall id | Lasts(s, id) && s.jobs[id].version == Some(v)
      ensures id in AllRows(s) && MarksLast(s, v, AllRows(s), id)
    {
    }
    forall id | MarksLast(s, v, AllRows(s), id) ensures Lasts(s, id) && s.jobs[id].version == Some(v) {
    }
  }

  /** The unique index on active versions can be built exactly when no two owners with the
      last word on their versions' flags name different versions of one shot. */
  lemma ActiveVersionsExact(s: Tables, t: Tables, stamp: real)
    requires Reconciled(s, t, stamp)
    ensures OneActiveVersionPerShot(t) <==> OwnersVersionsApart(s)
  {
    forall v | v in s.versions
      ensures v in t.versions && t.versions[v].shot == s.versions[v].shot
      ensures t.versions[v].slotActive <==> exists id :: Lasts(s, id) && s.jobs[id].version == Some(v)
    {
      ActiveMeansLasts(s, t, stamp, v);
    }
    if OwnersVersionsApart(s) {
      forall v, w | ActiveInOneShot(t, v, w) ensures v == w {
        var a :| Lasts(s, a) && s.jobs[a].version == Some(v);
        var b :| Lasts(s, b) && s.jobs[b].version == Some(w);
        assert VersionsInOneShot(s, s.jobs[a].version, s.jobs[b].version);
      }
    } else {
      var a, b :| Lasts(s, a) && Lasts(s, b) && VersionsInOneShot(s, s.jobs[a].version, s.jobs[b].version)
                  && s.jobs[a].version != s.jobs[b].version;
      assert ActiveInOneShot(t, s.jobs[a].version.value, s.jobs[b].version.value);
    }
  }

  /** Two shots whose only jobs name versions of one third shot. */
  function Misplaced(): Tables {
    Tables(map[0 := QueuedJob("a", "v"), 1 := QueuedJob("b", "w")],
           map["v" := Version("c", false, false, VersionWaiting, false),
               "w" := Version("c", false, false, VersionWaiting, false)],
           map[], map[])
  }

  lemma BothMisplacedLast(id: JobId)
    requires id in Misplaced().jobs
    ensures Lasts(Misplaced(), id)
  {
    assert Contends(Misplaced(), id, Misplaced().jobs[id].shot) && IsOwner(Misplaced(), id);
    forall x | x in Misplaced().jobs ensures IsOwner(Misplaced(), x) {
      assert Contends(Misplaced(), x, Misplaced().jobs[x].shot);
    }
  }

  /** So one active version per shot is not assured: misplaced versions break it. */
  lemma MisplacedVersionsBothActive(t: Tables, stamp: real)
    requires Reconciled(Misplaced(), t, stamp)
    ensures !OneActiveVersionPerShot(t)
  {
    BothMisplacedLast(0);
    BothMisplacedLast(1);
    assert VersionsInOneShot(Misplaced(), Some("v"), Some("w"));
    ActiveVersionsExact(Misplaced(), t, stamp);
  }
}
