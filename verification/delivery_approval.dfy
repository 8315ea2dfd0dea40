/** The approval state machine over delivery packages, their artifacts and the episode's
    delivery pointer: publication, orphan recovery, approval, rejection, invalidation.

    Each BEGIN IMMEDIATE block is one step that either commits as a whole or leaves the
    store as it was.  What the blocks re-read from elsewhere (release authority, adopted
    videos, files on disk) enters as a flag that may have drifted. */
module DeliveryApproval {
  import opened Wrappers
  import L = DeliveryLease

  type PackageId = string
  type ArtifactId = string
  type EpisodeId = string

  datatype PackageStatus = WaitingHuman | Approving | Approved | Rejected | Superseded
  datatype ArtifactStatus = Validated | ArtApproved | ArtRejected | ArtSuperseded | OtherStatus
  datatype Trust = T3 | T5
  datatype DeliveryStatus = NotReady | AwaitingReview | DeliveryApproved | DeliveryRejected
  datatype Decision = Approve | ApproveWithRisk | Reject

  datatype Package = Package(episode: EpisodeId, artifact: ArtifactId, status: PackageStatus)
  datatype Artifact = Artifact(episode: EpisodeId, package: PackageId, content: string,
                               status: ArtifactStatus, trust: Trust)
  datatype Episode = Episode(pointer: Option<ArtifactId>, status: DeliveryStatus)
  datatype GateDecision = GateDecision(artifact: ArtifactId, decision: Decision)

  /** `receipts` holds the operation receipt of each package's review, `builds` that of its
      build. */
  datatype Store = Store(
    packages: map<PackageId, Package>,
    artifacts: map<ArtifactId, Artifact>,
    episodes: map<EpisodeId, Episode>,
    decisions: seq<GateDecision>,
    receipts: L.Table,
    builds: L.Table)

  /** What a builder under a lease brings to its transaction. */
  datatype Lease = Lease(request: string, owner: L.Owner, now: real)

  const Prefix := "delivery_"

  /** validate_package_id admits only ids that start with the prefix. */
  predicate ValidId(p: PackageId) {
    |p| > |Prefix| && p[..|Prefix|] == Prefix
  }

  function ArtifactOf(p: PackageId): ArtifactId
    requires ValidId(p)
  {
    "art_delivery_" + p[|Prefix|..]
  }

  lemma ArtifactOfInjective(p: PackageId, q: PackageId)
    requires ValidId(p) && ValidId(q) && ArtifactOf(p) == ArtifactOf(q)
    ensures p == q
  {
    var head := "art_delivery_";
    assert p[|Prefix|..] == ArtifactOf(p)[|head|..] == q[|Prefix|..];
    assert p == Prefix + p[|Prefix|..] && q == Prefix + q[|Prefix|..];
  }

  // ----- Transactions -----

  /** A lease, if there is one, is asserted with its expiry. */
  predicate LeaseHolds(builds: L.Table, p: PackageId, lease: Option<Lease>) {
    lease.Some? ==> L.Holds(builds, p, lease.value.request, lease.value.owner) && builds[p].expires > lease.value.now
  }

  predicate MayPublish(s: Store, p: PackageId, ep: EpisodeId, content: string, drifted: bool, lease: Option<Lease>) {
    && ValidId(p) && p !in s.packages && ep in s.episodes && !drifted && LeaseHolds(s.builds, p, lease)
    && (ArtifactOf(p) in s.artifacts ==>
          s.artifacts[ArtifactOf(p)].package == p && s.artifacts[ArtifactOf(p)].content == content)
  }

  /** An artifact row that is already there with this very content is left alone. */
  function Published(s: Store, p: PackageId, ep: EpisodeId, content: string): Store
    requires ValidId(p)
  {
    var a := ArtifactOf(p);
    s.(packages := s.packages[p := Package(ep, a, WaitingHuman)],
       artifacts := if a in s.artifacts then s.artifacts
                    else s.artifacts[a := Artifact(ep, p, content, Validated, T3)],
       episodes := s.episodes[ep := Episode(Some(a), AwaitingReview)])
  }

  predicate MayRecover(s: Store, p: PackageId, ep: EpisodeId, drifted: bool, lease: Option<Lease>) {
    && ValidId(p) && p !in s.packages && ep in s.episodes && !drifted && LeaseHolds(s.builds, p, lease)
    && ArtifactOf(p) in s.artifacts
    && var a := s.artifacts[ArtifactOf(p)];
       a.status == Validated && a.episode == ep && a.package == p
  }

  function Recovered(s: Store, p: PackageId, ep: EpisodeId): Store
    requires ValidId(p)
  {
    s.(packages := s.packages[p := Package(ep, ArtifactOf(p), WaitingHuman)],
       episodes := s.episodes[ep := Episode(Some(ArtifactOf(p)), AwaitingReview)])
  }

  /** The draft the episode points at, with its artifact still a validated candidate. */
  predicate CurrentDraft(s: Store, p: PackageId) {
    && p in s.packages
    && s.packages[p].artifact in s.artifacts
    && s.artifacts[s.packages[p].artifact].status == Validated
    && s.packages[p].episode in s.episodes
    && s.episodes[s.packages[p].episode] == Episode(Some(s.packages[p].artifact), AwaitingReview)
  }

  predicate MayApprove(s: Store, p: PackageId, drifted: bool) {
    CurrentDraft(s, p) && !drifted && (s.packages[p].status == WaitingHuman || s.packages[p].status == Approving)
  }

  predicate MayReject(s: Store, p: PackageId) {
    CurrentDraft(s, p) && s.packages[p].status == WaitingHuman
  }

  /** Other approved packages of `p`'s episode. */
  predicate Replaced(s: Store, p: PackageId, q: PackageId)
    requires p in s.packages
  {
    q in s.packages && q != p && s.packages[q].episode == s.packages[p].episode && s.packages[q].status == Approved
  }

  function WithPackages(s: Store, change: set<PackageId>, status: PackageStatus): map<PackageId, Package> {
    map q | q in s.packages :: if q in change then s.packages[q].(status := status) else s.packages[q]
  }

  function ReviewedBy(s: Store, p: PackageId, decision: Decision): Store
    requires p in s.packages && s.packages[p].artifact in s.artifacts
  {
    if decision == Reject then Declined(s, p) else ApprovedNow(s, p, decision)
  }

  function Declined(s: Store, p: PackageId): Store
    requires p in s.packages && s.packages[p].artifact in s.artifacts
  {
    var a := s.packages[p].artifact;
    s.(packages := s.packages[p := s.packages[p].(status := Rejected)],
       artifacts := s.artifacts[a := s.artifacts[a].(status := ArtRejected)],
       episodes := s.episodes[s.packages[p].episode := Episode(Some(a), DeliveryRejected)],
       decisions := s.decisions + [GateDecision(a, Reject)])
  }

  function ReplacedSet(s: Store, p: PackageId): set<PackageId>
    requires p in s.packages
  {
    set q | q in s.packages && Replaced(s, p, q)
  }

  function ApprovedNow(s: Store, p: PackageId, decision: Decision): Store
    requires p in s.packages && s.packages[p].artifact in s.artifacts
  {
    var a := s.packages[p].artifact;
    var replaced := ReplacedSet(s, p);
    var retired := set q | q in replaced :: s.packages[q].artifact;
    var approvedArtifacts := s.artifacts[a := s.artifacts[a].(status := ArtApproved, trust := T5)];
    s.(packages := WithPackages(s, replaced, Superseded)[p := s.packages[p].(status := Approved)],
       artifacts := map b | b in approvedArtifacts ::
                      if b in retired && approvedArtifacts[b].status == ArtApproved
                      then approvedArtifacts[b].(status := ArtSuperseded) else approvedArtifacts[b],
       episodes := s.episodes[s.packages[p].episode := Episode(Some(a), DeliveryApproved)],
       decisions := s.decisions + [GateDecision(a, decision)])
  }

  predicate Retirable(s: Store, ep: EpisodeId, q: PackageId) {
    q in s.packages && s.packages[q].episode == ep
    && (s.packages[q].status == WaitingHuman || s.packages[q].status == Approved)
  }

  /** invalidate_episode_delivery_authority: adoption of another video retires the episode's drafts. */
  function Invalidated(s: Store, ep: EpisodeId): Store {
    var retired := set q | q in s.packages && Retirable(s, ep, q);
    var gone := set q | q in retired :: s.packages[q].artifact;
    s.(packages := WithPackages(s, retired, Superseded),
       artifacts := map b | b in s.artifacts ::
                      if b in gone then s.artifacts[b].(status := ArtSuperseded) else s.artifacts[b],
       episodes := if ep in s.episodes then s.episodes[ep := Episode(None, NotReady)] else s.episodes)
  }

  // ----- The store the transactions run on -----

  class DeliveryStore {
    var packages: map<PackageId, Package>
    var artifacts: map<ArtifactId, Artifact>
    var episodes: map<EpisodeId, Episode>
    var decisions: seq<GateDecision>
    var receipts: L.Table
    var builds: L.Table

    function State(): Store reads this {
      Store(packages, artifacts, episodes, decisions, receipts, builds)
    }

    /** _commit_delivery_package_publication. */
    method Publish(p: PackageId, ep: EpisodeId, content: string, drifted: bool, lease: Option<Lease>)
      returns (ok: bool)
      requires ValidId(p)
      modifies this
      ensures ok == MayPublish(old(State()), p, ep, content, drifted, lease)
      ensures State() == if ok then Published(old(State()), p, ep, content) else old(State())
    {
      var a := ArtifactOf(p);
      if drifted {
        return false;
      }
      if lease.Some? {
        var mine := L.Holds(builds, p, lease.value.request, lease.value.owner);
        if !mine || builds[p].expires <= lease.value.now {
          return false;
        }
      }
      var before := artifacts;
      if a !in artifacts {
        artifacts := artifacts[a := Artifact(ep, p, content, Validated, T3)];
      } else if artifacts[a].package != p || artifacts[a].content != content {
        return false;
      }
      if p in packages || ep !in episodes {
        artifacts := before;
        return false;
      }
      packages := packages[p := Package(ep, a, WaitingHuman)];
      episodes := episodes[ep := Episode(Some(a), AwaitingReview)];
      return true;
    }

    /** _commit_orphan_delivery_recovery. */
    method RecoverOrphan(p: PackageId, ep: EpisodeId, drifted: bool, lease: Option<Lease>) returns (ok: bool)
      requires ValidId(p)
      modifies this
      ensures ok == MayRecover(old(State()), p, ep, drifted, lease)
      ensures State() == if ok then Recovered(old(State()), p, ep) else old(State())
    {
      var a := ArtifactOf(p);
      if drifted || !LeaseHolds(builds, p, lease) || a !in artifacts {
        return false;
      }
      if artifacts[a].status != Validated || artifacts[a].episode != ep || artifacts[a].package != p {
        return false;
      }
      if p in packages || ep !in episodes {
        return false;
      }
      packages := packages[p := Package(ep, a, WaitingHuman)];
      episodes := episodes[ep := Episode(Some(a), AwaitingReview)];
      return true;
    }

    /** The publish transaction of approve_delivery; a failed check rolls back. */
    method ApproveDraft(p: PackageId, decision: Decision, drifted: bool) returns (ok: bool)
      requires decision != Reject
      modifies this
      ensures ok == MayApprove(old(State()), p, drifted)
      ensures State() == if ok then ApprovedNow(old(State()), p, decision) else old(State())
    {
      if p !in packages || (packages[p].status != WaitingHuman && packages[p].status != Approving) {
        return false;
      }
      var a := packages[p].artifact;
      if a !in artifacts || artifacts[a].status != Validated || drifted {
        return false;
      }
      var before := State();
      var ep := packages[p].episode;
      var replaced := ReplacedSet(before, p);
      var retired := set q | q in replaced :: packages[q].artifact;
      artifacts := artifacts[a := artifacts[a].(status := ArtApproved, trust := T5)];
      packages := WithPackages(State(), replaced, Superseded);
      artifacts := map b | b in artifacts ::
        if b in retired && artifacts[b].status == ArtApproved then artifacts[b].(status := ArtSuperseded)
        else artifacts[b];
      decisions := decisions + [GateDecision(a, decision)];
      packages := packages[p := packages[p].(status := Approved)];
      if ep !in episodes || episodes[ep] != Episode(Some(a), AwaitingReview) {
        packages, artifacts, decisions := before.packages, before.artifacts, before.decisions;
        return false;
      }
      episodes := episodes[ep := Episode(Some(a), DeliveryApproved)];
      return true;
    }

    method RejectDraft(p: PackageId) returns (ok: bool)
      modifies this
      ensures ok == MayReject(old(State()), p)
      ensures State() == if ok then Declined(old(State()), p) else old(State())
    {
      if p !in packages || packages[p].status != WaitingHuman {
        return false;
      }
      var a, ep := packages[p].artifact, packages[p].episode;
      if a !in artifacts || artifacts[a].status != Validated || ep !in episodes
         || episodes[ep] != Episode(Some(a), AwaitingReview) {
        return false;
      }
      packages := packages[p := packages[p].(status := Rejected)];
      artifacts := artifacts[a := artifacts[a].(status := ArtRejected)];
      episodes := episodes[ep := Episode(Some(a), DeliveryRejected)];
      decisions := decisions + [GateDecision(a, Reject)];
      return true;
    }

    /** The deciding transaction as a whole, with the receipt completed or marked failed. */
    method Review(p: PackageId, request: string, owner: L.Owner, now: real, decision: Decision, drifted: bool)
      returns (decided: bool)
      requires p in packages
      modifies this
      ensures State() == Reviewed(old(State()), p, request, owner, now, decision, drifted)
      ensures decided == (old(decisions) != decisions)
    {
      var mine := L.Holds(receipts, p, request, owner);
      decided := false;
      if mine && receipts[p].expires > now {
        if decision == Reject {
          decided := RejectDraft(p);
        } else {
          decided := ApproveDraft(p, decision, drifted);
        }
      }
      if mine {
        var result := if decided then "decided" else receipts[p].result;
        receipts := receipts[p := L.Written(receipts[p], L.Completion(result, decided))];
      }
    }

    method Invalidate(ep: EpisodeId)
      modifies this
      ensures State() == Invalidated(old(State()), ep)
    {
      var retired := set q | q in packages && Retirable(State(), ep, q);
      var gone := set q | q in retired :: packages[q].artifact;
      packages := WithPackages(State(), retired, Superseded);
      artifacts := map b | b in artifacts :: if b in gone then artifacts[b].(status := ArtSuperseded) else artifacts[b];
      if ep in episodes {
        episodes := episodes[ep := Episode(None, NotReady)];
      }
    }
  }

  // ----- Runs -----

  datatype Event =
    | BuildLease(event: L.Event)
    | PublishEvent(package: PackageId, episode: EpisodeId, content: string, drifted: bool, lease: Option<Lease>)
    | RecoverEvent(package: PackageId, episode: EpisodeId, drifted: bool, lease: Option<Lease>)
    | ClaimReview(package: PackageId, request: string, owner: L.Owner, now: real)
    | Review(package: PackageId, request: string, owner: L.Owner, now: real, decision: Decision, drifted: bool)
    | InvalidateEvent(episode: EpisodeId)
    | StartupEvent(now: real)

  predicate Enabled(s: Store, e: Event) {
    match e
    case BuildLease(_) => true
    case PublishEvent(p, _, _, _, _) => ValidId(p)
    case RecoverEvent(p, _, _, _) => ValidId(p)
    case ClaimReview(p, _, _, _) => p in s.packages
    case Review(p, _, _, _, _, _) => p in s.packages
    case InvalidateEvent(_) => true
    case StartupEvent(_) => true
  }

  predicate MayReview(s: Store, p: PackageId, decision: Decision, drifted: bool) {
    if decision == Reject then MayReject(s, p) else MayApprove(s, p, drifted)
  }

  /** The transaction that decides: the lease is asserted with its expiry, the checks are
      repeated, and the receipt is completed together with the decision; if a check fails,
      everything is rolled back and the receipt is marked failed, its result as it was. */
  function Reviewed(s: Store, p: PackageId, request: string, owner: L.Owner, now: real,
                    decision: Decision, drifted: bool): Store
    requires p in s.packages
  {
    if L.Holds(s.receipts, p, request, owner) && s.receipts[p].expires > now && MayReview(s, p, decision, drifted) then
      ReviewedBy(s, p, decision).(receipts := L.WriteOn(s.receipts, p, request, owner, L.Completion("decided", true)).0)
    else if L.Holds(s.receipts, p, request, owner) then
      s.(receipts := L.WriteOn(s.receipts, p, request, owner, L.Completion(s.receipts[p].result, false)).0)
    else s
  }

  function Next(s: Store, e: Event): Store
    requires Enabled(s, e)
  {
    match e
    case BuildLease(l) => s.(builds := L.Next(L.World(s.builds, {}), l).rows)
    case PublishEvent(p, ep, content, drifted, lease) =>
      if MayPublish(s, p, ep, content, drifted, lease) then Published(s, p, ep, content) else s
    case RecoverEvent(p, ep, drifted, lease) =>
      if MayRecover(s, p, ep, drifted, lease) then Recovered(s, p, ep) else s
    case ClaimReview(p, request, owner, now) =>
      s.(receipts := L.ClaimOn(s.receipts, p, s.packages[p].episode, request, owner, now).0)
    case Review(p, request, owner, now, decision, drifted) =>
      Reviewed(s, p, request, owner, now, decision, drifted)
    case InvalidateEvent(ep) => Invalidated(s, ep)
    case StartupEvent(now) =>
      s.(receipts := L.FencedTable(s.receipts, now), builds := L.FencedTable(s.builds, now))
  }

  ghost predicate IsRun(s: Store, events: seq<Event>)
    decreases |events|
  {
    events == [] || (Enabled(s, events[0]) && IsRun(Next(s, events[0]), events[1..]))
  }

  ghost function After(s: Store, events: seq<Event>): Store
    requires IsRun(s, events)
    decreases |events|
  {
    if events == [] then s else After(Next(s, events[0]), events[1..])
  }

  /** Before any package: artifacts left by older processes may exist. */
  ghost predicate Fresh(s: Store) {
    s.packages == map[] && s.decisions == [] && s.receipts == map[]
    && forall ep :: ep in s.episodes ==> s.episodes[ep] == Episode(None, NotReady)
  }

  // ----- Invariant -----

  predicate DecidedStatus(status: PackageStatus) {
    status == Approved || status == Rejected || status == Superseded
  }

  ghost predicate Linked(s: Store) {
    forall p :: p in s.packages ==>
      ValidId(p) && s.packages[p].artifact == ArtifactOf(p) && ArtifactOf(p) in s.artifacts
  }

  ghost predicate Carries(s: Store, p: PackageId, a: ArtifactId) {
    p in s.packages && s.packages[p].artifact == a && DecidedStatus(s.packages[p].status)
  }

  ghost predicate Settled(s: Store, a: ArtifactId) {
    exists p :: Carries(s, p, a)
  }

  ghost predicate DecisionsOk(s: Store) {
    && (forall i, j :: 0 <= i < j < |s.decisions| ==> s.decisions[i].artifact != s.decisions[j].artifact)
    && (forall i :: 0 <= i < |s.decisions| ==> Settled(s, s.decisions[i].artifact))
  }

  ghost predicate ApprovedFor(s: Store, p: PackageId, q: PackageId) {
    && p in s.packages && q in s.packages
    && s.packages[p].status == Approved && s.packages[q].status == Approved
    && s.packages[p].episode == s.packages[q].episode
  }

  ghost predicate ApprovedOk(s: Store) {
    forall p, q :: ApprovedFor(s, p, q) ==> p == q
  }

  /** The artifact of a decided package says the same. */
  predicate Agrees(status: PackageStatus, a: Artifact) {
    match status
    case Approved => a.status == ArtApproved && a.trust == T5
    case Rejected => a.status == ArtRejected
    case Superseded => a.status == ArtSuperseded
    case _ => true
  }

  ghost predicate ArtifactsOk(s: Store) {
    forall p :: p in s.packages && s.packages[p].artifact in s.artifacts ==>
      Agrees(s.packages[p].status, s.artifacts[s.packages[p].artifact])
  }

  predicate Shows(shown: DeliveryStatus, status: PackageStatus) {
    || (shown == AwaitingReview && status == WaitingHuman)
    || (shown == DeliveryApproved && status == Approved)
    || (shown == DeliveryRejected && status == Rejected)
  }

  ghost predicate Leads(s: Store, ep: EpisodeId, p: PackageId)
    requires ep in s.episodes
  {
    && p in s.packages && s.packages[p].episode == ep && Shows(s.episodes[ep].status, s.packages[p].status)
    && s.episodes[ep].pointer == Some(s.packages[p].artifact)
  }

  ghost predicate PointsWell(s: Store, ep: EpisodeId)
    requires ep in s.episodes
  {
    s.episodes[ep] == Episode(None, NotReady) || exists p :: Leads(s, ep, p)
  }

  /** An episode points nowhere, or at one of its packages, and shows what became of that. */
  ghost predicate PointerOk(s: Store) {
    forall ep :: ep in s.episodes ==> PointsWell(s, ep)
  }

  ghost predicate Inv(s: Store) {
    Linked(s) && DecisionsOk(s) && ApprovedOk(s) && ArtifactsOk(s) && PointerOk(s)
  }

  lemma OneArtifactEach(s: Store, p: PackageId, q: PackageId)
    requires Linked(s) && p in s.packages && q in s.packages && s.packages[p].artifact == s.packages[q].artifact
    ensures p == q
  {
    ArtifactOfInjective(p, q);
  }

  /** A package that may be reviewed has not been decided before. */
  lemma UndecidedDraft(s: Store, p: PackageId)
    requires Linked(s) && DecisionsOk(s) && p in s.packages && !DecidedStatus(s.packages[p].status)
    ensures forall i :: 0 <= i < |s.decisions| ==> s.decisions[i].artifact != s.packages[p].artifact
  {
    forall i | 0 <= i < |s.decisions| ensures s.decisions[i].artifact != s.packages[p].artifact {
      assert Settled(s, s.decisions[i].artifact);
      var q :| Carries(s, q, s.decisions[i].artifact);
      if s.packages[q].artifact == s.packages[p].artifact {
        OneArtifactEach(s, p, q);
      }
    }
  }

  /** Statuses that carry a decision keep carrying it. */
  ghost predicate Decides(s: Store, s': Store) {
    forall p :: p in s.packages ==>
      && p in s'.packages && s'.packages[p].artifact == s.packages[p].artifact
      && (DecidedStatus(s.packages[p].status) ==> DecidedStatus(s'.packages[p].status))
  }

  lemma CarriedOver(s: Store, s': Store, a: ArtifactId)
    requires Decides(s, s') && Settled(s, a)
    ensures Settled(s', a)
  {
    var p :| Carries(s, p, a);
    assert Carries(s', p, a);
  }

  lemma DecisionsKept(s: Store, s': Store)
    requires DecisionsOk(s) && Decides(s, s') && s'.decisions == s.decisions
    ensures DecisionsOk(s')
  {
    forall i | 0 <= i < |s.decisions| ensures Settled(s', s.decisions[i].artifact) {
      CarriedOver(s, s', s.decisions[i].artifact);
    }
  }

  lemma DecisionAdded(s: Store, s': Store, p: PackageId, decision: Decision)
    requires Linked(s) && DecisionsOk(s) && Decides(s, s') && p in s.packages && !DecidedStatus(s.packages[p].status)
    requires DecidedStatus(s'.packages[p].status)
    requires s'.decisions == s.decisions + [GateDecision(s.packages[p].artifact, decision)]
    ensures DecisionsOk(s')
  {
    UndecidedDraft(s, p);
    forall i | 0 <= i < |s'.decisions| ensures Settled(s', s'.decisions[i].artifact) {
      if i < |s.decisions| {
        CarriedOver(s, s', s.decisions[i].artifact);
      } else {
        assert Carries(s', p, s'.decisions[i].artifact);
      }
    }
  }

  /** A new draft: its id was not a package, so no decision and no approval concerns it. */
  lemma DraftAdded(s: Store, s': Store, p: PackageId, ep: EpisodeId)
    requires Inv(s) && ValidId(p) && p !in s.packages
    requires s'.packages == s.packages[p := Package(ep, ArtifactOf(p), WaitingHuman)]
    requires ArtifactOf(p) in s'.artifacts && s'.decisions == s.decisions
    requires forall a :: a in s.artifacts ==> a in s'.artifacts && s'.artifacts[a] == s.artifacts[a]
    requires s'.episodes == s.episodes[ep := Episode(Some(ArtifactOf(p)), AwaitingReview)]
    ensures Inv(s')
  {
    DecisionsKept(s, s');
    assert forall q, r :: ApprovedFor(s', q, r) ==> ApprovedFor(s, q, r);
    assert Leads(s', ep, p);
    PointerKept(s, s', ep);
  }

  /** Another package's artifact is another artifact. */
  lemma ArtifactsApart(s: Store, q: PackageId, others: set<PackageId>)
    requires Linked(s) && q in s.packages && q !in others && forall r :: r in others ==> r in s.packages
    ensures s.packages[q].artifact !in (set r | r in others :: s.packages[r].artifact)
  {
    forall r | r in others ensures s.packages[r].artifact != s.packages[q].artifact {
      if s.packages[r].artifact == s.packages[q].artifact {
        OneArtifactEach(s, q, r);
      }
    }
  }

  /** Pointers of other episodes keep leading to their packages when those are untouched. */
  lemma PointerKept(s: Store, s': Store, ep: EpisodeId)
    requires PointerOk(s)
    requires forall e :: e in s'.episodes && e != ep ==> e in s.episodes && s'.episodes[e] == s.episodes[e]
    requires ep in s'.episodes ==> PointsWell(s', ep)
    requires forall q :: q in s.packages && s.packages[q].episode != ep ==>
               q in s'.packages && s'.packages[q] == s.packages[q]
    ensures PointerOk(s')
  {
    forall e | e in s'.episodes ensures PointsWell(s', e) {
      if e != ep {
        assert PointsWell(s, e);
        if s.episodes[e] != Episode(None, NotReady) {
          var q :| Leads(s, e, q);
          assert Leads(s', e, q);
        }
      }
    }
  }

  lemma ApprovedShrinks(s: Store, s': Store)
    requires ApprovedOk(s)
    requires forall q :: q in s'.packages && s'.packages[q].status == Approved ==>
               q in s.packages && s'.packages[q] == s.packages[q]
    ensures ApprovedOk(s')
  {
    assert forall q, r :: ApprovedFor(s', q, r) ==> ApprovedFor(s, q, r);
  }

  lemma DeclinedInv(s: Store, p: PackageId)
    requires Inv(s) && MayReject(s, p)
    ensures Inv(Declined(s, p))
  {
    var s' := Declined(s, p);
    DecisionAdded(s, s', p, Reject);
    forall q | q in s'.packages ensures Agrees(s'.packages[q].status, s'.artifacts[s'.packages[q].artifact]) {
      if q != p {
        ArtifactsApart(s, q, {p});
      }
    }
    ApprovedShrinks(s, s');
    assert Leads(s', s.packages[p].episode, p);
    PointerKept(s, s', s.packages[p].episode);
  }

  lemma InvalidatedArtifacts(s: Store, ep: EpisodeId)
    requires Linked(s) && ArtifactsOk(s)
    ensures ArtifactsOk(Invalidated(s, ep))
  {
    var s' := Invalidated(s, ep);
    forall q | q in s'.packages ensures Agrees(s'.packages[q].status, s'.artifacts[s'.packages[q].artifact]) {
      if !Retirable(s, ep, q) {
        ArtifactsApart(s, q, set r | r in s.packages && Retirable(s, ep, r));
      }
    }
  }

  lemma InvalidatedInv(s: Store, ep: EpisodeId)
    requires Inv(s)
    ensures Inv(Invalidated(s, ep))
  {
    var s' := Invalidated(s, ep);
    DecisionsKept(s, s');
    InvalidatedArtifacts(s, ep);
    ApprovedShrinks(s, s');
    PointerKept(s, s', ep);
  }

  lemma ApprovedArtifacts(s: Store, p: PackageId, decision: Decision)
    requires Inv(s) && MayApprove(s, p, false)
    ensures ArtifactsOk(ApprovedNow(s, p, decision))
  {
    var s' := ApprovedNow(s, p, decision);
    forall q | q in s'.packages ensures Agrees(s'.packages[q].status, s'.artifacts[s'.packages[q].artifact]) {
      if !Replaced(s, p, q) {
        ArtifactsApart(s, q, ReplacedSet(s, p));
      }
      if q != p {
        ArtifactsApart(s, q, {p});
      }
    }
  }

  lemma ApprovedNowInv(s: Store, p: PackageId, decision: Decision)
    requires Inv(s) && MayApprove(s, p, false)
    ensures Inv(ApprovedNow(s, p, decision))
  {
    var s' := ApprovedNow(s, p, decision);
    DecisionAdded(s, s', p, decision);
    ApprovedArtifacts(s, p, decision);
    OneApproved(s, p, decision);
    ApprovedPointer(s, p, decision);
  }

  lemma ApprovedPointer(s: Store, p: PackageId, decision: Decision)
    requires PointerOk(s) && MayApprove(s, p, false)
    ensures PointerOk(ApprovedNow(s, p, decision))
  {
    var s' := ApprovedNow(s, p, decision);
    assert Leads(s', s.packages[p].episode, p);
    PointerKept(s, s', s.packages[p].episode);
  }

  lemma OneApproved(s: Store, p: PackageId, decision: Decision)
    requires Inv(s) && MayApprove(s, p, false)
    ensures forall q, r :: ApprovedFor(ApprovedNow(s, p, decision), q, r) ==> q == r
  {
    var s' := ApprovedNow(s, p, decision);
    forall q, r | ApprovedFor(s', q, r) ensures q == r {
      if q != p && r != p {
        assert ApprovedFor(s, q, r);
      }
    }
  }

  lemma ReceiptsAside(s: Store, receipts: L.Table, builds: L.Table)
    requires Inv(s)
    ensures Inv(s.(receipts := receipts, builds := builds))
  {
    var s' := s.(receipts := receipts, builds := builds);
    DecisionsKept(s, s');
    assert forall q, r :: ApprovedFor(s', q, r) ==> ApprovedFor(s, q, r);
    forall ep | ep in s.episodes ensures PointsWell(s', ep) {
      assert PointsWell(s, ep);
      if s.episodes[ep] != Episode(None, NotReady) {
        var q :| Leads(s, ep, q);
        assert Leads(s', ep, q);
      }
    }
  }

  lemma ReviewInv(s: Store, p: PackageId, decision: Decision, drifted: bool)
    requires Inv(s) && MayReview(s, p, decision, drifted)
    ensures Inv(ReviewedBy(s, p, decision))
  {
    if decision == Reject { DeclinedInv(s, p); } else { ApprovedNowInv(s, p, decision); }
  }

  lemma StepInv(s: Store, e: Event)
    requires Inv(s) && Enabled(s, e)
    ensures Inv(Next(s, e))
  {
    match e
    case PublishEvent(p, ep, content, drifted, lease) =>
      if MayPublish(s, p, ep, content, drifted, lease) {
        DraftAdded(s, Published(s, p, ep, content), p, ep);
      }
    case RecoverEvent(p, ep, drifted, lease) =>
      if MayRecover(s, p, ep, drifted, lease) {
        DraftAdded(s, Recovered(s, p, ep), p, ep);
      }
    case Review(p, _, _, _, decision, drifted) =>
      ReceiptsAside(s, Next(s, e).receipts, s.builds);
      if MayReview(s, p, decision, drifted) {
        ReviewInv(s, p, decision, drifted);
        ReceiptsAside(ReviewedBy(s, p, decision), Next(s, e).receipts, s.builds);
      }
    case InvalidateEvent(ep) => InvalidatedInv(s, ep);
    case _ => ReceiptsAside(s, Next(s, e).receipts, Next(s, e).builds);
  }

  lemma {:induction false} RunInv(s: Store, events: seq<Event>)
    requires Inv(s) && IsRun(s, events)
    ensures Inv(After(s, events))
    decreases |events|
  {
    if events != [] {
      StepInv(s, events[0]);
      RunInv(Next(s, events[0]), events[1..]);
    }
  }

  // ----- Main results -----

  /** Over every run: no artifact is decided twice; an episode has at most one approved
      package; the artifact of a decided package says the same as the package; and an episode
      points nowhere, or at one of its own packages and shows what became of it. */
  lemma ReviewIsConsistent(s0: Store, events: seq<Event>)
    requires Fresh(s0) && IsRun(s0, events)
    ensures var s := After(s0, events);
            && (forall i, j :: 0 <= i < j < |s.decisions| ==> s.decisions[i].artifact != s.decisions[j].artifact)
            && (forall p, q :: ApprovedFor(s, p, q) ==> p == q)
            && (forall p :: p in s.packages ==> s.packages[p].artifact in s.artifacts
                                                && Agrees(s.packages[p].status, s.artifacts[s.packages[p].artifact]))
            && (forall ep :: ep in s.episodes ==> PointsWell(s, ep))
  {
    RunInv(s0, events);
  }

  /** A package appears only as a draft its episode then points at, and a builder that works
      under a lease must hold it, unexpired, in that very step. */
  lemma DraftsAppearUnderTheLease(s: Store, e: Event, p: PackageId)
    requires Enabled(s, e) && p !in s.packages && p in Next(s, e).packages
    ensures (e.PublishEvent? || e.RecoverEvent?) && e.package == p && !e.drifted && e.episode in s.episodes
    ensures e.lease.Some? ==>
              && p in s.builds && s.builds[p].status == L.Running && s.builds[p].owner == e.lease.value.owner
              && s.builds[p].fingerprint == e.lease.value.request && e.lease.value.now < s.builds[p].expires
    ensures ArtifactOf(p) in s.artifacts ==>
              && s.artifacts[ArtifactOf(p)].package == p
              && (e.PublishEvent? ==> s.artifacts[ArtifactOf(p)].content == e.content)
    ensures CurrentDraft(Next(s, e), p) <==>
              (ArtifactOf(p) in s.artifacts ==> s.artifacts[ArtifactOf(p)].status == Validated)
  {
  }

  /** A decision is recorded only by the review of the draft its episode points at, under a
      lease that has not expired and, to approve it, over an authority that has not drifted;
      the review's receipt is completed in the same step. */
  lemma OnlyTheCurrentDraftIsDecided(s: Store, e: Event)
    requires Inv(s) && Enabled(s, e) && Next(s, e).decisions != s.decisions
    ensures e.Review? && CurrentDraft(s, e.package) && (e.drifted ==> e.decision == Reject)
    ensures s.packages[e.package].status == WaitingHuman
            || (s.packages[e.package].status == Approving && e.decision != Reject)
    ensures L.Holds(s.receipts, e.package, e.request, e.owner) && s.receipts[e.package].expires > e.now
    ensures Next(s, e).decisions == s.decisions + [GateDecision(s.packages[e.package].artifact, e.decision)]
    ensures e.package in Next(s, e).receipts && Next(s, e).receipts[e.package].status == L.Succeeded
  {
  }

  /** Once decided, a package stays decided: it never again becomes a reviewable draft. */
  lemma {:induction false} DecidedIsForever(s: Store, events: seq<Event>, p: PackageId)
    requires IsRun(s, events) && p in s.packages && DecidedStatus(s.packages[p].status)
    ensures p in After(s, events).packages && DecidedStatus(After(s, events).packages[p].status)
    decreases |events|
  {
    if events != [] {
      DecidedIsForever(Next(s, events[0]), events[1..], p);
    }
  }

  /** A review that comes to nothing leaves the store alone but for its receipt, which says
      failed and keeps its result, so that whoever asks next for the same gets the lease. */
  lemma FailedReviewLetsGo(s: Store, e: Event, other: L.Owner, now: real)
    requires Enabled(s, e) && e.Review? && Next(s, e).decisions == s.decisions
    ensures Next(s, e) == s.(receipts := Next(s, e).receipts)
    ensures !L.Holds(s.receipts, e.package, e.request, e.owner) ==> Next(s, e) == s
    ensures L.Holds(s.receipts, e.package, e.request, e.owner) ==>
              var t := Next(s, e).receipts;
              && t == s.receipts[e.package := s.receipts[e.package].(status := L.Failed, expires := 0.0)]
              && L.ClaimOn(t, e.package, s.receipts[e.package].episode, e.request, other, now).1 == L.Granted(other)
  {
  }

  /** A restart lets go of every lease, in both tables, and touches nothing else. */
  lemma RestartLetsGo(s: Store, now: real)
    ensures var s' := Next(s, StartupEvent(now));
            && s' == s.(receipts := s'.receipts, builds := s'.builds)
            && s'.receipts.Keys == s.receipts.Keys && s'.builds.Keys == s.builds.Keys
            && (forall p :: p in s.receipts && s.receipts[p].status == L.Running ==> s'.receipts[p].expires == 0.0)
            && (forall p :: p in s.builds && s.builds[p].status == L.Running ==> s'.builds[p].expires == 0.0)
  {
  }

  /** A build that claims its lease publishes under it, but not after a restart in between. */
  lemma LeasedBuildPublishes(s: Store, p: PackageId, ep: EpisodeId, content: string, request: string,
                             owner: L.Owner, now: real)
    requires ValidId(p) && p !in s.packages && p !in s.builds && ep in s.episodes
    requires ArtifactOf(p) !in s.artifacts && now >= 0.0
    ensures var s1 := Next(s, BuildLease(L.ClaimEvent(p, ep, request, owner, now)));
            var publish := PublishEvent(p, ep, content, false, Some(Lease(request, owner, now)));
            && CurrentDraft(Next(s1, publish), p)
            && p !in Next(Next(s1, StartupEvent(now)), publish).packages
  {
  }

  // ----- What an invalidation retires -----

  predicate Open(s: Store, ep: EpisodeId, p: PackageId) {
    p in s.packages && s.packages[p].episode == ep && s.packages[p].status in {WaitingHuman, Approved}
  }

  ghost predicate ArtifactOfOpen(s: Store, ep: EpisodeId, a: ArtifactId) {
    exists p :: Open(s, ep, p) && s.packages[p].artifact == a
  }

  /** Every package of the episode that was open is superseded together with its artifact, and
      the episode points nowhere; nothing else changes. */
  lemma InvalidationRetires(s: Store, ep: EpisodeId)
    ensures var s' := Next(s, InvalidateEvent(ep));
            && s'.packages.Keys == s.packages.Keys && s'.artifacts.Keys == s.artifacts.Keys
            && (forall p :: p in s.packages ==> !Open(s', ep, p) && s'.packages[p].episode == s.packages[p].episode)
            && (forall p :: p in s.packages ==>
                  s'.packages[p].status == if Open(s, ep, p) then Superseded else s.packages[p].status)
            && (forall a :: a in s.artifacts && ArtifactOfOpen(s, ep, a) ==> s'.artifacts[a].status == ArtSuperseded)
            && (forall a :: a in s.artifacts && !ArtifactOfOpen(s, ep, a) ==> s'.artifacts[a] == s.artifacts[a])
            && (ep in s.episodes ==> s'.episodes[ep] == Episode(None, NotReady))
            && (forall e :: e in s.episodes && e != ep ==> e in s'.episodes && s'.episodes[e] == s.episodes[e])
            && s'.decisions == s.decisions && s'.receipts == s.receipts && s'.builds == s.builds
  {
    var s' := Next(s, InvalidateEvent(ep));
    forall a | a in s.artifacts && ArtifactOfOpen(s, ep, a) ensures s'.artifacts[a].status == ArtSuperseded {
      var p :| Open(s, ep, p) && s.packages[p].artifact == a;
      assert Retirable(s, ep, p);
    }
    forall a | a in s.artifacts && !ArtifactOfOpen(s, ep, a) ensures s'.artifacts[a] == s.artifacts[a] {
      forall p | p in s.packages && Retirable(s, ep, p) ensures s.packages[p].artifact != a {
        assert Open(s, ep, p);
      }
    }
  }

  lemma DecisionsOnlyGrow(s: Store, e: Event)
    requires Enabled(s, e)
    ensures s.decisions <= Next(s, e).decisions
  {
  }

  /** No decision is recorded any more for a package that is decided or superseded. */
  lemma {:induction false} NoLaterDecision(s: Store, events: seq<Event>, p: PackageId)
    requires Inv(s) && IsRun(s, events) && p in s.packages && DecidedStatus(s.packages[p].status)
    ensures s.decisions <= After(s, events).decisions
    ensures forall i :: |s.decisions| <= i < |After(s, events).decisions| ==>
              After(s, events).decisions[i].artifact != s.packages[p].artifact
    decreases |events|
  {
    if events != [] {
      var s1 := Next(s, events[0]);
      StepInv(s, events[0]);
      DecidedIsForever(s, [events[0]], p);
      DecisionsOnlyGrow(s, events[0]);
      assert After(s1, []) == s1;
      if s1.decisions != s.decisions {
        OnlyTheCurrentDraftIsDecided(s, events[0]);
        if s.packages[events[0].package].artifact == s.packages[p].artifact {
          OneArtifactEach(s, events[0].package, p);
        }
      }
      NoLaterDecision(s1, events[1..], p);
    }
  }

  /** The episode points nowhere, or at a package that is not among `was`. */
  ghost predicate PointsPast(s: Store, ep: EpisodeId, was: set<PackageId>) {
    was <= s.packages.Keys &&
    (ep in s.episodes && s.episodes[ep].pointer.Some? ==>
      exists p :: p !in was && p in s.packages && s.episodes[ep].pointer == Some(s.packages[p].artifact))
  }

  lemma PointsPastStep(s: Store, e: Event, ep: EpisodeId, was: set<PackageId>)
    requires Inv(s) && Enabled(s, e) && PointsPast(s, ep, was)
    ensures PointsPast(Next(s, e), ep, was)
  {
    var s' := Next(s, e);
    assert s.packages.Keys <= s'.packages.Keys;
    if ep in s'.episodes && s'.episodes[ep].pointer.Some? {
      if ep in s.episodes && s'.episodes[ep].pointer == s.episodes[ep].pointer {
        var p :| p !in was && p in s.packages && s.episodes[ep].pointer == Some(s.packages[p].artifact);
        assert p in s'.packages && s'.packages[p].artifact == s.packages[p].artifact;
      } else {
        assert e.package !in was && e.package in s'.packages;
      }
    }
  }

  lemma {:induction false} PointsPastRun(s: Store, events: seq<Event>, ep: EpisodeId, was: set<PackageId>)
    requires Inv(s) && IsRun(s, events) && PointsPast(s, ep, was)
    ensures Inv(After(s, events)) && PointsPast(After(s, events), ep, was)
    decreases |events|
  {
    if events != [] {
      StepInv(s, events[0]);
      PointsPastStep(s, events[0], ep, was);
      PointsPastRun(Next(s, events[0]), events[1..], ep, was);
    }
  }

  /** Over every later run, none of the retired packages is decided, and the episode is not
      shown as approved until a package that came afterwards has been approved. */
  lemma RetiredForGood(s0: Store, before: seq<Event>, ep: EpisodeId, later: seq<Event>)
    requires Fresh(s0) && IsRun(s0, before)
    requires IsRun(Next(After(s0, before), InvalidateEvent(ep)), later)
    ensures var s := After(s0, before);
            var s2 := After(Next(s, InvalidateEvent(ep)), later);
            && s.decisions <= s2.decisions
            && (forall p, i :: Open(s, ep, p) && |s.decisions| <= i < |s2.decisions| ==>
                  s2.decisions[i].artifact != s.packages[p].artifact)
            && (ep in s2.episodes && s2.episodes[ep].status == DeliveryApproved ==>
                  exists p :: p !in s.packages && Leads(s2, ep, p))
  {
    var s := After(s0, before);
    var s1 := Next(s, InvalidateEvent(ep));
    var s2 := After(s1, later);
    RunInv(s0, before);
    InvalidationRetires(s, ep);
    StepInv(s, InvalidateEvent(ep));
    DecisionsOnlyGrowOver(s1, later);
    forall p, i | Open(s, ep, p) && |s.decisions| <= i < |s2.decisions|
      ensures s2.decisions[i].artifact != s.packages[p].artifact
    {
      NoLaterDecision(s1, later, p);
    }
    PointsPastRun(s1, later, ep, s.packages.Keys);
    if ep in s2.episodes && s2.episodes[ep].status == DeliveryApproved {
      assert PointsWell(s2, ep);
      var q :| Leads(s2, ep, q);
      var p :| p !in s.packages && p in s2.packages && s2.episodes[ep].pointer == Some(s2.packages[p].artifact);
      OneArtifactEach(s2, p, q);
    }
  }

  lemma {:induction false} DecisionsOnlyGrowOver(s: Store, events: seq<Event>)
    requires IsRun(s, events)
    ensures s.decisions <= After(s, events).decisions
    decreases |events|
  {
    if events != [] {
      DecisionsOnlyGrow(s, events[0]);
      DecisionsOnlyGrowOver(Next(s, events[0]), events[1..]);
    }
  }

  // ----- What a decision changes -----

  predicate Replaces(s: Store, e: Event, q: PackageId)
    requires e.Review? && e.package in s.packages
  {
    e.decision != Reject && Open(s, s.packages[e.package].episode, q) && s.packages[q].status == Approved
    && q != e.package
  }

  function DecidedAs(decision: Decision): (PackageStatus, DeliveryStatus) {
    if decision == Reject then (Rejected, DeliveryRejected) else (Approved, DeliveryApproved)
  }

  /** A decision settles its package and is shown by its episode. */
  lemma DecisionSettles(s: Store, e: Event)
    requires Inv(s) && Enabled(s, e) && Next(s, e).decisions != s.decisions
    ensures e.Review?
    ensures var s', ep := Next(s, e), s.packages[e.package].episode;
            && s'.packages.Keys == s.packages.Keys && s'.artifacts.Keys == s.artifacts.Keys
            && s'.packages[e.package] == s.packages[e.package].(status := DecidedAs(e.decision).0)
            && s'.episodes == s.episodes[ep := Episode(Some(s.packages[e.package].artifact), DecidedAs(e.decision).1)]
  {
  }

  /** An approval supersedes what the episode had approved before; no other package changes,
      and no other package's artifact. */
  lemma DecisionReplaces(s: Store, e: Event, q: PackageId)
    requires Inv(s) && Enabled(s, e) && Next(s, e).decisions != s.decisions
    requires e.Review? && q in s.packages && q != e.package
    ensures q in Next(s, e).packages && s.packages[q].artifact in Next(s, e).artifacts
    ensures Replaces(s, e, q) ==> Next(s, e).packages[q] == s.packages[q].(status := Superseded)
    ensures !Replaces(s, e, q) ==>
              && Next(s, e).packages[q] == s.packages[q]
              && Next(s, e).artifacts[s.packages[q].artifact] == s.artifacts[s.packages[q].artifact]
  {
    ArtifactsApart(s, q, {e.package});
    if !Replaces(s, e, q) && e.decision != Reject {
      ArtifactsApart(s, q, ReplacedSet(s, e.package));
    }
  }

  lemma DraftPublished(s: Store, p: PackageId, ep: EpisodeId, content: string)
    requires Inv(s) && ValidId(p) && p !in s.packages && ep in s.episodes && ArtifactOf(p) !in s.artifacts
    ensures var s1 := Next(s, PublishEvent(p, ep, content, false, None));
            && Inv(s1) && CurrentDraft(s1, p) && s1.packages[p] == Package(ep, ArtifactOf(p), WaitingHuman)
            && s1.artifacts[ArtifactOf(p)] == Artifact(ep, p, content, Validated, T3)
            && s1.decisions == s.decisions && s1.receipts == s.receipts
  {
    StepInv(s, PublishEvent(p, ep, content, false, None));
  }

  lemma DraftClaimed(s: Store, p: PackageId, request: string, owner: L.Owner, now: real)
    requires Inv(s) && CurrentDraft(s, p) && p !in s.receipts
    ensures var s1 := Next(s, ClaimReview(p, request, owner, now));
            && Inv(s1) && CurrentDraft(s1, p) && s1 == s.(receipts := s1.receipts)
            && L.Holds(s1.receipts, p, request, owner) && s1.receipts[p].expires > now
  {
    StepInv(s, ClaimReview(p, request, owner, now));
  }

  lemma DraftReviewed(s: Store, p: PackageId, request: string, owner: L.Owner, now: real, decision: Decision)
    requires Inv(s) && CurrentDraft(s, p) && s.packages[p].status == WaitingHuman
    requires L.Holds(s.receipts, p, request, owner) && s.receipts[p].expires > now
    ensures var s1 := Next(s, Review(p, request, owner, now, decision, false));
            && p in s1.packages && s1.packages[p] == s.packages[p].(status := DecidedAs(decision).0)
            && s1.decisions == s.decisions + [GateDecision(s.packages[p].artifact, decision)]
            && s1.artifacts.Keys == s.artifacts.Keys
            && s1.artifacts[s.packages[p].artifact]
                 == s.artifacts[s.packages[p].artifact].(status := s1.artifacts[s.packages[p].artifact].status,
                                                         trust := s1.artifacts[s.packages[p].artifact].trust)
            && p in s1.receipts && s1.receipts[p].status == L.Succeeded
  {
    ArtifactsApart(s, p, ReplacedSet(s, p));
  }

  /** A draft that is published, claimed for review and reviewed in time is decided. */
  lemma PublishedDraftIsDecided(s: Store, p: PackageId, ep: EpisodeId, content: string, request: string,
                                owner: L.Owner, now: real, decision: Decision)
    requires Inv(s) && ValidId(p) && p !in s.packages && p !in s.receipts && ep in s.episodes
    requires ArtifactOf(p) !in s.artifacts
    ensures var publish, claim := PublishEvent(p, ep, content, false, None), ClaimReview(p, request, owner, now);
            var review := Review(p, request, owner, now, decision, false);
            && Enabled(s, publish) && Enabled(Next(s, publish), claim) && Enabled(Next(Next(s, publish), claim), review)
            && var s3 := Next(Next(Next(s, publish), claim), review);
               && p in s3.packages && s3.packages[p] == Package(ep, ArtifactOf(p), DecidedAs(decision).0)
               && s3.decisions == s.decisions + [GateDecision(ArtifactOf(p), decision)]
               && ArtifactOf(p) in s3.artifacts && s3.artifacts[ArtifactOf(p)].content == content
               && s3.artifacts[ArtifactOf(p)].package == p && s3.artifacts[ArtifactOf(p)].episode == ep
               && p in s3.receipts && s3.receipts[p].status == L.Succeeded
  {
    var publish, claim := PublishEvent(p, ep, content, false, None), ClaimReview(p, request, owner, now);
    DraftPublished(s, p, ep, content);
    DraftClaimed(Next(s, publish), p, request, owner, now);
    DraftReviewed(Next(Next(s, publish), claim), p, request, owner, now, decision);
  }

  /** So is the draft of an artifact that an older process left behind. */
  lemma OrphanIsRecovered(s: Store, p: PackageId, ep: EpisodeId)
    requires ValidId(p) && p !in s.packages && ep in s.episodes && ArtifactOf(p) in s.artifacts
    ensures var s1, a := Next(s, RecoverEvent(p, ep, false, None)), s.artifacts[ArtifactOf(p)];
            if a.status == Validated && a.episode == ep && a.package == p then CurrentDraft(s1, p) else s1 == s
  {
  }


  lemma {:induction false} ReceiptKept(s: Store, events: seq<Event>, p: PackageId)
    requires IsRun(s, events) && p in s.receipts && s.receipts[p].status == L.Succeeded
    ensures p in After(s, events).receipts && After(s, events).receipts[p] == s.receipts[p]
    decreases |events|
  {
    if events != [] {
      ReceiptKept(Next(s, events[0]), events[1..], p);
    }
  }

  /** After a decision, the same request gets that decision back for ever, and a request
      with another decision, reviewer or reason is turned away. */
  lemma DecisionIsReplayed(s: Store, e: Event, events: seq<Event>, request: string, owner: L.Owner, now: real)
    requires Inv(s) && Enabled(s, e) && Next(s, e).decisions != s.decisions
    requires IsRun(Next(s, e), events)
    ensures var r := s.receipts[e.package];
            L.ClaimOn(After(Next(s, e), events).receipts, e.package, r.episode, request, owner, now).1
              == if request == e.request then L.Stored("decided") else L.Refused(L.BoundToAnotherRequest)
  {
    ReceiptKept(Next(s, e), events, e.package);
  }
}
