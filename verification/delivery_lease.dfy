/** The delivery operation lease (app/delivery.py): one receipt row per package id, claimed
    by a fresh owner id, renewed, finished, and fenced when the process starts.

    Each SQL transaction is one step.  Owner ids are uuid4 values and appear as numbers
    that have never been issued before; `now` is the clock read at the start of a step. */
module DeliveryLease {
  import opened Wrappers

  type PackageId = string
  type Owner = nat

  datatype Status = Running | Succeeded | Failed
  datatype Phase = Claimed | Building | Ready | DirectoryPromoted | Promoted

  const LEASE_S := 14400.0

  /** A row of delivery_operation_receipts. A workspace path is named after its owner. */
  datatype Receipt = Receipt(
    episode: string,
    fingerprint: string,
    owner: Owner,
    expires: real,
    status: Status,
    result: string,
    workspace: Option<Owner>,
    phase: Phase,
    abandonedWorkspace: Option<Owner>,
    abandonedPhase: Option<Phase>,
    interruptedAt: Option<real>,
    fencedOwner: Option<Owner>)

  type Table = map<PackageId, Receipt>

  datatype ClaimError = BoundToAnotherRequest | StillRunning | CasConflict

  datatype Claim = Granted(owner: Owner) | Stored(result: string) | Refused(error: ClaimError)

  // ----- What one transaction does to one row -----

  /** Interruption by a restart, or a recorded failure, is what licenses a purge later. */
  predicate Evidence(was: Receipt) {
    was.interruptedAt.Some? || was.status == Failed
  }

  predicate MayTakeOver(was: Receipt, now: real) {
    was.status == Failed || (was.status == Running && was.expires <= now)
  }

  function TakenOver(was: Receipt, owner: Owner, now: real): Receipt {
    was.(owner := owner, expires := now + LEASE_S, status := Running,
         abandonedWorkspace := was.workspace, abandonedPhase := Some(was.phase),
         workspace := None, phase := Claimed,
         fencedOwner := if Evidence(was) then Some(owner) else None,
         interruptedAt := None)
  }

  function FirstClaim(episode: string, fingerprint: string, owner: Owner, now: real): Receipt {
    Receipt(episode, fingerprint, owner, now + LEASE_S, Running, "{}",
            None, Claimed, None, None, None, None)
  }

  predicate Holds(t: Table, p: PackageId, fingerprint: string, owner: Owner) {
    p in t && t[p].fingerprint == fingerprint && t[p].owner == owner && t[p].status == Running
  }

  function Fenced(r: Receipt, now: real): Receipt {
    if r.status == Running then r.(expires := 0.0, interruptedAt := Some(now)) else r
  }

  // ----- The table -----

  class ReceiptTable {
    var rows: Table

    constructor ()
      ensures rows == map[]
    {
      rows := map[];
    }

    /** claim_delivery_package_operation. The compare-and-set never conflicts, since the
        row cannot change inside the transaction that read it. */
    method Claim(p: PackageId, episode: string, fingerprint: string, owner: Owner, now: real)
      returns (c: Claim)
      modifies this
      ensures (rows, c) == ClaimOn(old(rows), p, episode, fingerprint, owner, now)
      ensures c != Refused(CasConflict)
    {
      if p in rows {
        var row := rows[p];
        if row.episode != episode || row.fingerprint != fingerprint {
          return Refused(BoundToAnotherRequest);
        }
        if row.status == Succeeded {
          return Stored(row.result);
        }
        if row.status == Running && row.expires > now {
          return Refused(StillRunning);
        }
        if row.fingerprint == fingerprint && (row.status != Running || row.expires <= now) {
          rows := rows[p := TakenOver(row, owner, now)];
        } else {
          return Refused(CasConflict);
        }
      } else {
        rows := rows[p := FirstClaim(episode, fingerprint, owner, now)];
      }
      return Granted(owner);
    }

    /** _assert_delivery_operation_owner: the only check that looks at the lease's expiry. */
    method AssertOwner(p: PackageId, fingerprint: string, owner: Owner, now: real) returns (ok: bool)
      ensures ok == (Holds(rows, p, fingerprint, owner) && rows[p].expires > now)
    {
      ok := p in rows && rows[p].fingerprint == fingerprint && rows[p].owner == owner
            && rows[p].status == Running && rows[p].expires > now;
    }

    method Renew(p: PackageId, fingerprint: string, owner: Owner, now: real) returns (ok: bool)
      modifies this
      ensures (rows, ok) == WriteOn(old(rows), p, fingerprint, owner, Renewal(now))
    {
      if !Holds(rows, p, fingerprint, owner) {
        return false;
      }
      rows := rows[p := rows[p].(expires := now + LEASE_S)];
      return true;
    }

    method Finish(p: PackageId, fingerprint: string, owner: Owner, result: string, succeeded: bool)
      returns (ok: bool)
      modifies this
      ensures (rows, ok) == WriteOn(old(rows), p, fingerprint, owner, Completion(result, succeeded))
    {
      if !Holds(rows, p, fingerprint, owner) {
        return false;
      }
      rows := rows[p := rows[p].(status := if succeeded then Succeeded else Failed,
                                 result := result, expires := 0.0)];
      return true;
    }

    /** The update inside _resolve_delivery_workspace_dir. */
    method BindWorkspace(p: PackageId, fingerprint: string, owner: Owner) returns (ok: bool)
      modifies this
      ensures (rows, ok) == WriteOn(old(rows), p, fingerprint, owner, Binding)
    {
      if !Holds(rows, p, fingerprint, owner) {
        return false;
      }
      if rows[p].workspace.None? {
        rows := rows[p := rows[p].(workspace := Some(owner), phase := Building)];
      } else {
        assert rows == rows[p := rows[p]];
      }
      return true;
    }

    method AdvancePhase(p: PackageId, fingerprint: string, owner: Owner, phase: Phase) returns (ok: bool)
      modifies this
      ensures (rows, ok) == WriteOn(old(rows), p, fingerprint, owner, Advance(phase))
    {
      if !Holds(rows, p, fingerprint, owner) {
        return false;
      }
      rows := rows[p := rows[p].(phase := phase)];
      return true;
    }

    /** The update init_db runs under the runtime recovery lock. */
    method FenceAtStartup(now: real)
      modifies this
      ensures rows == FencedTable(old(rows), now)
    {
      rows := map p | p in rows :: Fenced(rows[p], now);
    }
  }

  // ----- The same steps on values -----

  function ClaimOn(t: Table, p: PackageId, episode: string, fingerprint: string, owner: Owner, now: real)
    : (r: (Table, Claim))
  {
    if p !in t then (t[p := FirstClaim(episode, fingerprint, owner, now)], Granted(owner))
    else if t[p].episode != episode || t[p].fingerprint != fingerprint then (t, Refused(BoundToAnotherRequest))
    else if t[p].status == Succeeded then (t, Stored(t[p].result))
    else if !MayTakeOver(t[p], now) then (t, Refused(StillRunning))
    else (t[p := TakenOver(t[p], owner, now)], Granted(owner))
  }

  /** The owner's own writes; each is a compare-and-set on (fingerprint, owner, running). */
  datatype Write =
    | Renewal(now: real)
    | Completion(result: string, succeeded: bool)
    | Binding
    | Advance(phase: Phase)

  function Written(r: Receipt, w: Write): Receipt {
    match w
    case Renewal(now) => r.(expires := now + LEASE_S)
    case Completion(result, succeeded) =>
      r.(status := if succeeded then Succeeded else Failed, result := result, expires := 0.0)
    case Binding => if r.workspace.None? then r.(workspace := Some(r.owner), phase := Building) else r
    case Advance(phase) => r.(phase := phase)
  }

  function WriteOn(t: Table, p: PackageId, fingerprint: string, owner: Owner, w: Write): (r: (Table, bool)) {
    if Holds(t, p, fingerprint, owner) then (t[p := Written(t[p], w)], true) else (t, false)
  }

  function FencedTable(t: Table, now: real): Table {
    map p | p in t :: Fenced(t[p], now)
  }

  // ----- Runs -----

  datatype Event =
    | ClaimEvent(package: PackageId, episode: string, fingerprint: string, owner: Owner, now: real)
    | WriteEvent(package: PackageId, fingerprint: string, owner: Owner, write: Write)
    | Startup(now: real)

  /** `issued` are the owner ids drawn so far. */
  datatype World = World(rows: Table, issued: set<Owner>)

  predicate Enabled(w: World, e: Event) {
    e.ClaimEvent? ==> e.owner !in w.issued
  }

  function Next(w: World, e: Event): World {
    match e
    case ClaimEvent(p, ep, fp, o, now) => World(ClaimOn(w.rows, p, ep, fp, o, now).0, w.issued + {o})
    case WriteEvent(p, fp, o, wr) => w.(rows := WriteOn(w.rows, p, fp, o, wr).0)
    case Startup(now) => w.(rows := FencedTable(w.rows, now))
  }

  ghost predicate IsRun(w: World, events: seq<Event>)
    decreases |events|
  {
    events == [] || (Enabled(w, events[0]) && IsRun(Next(w, events[0]), events[1..]))
  }

  ghost function After(w: World, events: seq<Event>): World
    decreases |events|
  {
    if events == [] then w else After(Next(w, events[0]), events[1..])
  }

  ghost predicate Inv(w: World) {
    forall p :: p in w.rows ==> w.rows[p].owner in w.issued
  }

  /** Owner `o` can still write on `p`, whatever fingerprint it quotes. */
  predicate Current(w: World, p: PackageId, o: Owner) {
    p in w.rows && w.rows[p].owner == o && w.rows[p].status == Running
  }

  lemma {:induction false} StaysStale(w: World, events: seq<Event>, p: PackageId, o: Owner)
    requires Inv(w) && IsRun(w, events) && o in w.issued && !Current(w, p, o)
    ensures Inv(After(w, events)) && o in After(w, events).issued && !Current(After(w, events), p, o)
    decreases |events|
  {
    if events != [] {
      StaysStale(Next(w, events[0]), events[1..], p, o);
    }
  }

  // ----- Main results -----

  /** Fencing: once a claim on `p` is granted, no write on `p` by any owner id issued
      before it succeeds, at any later point of any run. */
  lemma OldOwnersNeverWrite(w: World, claim: Event, events: seq<Event>, late: Event)
    requires Inv(w) && claim.ClaimEvent? && Enabled(w, claim)
    requires ClaimOn(w.rows, claim.package, claim.episode, claim.fingerprint, claim.owner, claim.now).1.Granted?
    requires IsRun(Next(w, claim), events)
    requires late.WriteEvent? && late.package == claim.package && late.owner in w.issued
    ensures Next(After(Next(w, claim), events), late) == After(Next(w, claim), events)
  {
    StaysStale(Next(w, claim), events, claim.package, late.owner);
  }

  /** A package id stays bound to the request that first claimed it. */
  lemma {:induction false} BindingIsPermanent(w: World, events: seq<Event>, p: PackageId)
    requires p in w.rows && IsRun(w, events)
    ensures var w' := After(w, events);
            p in w'.rows && w'.rows[p].fingerprint == w.rows[p].fingerprint && w'.rows[p].episode == w.rows[p].episode
    decreases |events|
  {
    if events != [] {
      BindingIsPermanent(Next(w, events[0]), events[1..], p);
    }
  }

  lemma {:induction false} SucceededIsKept(w: World, events: seq<Event>, p: PackageId)
    requires p in w.rows && w.rows[p].status == Succeeded && IsRun(w, events)
    ensures var w' := After(w, events); p in w'.rows && w'.rows[p] == w.rows[p]
    decreases |events|
  {
    if events != [] {
      SucceededIsKept(Next(w, events[0]), events[1..], p);
    }
  }

  /** Once an operation has succeeded, every later claim of the same request returns its
      result, every claim of another request is refused, and the row never changes. */
  lemma SucceededIsAbsorbing(w: World, events: seq<Event>, p: PackageId, ep: string, fp: string, o: Owner, now: real)
    requires p in w.rows && w.rows[p].status == Succeeded && IsRun(w, events)
    ensures var t := After(w, events).rows;
            && p in t && t[p] == w.rows[p]
            && ClaimOn(t, p, ep, fp, o, now) ==
                 (t, if ep == w.rows[p].episode && fp == w.rows[p].fingerprint
                     then Stored(w.rows[p].result) else Refused(BoundToAnotherRequest))
  {
    SucceededIsKept(w, events, p);
  }

  /** How a claim is answered, in full: a package nobody claimed goes to the claimant; another
      request than the one it is bound to is refused; a succeeded one gives its result; a failed
      one, or one whose lease has run out, goes to the claimant; a running one is refused.  Only
      a granted claim changes anything, and only its own row. */
  lemma ClaimAnswered(t: Table, p: PackageId, ep: string, fp: string, o: Owner, now: real)
    ensures var (t', c) := ClaimOn(t, p, ep, fp, o, now);
            var bound := p in t && (t[p].episode != ep || t[p].fingerprint != fp);
            && (c == Granted(o) <==>
                  p !in t || (!bound && (t[p].status == Failed || (t[p].status == Running && t[p].expires <= now))))
            && (c == Refused(BoundToAnotherRequest) <==> bound)
            && (c == Refused(StillRunning) <==> p in t && !bound && t[p].status == Running && t[p].expires > now)
            && (p in t && !bound && t[p].status == Succeeded ==> c == Stored(t[p].result))
            && (c != Granted(o) ==> t' == t) && t'.Keys == t.Keys + (if c == Granted(o) then {p} else {})
            && (forall q :: q in t && q != p ==> t'[q] == t[q])
  {
  }

  /** What a granted claim leaves: a lease of four hours for a build that starts from scratch,
      and, of the row it replaces, how far that had got and whether it was seen to end. */
  lemma GrantedLease(t: Table, p: PackageId, ep: string, fp: string, o: Owner, now: real)
    requires ClaimOn(t, p, ep, fp, o, now).1 == Granted(o)
    ensures var t' := ClaimOn(t, p, ep, fp, o, now).0;
            && p in t' && Holds(t', p, fp, o) && t'[p].episode == ep && t'[p].expires == now + 14400.0
            && t'[p].workspace.None? && t'[p].phase == Claimed && t'[p].interruptedAt.None?
            && (p in t ==> t'[p].abandonedWorkspace == t[p].workspace && t'[p].abandonedPhase == Some(t[p].phase))
            && (p !in t ==> t'[p].abandonedWorkspace.None? && t'[p].abandonedPhase.None?)
            && (t'[p].fencedOwner == Some(o) <==> p in t && (t[p].status == Failed || t[p].interruptedAt.Some?))
            && (t'[p].fencedOwner == None <==> !(p in t && (t[p].status == Failed || t[p].interruptedAt.Some?)))
            && (t'[p].result == if p in t then t[p].result else "{}")
  {
  }

  /** Who may write, and what a write touches: the owner of the running row, that row, and the
      fields the write is about. */
  lemma WriteExact(t: Table, p: PackageId, fp: string, o: Owner, w: Write)
    ensures var (t', ok) := WriteOn(t, p, fp, o, w);
            && (ok <==> p in t && t[p].fingerprint == fp && t[p].owner == o && t[p].status == Running)
            && (!ok ==> t' == t) && t'.Keys == t.Keys && (forall q :: q in t && q != p ==> t'[q] == t[q])
            && (ok ==>
                  && t'[p] == t[p].(expires := t'[p].expires, status := t'[p].status, result := t'[p].result,
                                    workspace := t'[p].workspace, phase := t'[p].phase)
                  && (t'[p].expires == if w.Renewal? then w.now + 14400.0
                                       else if w.Completion? then 0.0 else t[p].expires)
                  && (t'[p].status == if !w.Completion? then Running else if w.succeeded then Succeeded else Failed)
                  && (t'[p].result == if w.Completion? then w.result else t[p].result)
                  && (t'[p].workspace == if w.Binding? && t[p].workspace.None? then Some(o) else t[p].workspace)
                  && (t'[p].phase == if w.Advance? then w.phase
                                     else if w.Binding? && t[p].workspace.None? then Building else t[p].phase))
  {
  }

  /** A recorded success answers every later claim: the same request gets its result at any
      time, over any run. */
  lemma SuccessIsStored(w: World, p: PackageId, fp: string, o: Owner, result: string, events: seq<Event>,
                        ep: string, other: Owner, now: real)
    requires Holds(w.rows, p, fp, o) && w.rows[p].episode == ep
    requires IsRun(Next(w, WriteEvent(p, fp, o, Completion(result, true))), events)
    ensures var t := After(Next(w, WriteEvent(p, fp, o, Completion(result, true))), events).rows;
            ClaimOn(t, p, ep, fp, other, now) == (t, Stored(result))
  {
    var w1 := Next(w, WriteEvent(p, fp, o, Completion(result, true)));
    WriteExact(w.rows, p, fp, o, Completion(result, true));
    SucceededIsAbsorbing(w1, events, p, ep, fp, other, now);
  }

  /** Ways for the same request to get its lease back: a recorded failure, a restart, or the end
      of the lease, counted from the last renewal; before that it is refused. */
  lemma LeaseComesBack(w: World, p: PackageId, fp: string, o: Owner, ep: string, other: Owner, now: real, at: real)
    requires Holds(w.rows, p, fp, o) && w.rows[p].episode == ep && now >= 0.0
    ensures ClaimOn(Next(w, WriteEvent(p, fp, o, Completion("", false))).rows, p, ep, fp, other, now).1
              == Granted(other)
    ensures ClaimOn(Next(w, Startup(at)).rows, p, ep, fp, other, now).1 == Granted(other)
    ensures ClaimOn(Next(w, WriteEvent(p, fp, o, Renewal(at))).rows, p, ep, fp, other, now).1
              == if now >= at + 14400.0 then Granted(other) else Refused(StillRunning)
  {
  }

  /** A restart touches running rows only, and of these the lease and the mark. */
  lemma RestartExact(w: World, now: real, p: PackageId)
    requires p in w.rows
    ensures var r, r' := w.rows[p], Next(w, Startup(now)).rows[p];
            r' == if r.status == Running then r.(expires := 0.0, interruptedAt := Some(now)) else r
  {
  }

  predicate Disturbs(e: Event, p: PackageId, owner: Owner, until: real) {
    match e
    case ClaimEvent(_, _, _, _, now) => now >= until
    case WriteEvent(q, _, o, _) => q == p && o == owner
    case Startup(_) => true
  }

  /** The lease is exclusive while it lasts: until its owner writes, the process restarts,
      or the clock reaches its expiry, nobody changes the row. */
  lemma {:induction false} LeaseIsExclusive(w: World, events: seq<Event>, p: PackageId)
    requires p in w.rows && w.rows[p].status == Running && IsRun(w, events)
    requires forall i :: 0 <= i < |events| ==> !Disturbs(events[i], p, w.rows[p].owner, w.rows[p].expires)
    ensures p in After(w, events).rows && After(w, events).rows[p] == w.rows[p]
    decreases |events|
  {
    if events != [] {
      assert !Disturbs(events[0], p, w.rows[p].owner, w.rows[p].expires);
      var w1 := Next(w, events[0]);
      assert w1.rows[p] == w.rows[p];
      LeaseIsExclusive(w1, events[1..], p);
    }
  }

  predicate GrantedClaim(w: World, e: Event, p: PackageId) {
    e.ClaimEvent? && e.package == p
    && ClaimOn(w.rows, p, e.episode, e.fingerprint, e.owner, e.now).1.Granted?
  }

  /** The interruption mark is set by a restart that finds the row running, cleared by a
      granted claim, and changed by nothing else. */
  lemma InterruptionExact(w: World, e: Event, p: PackageId)
    requires p in w.rows
    ensures p in Next(w, e).rows
    ensures Next(w, e).rows[p].interruptedAt ==
              if GrantedClaim(w, e, p) then None
              else if e.Startup? && w.rows[p].status == Running then Some(e.now)
              else w.rows[p].interruptedAt
  {
  }

  ghost predicate NeverGranted(w: World, events: seq<Event>, p: PackageId)
    decreases |events|
  {
    events == [] || (!GrantedClaim(w, events[0], p) && NeverGranted(Next(w, events[0]), events[1..], p))
  }

  /** So a mark lasts over every run in which no claim on the package is granted, however many
      are refused. */
  lemma {:induction false} InterruptionLastsUntilClaimed(w: World, events: seq<Event>, p: PackageId)
    requires p in w.rows && w.rows[p].interruptedAt.Some? && IsRun(w, events) && NeverGranted(w, events, p)
    ensures p in After(w, events).rows && After(w, events).rows[p].interruptedAt.Some?
    decreases |events|
  {
    if events != [] {
      InterruptionExact(w, events[0], p);
      InterruptionLastsUntilClaimed(Next(w, events[0]), events[1..], p);
    }
  }
}
