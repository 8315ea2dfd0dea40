/** The priority gate of app/generation_concurrency.py: a resizable semaphore whose
    waiters sit in a heap, are cancelled lazily, and receive a slot by hand-off.

    The gate is first given as pure transitions on a `Gate` value.  `PriorityGate`
    is the object itself, each method of which performs its transition in place.
    `System` adds the callers, so that statements can range over every interleaving. */
module ConcurrencyGate {

  type Caller = nat

  datatype FutureState = Pending | Granted | Cancelled

  /** A heap entry: Python compares the tuples (priority, sequence, future), and
      sequence numbers are never reused, so the future never takes part. */
  datatype Waiter = Waiter(priority: int, sequence: nat, future: Caller)

  datatype Gate = Gate(limit: int, active: int, sequence: nat, waiters: seq<Waiter>,
                       futures: map<Caller, FutureState>)

  predicate Before(a: Waiter, b: Waiter) {
    a.priority < b.priority || (a.priority == b.priority && a.sequence < b.sequence)
  }

  predicate Live(g: Gate, w: Waiter) {
    w.future in g.futures && g.futures[w.future] == Pending
  }

  /** What the heap promises of its next entry. */
  function LeastIndex(ws: seq<Waiter>): (k: nat)
    requires ws != []
    ensures k < |ws|
    ensures forall j :: 0 <= j < |ws| ==> !Before(ws[j], ws[k])
  {
    if |ws| == 1 then 0 else
      var k := LeastIndex(ws[..|ws| - 1]);
      assert forall j :: 0 <= j < |ws| - 1 ==> ws[..|ws| - 1][j] == ws[j];
      if Before(ws[|ws| - 1], ws[k]) then |ws| - 1 else k
  }

  function Without(ws: seq<Waiter>, k: nat): (rest: seq<Waiter>)
    requires k < |ws|
    ensures |rest| == |ws| - 1
    ensures forall i :: 0 <= i < |rest| ==> rest[i] == ws[if i < k then i else i + 1]
  {
    ws[..k] + ws[k + 1..]
  }

  // ----- Transitions of the gate -----

  function Popped(g: Gate): (r: (Waiter, Gate))
    requires g.waiters != []
  {
    var k := LeastIndex(g.waiters);
    (g.waiters[k], g.(waiters := Without(g.waiters, k)))
  }

  function SetResult(g: Gate, future: Caller): Gate {
    g.(futures := g.futures[future := Granted])
  }

  predicate IsCancelled(g: Gate, future: Caller) {
    future in g.futures && g.futures[future] == Cancelled
  }

  /** The loop of `release`: hand the slot to the next waiter that is not cancelled,
      or give it back when there is none. */
  function HandOff(g: Gate): Gate
    decreases |g.waiters|
  {
    if g.waiters == [] then
      g.(active := if g.active - 1 > 0 then g.active - 1 else 0)
    else
      var (w, rest) := Popped(g);
      if IsCancelled(g, w.future) then HandOff(rest) else SetResult(rest, w.future)
  }

  function Released(g: Gate): Gate {
    if g.active > g.limit then g.(active := g.active - 1) else HandOff(g)
  }

  /** The loop of `resize`: wake waiters while slots are free. */
  function Refilled(g: Gate): Gate
    decreases |g.waiters|
  {
    if g.active < g.limit && g.waiters != [] then
      var (w, rest) := Popped(g);
      if IsCancelled(g, w.future) then Refilled(rest)
      else Refilled(SetResult(rest.(active := g.active + 1), w.future))
    else g
  }

  function Resized(g: Gate, limit: int): Gate {
    var newLimit := if limit > 1 then limit else 1;
    var g' := g.(limit := newLimit);
    if newLimit <= g.limit then g' else Refilled(g')
  }

  predicate EntersAtOnce(g: Gate) {
    g.active < g.limit && g.waiters == []
  }

  function Enqueued(g: Gate, priority: int, future: Caller): Gate {
    g.(sequence := g.sequence + 1,
       waiters := g.waiters + [Waiter(priority, g.sequence + 1, future)],
       futures := g.futures[future := Pending])
  }

  // ----- The object -----

  class PriorityGate {
    var limit: int
    var active: int
    var sequence: nat
    var waiters: seq<Waiter>
    var futures: map<Caller, FutureState>

    function State(): Gate reads this {
      Gate(limit, active, sequence, waiters, futures)
    }

    constructor (limit: int)
      ensures State() == Gate(limit, 0, 0, [], map[])
    {
      this.limit, active, sequence := limit, 0, 0;
      waiters, futures := [], map[];
    }

    method HeapPop() returns (w: Waiter)
      requires waiters != []
      modifies this`waiters
      ensures (w, State()) == Popped(old(State()))
    {
      var k := LeastIndex(waiters);
      w := waiters[k];
      waiters := Without(waiters, k);
    }

    /** `acquire` up to its `await`: either the slot is taken, or `future` is queued. */
    method Acquire(priority: int, future: Caller) returns (entered: bool)
      modifies this
      ensures entered == EntersAtOnce(old(State()))
      ensures State() == if entered then old(State()).(active := old(active) + 1)
                         else Enqueued(old(State()), priority, future)
    {
      if active < limit && waiters == [] {
        active := active + 1;
        return true;
      }
      futures := futures[future := Pending];
      sequence := sequence + 1;
      waiters := waiters + [Waiter(priority, sequence, future)];
      return false;
    }

    /** The exception handler around the `await`. */
    method Abandon(future: Caller)
      requires future in futures
      modifies this
      ensures State() == Abandoned(old(State()), future)
    {
      if futures[future] == Granted {
        Release();
      } else {
        futures := futures[future := Cancelled];
      }
    }

    method Release()
      modifies this
      ensures State() == Released(old(State()))
    {
      if active > limit {
        active := active - 1;
        return;
      }
      ghost var goal := HandOff(State());
      while waiters != []
        invariant HandOff(State()) == goal
        decreases |waiters|
      {
        var w := HeapPop();
        if IsCancelled(State(), w.future) {
          continue;
        }
        futures := futures[w.future := Granted];
        return;
      }
      active := if active - 1 > 0 then active - 1 else 0;
    }

    method Resize(newLimit: int)
      modifies this
      ensures State() == Resized(old(State()), newLimit)
    {
      var target := if newLimit > 1 then newLimit else 1;
      var previous := limit;
      limit := target;
      if target <= previous {
        return;
      }
      ghost var goal := Refilled(State());
      while active < limit && waiters != []
        invariant Refilled(State()) == goal
        decreases |waiters|
      {
        ghost var turned := RefillTurn(State());
        var w := HeapPop();
        if IsCancelled(State(), w.future) {
          assert State() == turned;
          continue;
        }
        active := active + 1;
        futures := futures[w.future := Granted];
        assert State() == turned;
      }
    }
  }

  function Abandoned(g: Gate, future: Caller): Gate
    requires future in g.futures
  {
    if g.futures[future] == Granted then Released(g)
    else g.(futures := g.futures[future := Cancelled])
  }

  // ----- Gate and callers -----

  datatype Phase = Waiting | Holding | Done

  datatype System = System(gate: Gate, calls: map<Caller, Phase>)

  datatype Event =
    | Acquire(caller: Caller, priority: int)
    | Cancel(caller: Caller)      // task.cancel() reaches a future that is still pending
    | Resume(caller: Caller)      // the await returns normally
    | Abandon(caller: Caller)     // the await raises
    | Release(caller: Caller)
    | Resize(limit: int)

  /** Events that the event loop can deliver in a given state. */
  predicate Enabled(s: System, e: Event) {
    match e
    case Acquire(c, _) => c !in s.calls
    case Cancel(c) => c in s.calls && s.calls[c] == Waiting && c in s.gate.futures && s.gate.futures[c] == Pending
    case Resume(c) => c in s.calls && s.calls[c] == Waiting && c in s.gate.futures && s.gate.futures[c] == Granted
    case Abandon(c) => c in s.calls && s.calls[c] == Waiting && c in s.gate.futures
    case Release(c) => c in s.calls && s.calls[c] == Holding
    case Resize(_) => true
  }

  function Next(s: System, e: Event): System
    requires Enabled(s, e)
  {
    match e
    case Acquire(c, p) =>
      if EntersAtOnce(s.gate)
      then System(s.gate.(active := s.gate.active + 1), s.calls[c := Holding])
      else System(Enqueued(s.gate, p, c), s.calls[c := Waiting])
    case Cancel(c) => s.(gate := s.gate.(futures := s.gate.futures[c := Cancelled]))
    case Resume(c) => s.(calls := s.calls[c := Holding])
    case Abandon(c) => System(Abandoned(s.gate, c), s.calls[c := Done])
    case Release(c) => System(Released(s.gate), s.calls[c := Done])
    case Resize(n) => s.(gate := Resized(s.gate, n))
  }

  ghost predicate IsRun(s: System, events: seq<Event>)
    decreases |events|
  {
    events == [] || (Enabled(s, events[0]) && IsRun(Next(s, events[0]), events[1..]))
  }

  ghost function After(s: System, events: seq<Event>): System
    requires IsRun(s, events)
    decreases |events|
  {
    if events == [] then s else After(Next(s, events[0]), events[1..])
  }

  function Start(limit: int): System {
    System(Gate(limit, 0, 0, [], map[]), map[])
  }

  /** Callers that occupy a slot: those inside, and those woken but not yet resumed. */
  ghost function Occupants(s: System): set<Caller> {
    set c | c in s.calls &&
            (s.calls[c] == Holding ||
             (s.calls[c] == Waiting && c in s.gate.futures && s.gate.futures[c] == Granted))
  }

  ghost predicate QueueOk(g: Gate) {
    && (forall i, j :: 0 <= i < j < |g.waiters| ==>
          g.waiters[i].sequence != g.waiters[j].sequence && g.waiters[i].future != g.waiters[j].future)
    && (forall w :: w in g.waiters ==>
          w.sequence <= g.sequence && w.future in g.futures && g.futures[w.future] != Granted)
  }

  ghost predicate CallsOk(s: System) {
    && (forall c :: c in s.gate.futures ==> c in s.calls)
    && (forall c :: c in s.gate.futures && s.gate.futures[c] == Pending ==>
          s.calls[c] == Waiting && exists w :: w in s.gate.waiters && w.future == c)
    && (forall c :: c in s.calls && s.calls[c] == Waiting ==> c in s.gate.futures)
  }

  /** The gate's safety property, and the one that rules out lost wake-ups. */
  ghost predicate Balanced(s: System) {
    && s.gate.limit >= 1
    && s.gate.active == |Occupants(s)|
    && (s.gate.waiters != [] ==> s.gate.active >= s.gate.limit)
  }

  ghost predicate Inv(s: System) {
    QueueOk(s.gate) && CallsOk(s) && Balanced(s)
  }

  // ----- Popping and handing off -----

  lemma WithoutKeeps(ws: seq<Waiter>, k: nat, w: Waiter)
    requires k < |ws| && w in ws && w != ws[k]
    ensures w in Without(ws, k)
  {
    var i :| 0 <= i < |ws| && ws[i] == w;
    assert Without(ws, k)[if i < k then i else i - 1] == w;
  }

  /** The popped entry precedes every entry that stays. */
  lemma PoppedIsLeast(g: Gate, v: Waiter)
    requires QueueOk(g) && g.waiters != [] && v in Popped(g).1.waiters
    ensures v in g.waiters && v.future != Popped(g).0.future && Before(Popped(g).0, v)
  {
    var k := LeastIndex(g.waiters);
    var i :| 0 <= i < |Popped(g).1.waiters| && Popped(g).1.waiters[i] == v;
    var j := if i < k then i else i + 1;
    assert g.waiters[j] == v;
  }

  lemma PoppedOk(g: Gate)
    requires QueueOk(g) && g.waiters != []
    ensures var (w, rest) := Popped(g);
            && QueueOk(rest)
            && w in g.waiters
            && (forall v :: v in rest.waiters ==> v in g.waiters && v.future != w.future && Before(w, v))
            && (forall v :: v in g.waiters ==> v == w || v in rest.waiters)
  {
    var (w, rest) := Popped(g);
    forall v | v in rest.waiters ensures v in g.waiters && v.future != w.future && Before(w, v) {
      PoppedIsLeast(g, v);
    }
    forall v | v in g.waiters && v != w ensures v in rest.waiters {
      WithoutKeeps(g.waiters, LeastIndex(g.waiters), v);
    }
  }

  /** `g'` is `g` with the live waiter `w` woken: every live waiter left behind comes
      after it, and nothing but cancelled entries was dropped besides. */
  ghost predicate WakesLeast(g: Gate, g': Gate, w: Waiter) {
    && w in g.waiters && Live(g, w)
    && g'.futures == g.futures[w.future := Granted]
    && (forall v :: v in g'.waiters ==> v in g.waiters && v.future != w.future)
    && (forall v :: v in g.waiters && v != w && Live(g, v) ==> v in g'.waiters && Before(w, v))
  }

  ghost predicate NoLiveWaiter(g: Gate) {
    forall v :: v in g.waiters ==> !Live(g, v)
  }

  /** Dropping a cancelled entry changes neither outcome. */
  lemma SkipCancelled(g: Gate, g': Gate, u: Waiter)
    requires QueueOk(g) && g.waiters != [] && IsCancelled(g, Popped(g).0.future)
    requires WakesLeast(Popped(g).1, g', u)
    ensures WakesLeast(g, g', u)
  {
    PoppedOk(g);
  }

  ghost predicate HandOffOutcome(g: Gate, g': Gate) {
    && QueueOk(g') && g'.limit == g.limit && g'.sequence == g.sequence
    && (|| (exists w :: WakesLeast(g, g', w) && g'.active == g.active)
        || (NoLiveWaiter(g) && g'.waiters == [] && g'.futures == g.futures && g'.active == g.active - 1))
  }

  /** What a hand-off does: it wakes the least live waiter and leaves `active` alone,
      or, if every entry is cancelled, empties the queue and frees the slot. */
  lemma {:induction false} HandOffSpec(g: Gate)
    requires QueueOk(g) && g.active >= 1
    ensures HandOffOutcome(g, HandOff(g))
    decreases |g.waiters|
  {
    if g.waiters != [] {
      PoppedOk(g);
      var (w, rest) := Popped(g);
      if IsCancelled(g, w.future) {
        HandOffSpec(rest);
        var g' := HandOff(rest);
        if u :| WakesLeast(rest, g', u) && g'.active == rest.active {
          SkipCancelled(g, g', u);
        }
      } else {
        WokenOk(g);
      }
    }
  }

  lemma WokenOk(g: Gate)
    requires QueueOk(g) && g.waiters != [] && !IsCancelled(g, Popped(g).0.future)
    ensures var (w, rest) := Popped(g);
            var g' := SetResult(rest, w.future);
            QueueOk(g') && WakesLeast(g, g', w)
  {
    PoppedOk(g);
  }

  // ----- Every step keeps the invariant -----

  ghost predicate Sound(s: System) {
    QueueOk(s.gate) && CallsOk(s) && s.gate.limit >= 1 && s.gate.active == |Occupants(s)|
  }

  /** Callers other than `c` occupy a slot in `s'` exactly when they did in `s`, but for `d`. */
  lemma SwapOccupant(s: System, s': System, c: Caller, d: Caller)
    requires c in Occupants(s) && d !in Occupants(s)
    requires Occupants(s') == Occupants(s) - {c} + {d}
    ensures |Occupants(s')| == |Occupants(s)|
  {
  }

  lemma WokenIsWaiting(s: System, g': Gate, w: Waiter)
    requires CallsOk(s) && WakesLeast(s.gate, g', w)
    ensures w.future in s.calls && s.calls[w.future] == Waiting && w.future !in Occupants(s)
  {
  }

  lemma WokenKeepsCalls(s: System, g': Gate, w: Waiter, calls': map<Caller, Phase>)
    requires QueueOk(s.gate) && CallsOk(s) && WakesLeast(s.gate, g', w)
    requires calls' == s.calls || exists c :: c in Occupants(s) && calls' == s.calls[c := Done]
    ensures CallsOk(System(g', calls'))
  {
    WokenIsWaiting(s, g', w);
    forall c | c in g'.futures && g'.futures[c] == Pending
      ensures c in calls' && calls'[c] == Waiting && exists v :: v in g'.waiters && v.future == c
    {
      var v :| v in s.gate.waiters && v.future == c;
      assert Live(s.gate, v);
    }
  }

  lemma WokenInv(s: System, c: Caller, g': Gate, w: Waiter)
    requires Sound(s) && c in Occupants(s) && QueueOk(g') && g'.limit == s.gate.limit
    requires WakesLeast(s.gate, g', w) && g'.active == s.gate.active
    ensures Sound(System(g', s.calls[c := Done]))
  {
    var s' := System(g', s.calls[c := Done]);
    WokenIsWaiting(s, g', w);
    WokenKeepsCalls(s, g', w, s.calls[c := Done]);
    assert Occupants(s') == Occupants(s) - {c} + {w.future};
    SwapOccupant(s, s', c, w.future);
  }

  lemma FreedInv(s: System, c: Caller, g': Gate)
    requires Sound(s) && c in Occupants(s) && QueueOk(g') && g'.limit == s.gate.limit
    requires NoLiveWaiter(s.gate) && g'.waiters == [] && g'.futures == s.gate.futures
    requires g'.active == s.gate.active - 1
    ensures Sound(System(g', s.calls[c := Done]))
  {
    assert forall d :: d in s.gate.futures ==> s.gate.futures[d] != Pending;
    assert Occupants(System(g', s.calls[c := Done])) == Occupants(s) - {c};
  }

  lemma HandOffInv(s: System, c: Caller)
    requires Sound(s) && c in Occupants(s)
    requires s.gate.waiters != [] ==> s.gate.active == s.gate.limit
    ensures Inv(System(HandOff(s.gate), s.calls[c := Done]))
  {
    var g' := HandOff(s.gate);
    OccupantsPositive(s, c);
    HandOffSpec(s.gate);
    if w :| WakesLeast(s.gate, g', w) && g'.active == s.gate.active {
      WokenInv(s, c, g', w);
    } else {
      FreedInv(s, c, g');
    }
  }

  lemma OccupantsPositive(s: System, c: Caller)
    requires c in Occupants(s)
    ensures |Occupants(s)| >= 1
  {
    assert Occupants(s) == (Occupants(s) - {c}) + {c};
  }

  lemma ReleaseInv(s: System, c: Caller)
    requires Inv(s) && c in Occupants(s)
    ensures Inv(System(Released(s.gate), s.calls[c := Done]))
  {
    if s.gate.active > s.gate.limit {
      var s' := System(Released(s.gate), s.calls[c := Done]);
      assert Occupants(s') == Occupants(s) - {c};
    } else {
      HandOffInv(s, c);
    }
  }

  lemma {:induction false} RefillInv(s: System)
    requires Sound(s)
    ensures Inv(s.(gate := Refilled(s.gate)))
    decreases |s.gate.waiters|
  {
    if s.gate.active < s.gate.limit && s.gate.waiters != [] {
      PoppedOk(s.gate);
      var (w, rest) := Popped(s.gate);
      if IsCancelled(s.gate, w.future) {
        DropInv(s);
        RefillInv(s.(gate := rest));
      } else {
        WakeInv(s);
        RefillInv(s.(gate := SetResult(rest.(active := s.gate.active + 1), w.future)));
      }
    }
  }

  lemma DropInv(s: System)
    requires Sound(s) && s.gate.waiters != [] && IsCancelled(s.gate, Popped(s.gate).0.future)
    ensures Sound(s.(gate := Popped(s.gate).1))
  {
    PoppedOk(s.gate);
    var s' := s.(gate := Popped(s.gate).1);
    assert Occupants(s') == Occupants(s);
  }

  lemma WakeInv(s: System)
    requires Sound(s) && s.gate.waiters != [] && !IsCancelled(s.gate, Popped(s.gate).0.future)
    ensures var (w, rest) := Popped(s.gate);
            Sound(s.(gate := SetResult(rest.(active := s.gate.active + 1), w.future)))
  {
    var (w, rest) := Popped(s.gate);
    var g' := SetResult(rest, w.future);
    WokenOk(s.gate);
    WokenIsWaiting(s, g', w);
    WokenKeepsCalls(s, g', w, s.calls);
    var s' := s.(gate := g'.(active := s.gate.active + 1));
    assert g'.(active := s.gate.active + 1) == SetResult(rest.(active := s.gate.active + 1), w.future);
    assert Occupants(s') == Occupants(s) + {w.future};
  }

  lemma ResizeInv(s: System, limit: int)
    requires Inv(s)
    ensures Inv(s.(gate := Resized(s.gate, limit)))
  {
    var newLimit := if limit > 1 then limit else 1;
    var s' := s.(gate := s.gate.(limit := newLimit));
    assert Occupants(s') == Occupants(s);
    if newLimit > s.gate.limit {
      RefillInv(s');
    }
  }

  lemma EnqueueInv(s: System, c: Caller, priority: int)
    requires Inv(s) && c !in s.calls && !EntersAtOnce(s.gate)
    ensures Inv(System(Enqueued(s.gate, priority, c), s.calls[c := Waiting]))
  {
    var s' := System(Enqueued(s.gate, priority, c), s.calls[c := Waiting]);
    assert Occupants(s') == Occupants(s);
    assert s'.gate.waiters[|s.gate.waiters|].future == c;
    forall d | d in s'.gate.futures && s'.gate.futures[d] == Pending
      ensures exists w :: w in s'.gate.waiters && w.future == d
    {
      if d != c {
        var w :| w in s.gate.waiters && w.future == d;
        assert w in s'.gate.waiters;
      }
    }
  }

  lemma StepInv(s: System, e: Event)
    requires Inv(s) && Enabled(s, e)
    ensures Inv(Next(s, e))
  {
    match e
    case Acquire(c, p) =>
      if EntersAtOnce(s.gate) {
        assert Occupants(Next(s, e)) == Occupants(s) + {c};
      } else {
        EnqueueInv(s, c, p);
      }
    case Cancel(c) =>
      assert Occupants(Next(s, e)) == Occupants(s);
    case Resume(c) =>
      assert Occupants(Next(s, e)) == Occupants(s);
    case Abandon(c) =>
      if s.gate.futures[c] == Granted {
        ReleaseInv(s, c);
      } else {
        assert Occupants(Next(s, e)) == Occupants(s);
      }
    case Release(c) => ReleaseInv(s, c);
    case Resize(n) => ResizeInv(s, n);
  }

  lemma {:induction false} RunInv(s: System, events: seq<Event>)
    requires Inv(s) && IsRun(s, events)
    ensures Inv(After(s, events))
    decreases |events|
  {
    if events != [] {
      StepInv(s, events[0]);
      RunInv(Next(s, events[0]), events[1..]);
    }
  }

  // ----- Main results -----

  /** Over every interleaving: `active` counts exactly the callers inside plus those
      woken and not yet resumed, and while any entry is queued no slot is free. */
  lemma {:induction false} GateIsExact(limit: int, events: seq<Event>)
    requires limit >= 1 && IsRun(Start(limit), events)
    ensures var s := After(Start(limit), events);
            && s.gate.active == |Occupants(s)|
            && (s.gate.waiters != [] ==> s.gate.active >= s.gate.limit)
            && (forall c :: c in s.calls && s.calls[c] == Waiting && c in s.gate.futures && s.gate.futures[c] == Pending
                  ==> s.gate.active >= s.gate.limit)
  {
    assert Occupants(Start(limit)) == {};
    RunInv(Start(limit), events);
    var s := After(Start(limit), events);
    forall c | c in s.calls && s.calls[c] == Waiting && c in s.gate.futures && s.gate.futures[c] == Pending
      ensures s.gate.waiters != []
    {
      var w :| w in s.gate.waiters && w.future == c;
    }
  }

  /** The least-first rule as one statement about a transition, however many it wakes. */
  ghost predicate LeastFirst(g: Gate, g': Gate) {
    forall w, v :: Woken(g, g', w) && LeftWaiting(g, g', v) ==> Before(w, v)
  }

  ghost predicate Woken(g: Gate, g': Gate, w: Waiter) {
    w in g.waiters && Live(g, w) && w.future in g'.futures && g'.futures[w.future] == Granted
  }

  ghost predicate LeftWaiting(g: Gate, g': Gate, v: Waiter) {
    v in g.waiters && Live(g, v) && Live(g', v)
  }

  lemma WakesLeastIsLeastFirst(g: Gate, g': Gate, w: Waiter)
    requires QueueOk(g) && WakesLeast(g, g', w)
    ensures LeastFirst(g, g')
  {
  }

  lemma FuturesOutsideQueue(g: Gate, v: Waiter)
    requires QueueOk(g) && g.waiters != [] && v in g.waiters && v != Popped(g).0
    ensures v in Popped(g).1.waiters && v.future != Popped(g).0.future && Before(Popped(g).0, v)
  {
    PoppedOk(g);
  }

  /** One turn of the refill loop. */
  function RefillTurn(g: Gate): Gate
    requires g.waiters != []
  {
    var (w, rest) := Popped(g);
    if IsCancelled(g, w.future) then rest else SetResult(rest.(active := g.active + 1), w.future)
  }

  lemma TurnLeastFirst(g: Gate, g': Gate)
    requires QueueOk(g) && g.waiters != [] && LeastFirst(RefillTurn(g), g')
    requires Popped(g).0.future in g'.futures && g'.futures[Popped(g).0.future] != Pending
    ensures LeastFirst(g, g')
  {
    var p := Popped(g).0;
    forall w, v | Woken(g, g', w) && LeftWaiting(g, g', v) ensures Before(w, v) {
      assert v != p;
      FuturesOutsideQueue(g, v);
      if w != p {
        FuturesOutsideQueue(g, w);
        assert Woken(RefillTurn(g), g', w) && LeftWaiting(RefillTurn(g), g', v);
      }
    }
  }

  lemma {:induction false} RefillLeastFirst(g: Gate)
    requires QueueOk(g)
    ensures LeastFirst(g, Refilled(g))
    decreases |g.waiters|
  {
    if g.active < g.limit && g.waiters != [] {
      PoppedOk(g);
      RefillLeastFirst(RefillTurn(g));
      RefillKeepsGranted(RefillTurn(g));
      TurnLeastFirst(g, Refilled(g));
    }
  }

  lemma {:induction false} RefillKeepsGranted(g: Gate)
    ensures forall c :: c in g.futures && g.futures[c] != Pending ==>
              c in Refilled(g).futures && (Refilled(g).futures[c] == g.futures[c] || Refilled(g).futures[c] == Granted)
    decreases |g.waiters|
  {
    if g.active < g.limit && g.waiters != [] {
      RefillKeepsGranted(RefillTurn(g));
      assert Refilled(g) == Refilled(RefillTurn(g));
    }
  }

  lemma ReleaseLeastFirst(g: Gate)
    requires QueueOk(g) && g.active >= 1
    ensures LeastFirst(g, Released(g))
  {
    if g.active <= g.limit {
      HandOffSpec(g);
      if w :| WakesLeast(g, HandOff(g), w) {
        WakesLeastIsLeastFirst(g, HandOff(g), w);
      }
    }
  }

  /** Every grant, by whatever event, goes to the live waiter least in (priority,
      arrival number), and a caller that enters at once overtakes nobody. */
  lemma GrantsInOrder(s: System, e: Event)
    requires Inv(s) && Enabled(s, e)
    ensures LeastFirst(s.gate, Next(s, e).gate)
    ensures e.Acquire? && Next(s, e).calls[e.caller] == Holding ==> NoLiveWaiter(s.gate)
    ensures e.Acquire? && Next(s, e).calls[e.caller] == Waiting ==>
              forall w :: w in s.gate.waiters ==> w.sequence < s.gate.sequence + 1
  {
    match e
    case Acquire(_, _) =>
    case Cancel(_) =>
    case Resume(_) =>
    case Abandon(c) =>
      if s.gate.futures[c] == Granted {
        assert c in Occupants(s);
        OccupantsPositive(s, c);
        ReleaseLeastFirst(s.gate);
      }
    case Release(c) =>
      assert c in Occupants(s);
      OccupantsPositive(s, c);
      ReleaseLeastFirst(s.gate);
    case Resize(n) =>
      RefillLeastFirst(s.gate.(limit := if n > 1 then n else 1));
  }

  // ----- The order in which callers asked -----

  predicate Asked(events: seq<Event>, i: nat, c: Caller) {
    i < |events| && events[i].Acquire? && events[i].caller == c
  }

  /** An entry carries the priority its caller asked for. */
  ghost predicate AsAsked(past: seq<Event>, w: Waiter) {
    exists i: nat :: Asked(past, i, w.future) && past[i].priority == w.priority
  }

  /** `past` led to `s`: a caller asks once, entries carry what was asked for, and their
      arrival numbers are in the order of asking. */
  ghost predicate Remembers(s: System, past: seq<Event>) {
    && (forall c, i: nat :: Asked(past, i, c) ==> c in s.calls)
    && (forall c, i: nat, j: nat :: Asked(past, i, c) && Asked(past, j, c) ==> i == j)
    && (forall w :: w in s.gate.waiters ==> AsAsked(past, w))
    && (forall w, v, i: nat, j: nat ::
          w in s.gate.waiters && v in s.gate.waiters && Asked(past, i, w.future) && Asked(past, j, v.future) ==>
            (i < j <==> w.sequence < v.sequence))
  }

  lemma {:induction false} HandOffAddsNone(g: Gate)
    ensures forall w :: w in HandOff(g).waiters ==> w in g.waiters
    decreases |g.waiters|
  {
    if g.waiters != [] {
      HandOffAddsNone(Popped(g).1);
    }
  }

  lemma {:induction false} RefillAddsNone(g: Gate)
    ensures forall w :: w in Refilled(g).waiters ==> w in g.waiters
    decreases |g.waiters|
  {
    if g.active < g.limit && g.waiters != [] {
      RefillAddsNone(RefillTurn(g));
    }
  }

  /** Only a caller that asks and finds no slot is added to the queue, last. */
  lemma QueueGrowsByAsking(s: System, e: Event, w: Waiter)
    requires Enabled(s, e) && w in Next(s, e).gate.waiters
    ensures w in s.gate.waiters || (e.Acquire? && w == Waiter(e.priority, s.gate.sequence + 1, e.caller))
    ensures Next(s, e).gate.waiters != s.gate.waiters && e.Acquire? ==> !EntersAtOnce(s.gate)
  {
    HandOffAddsNone(s.gate);
    if e.Resize? {
      RefillAddsNone(s.gate.(limit := if e.limit > 1 then e.limit else 1));
    }
  }

  lemma EarlierAsked(past: seq<Event>, e: Event, i: nat, c: Caller)
    requires Asked(past + [e], i, c)
    ensures Asked(past, i, c) || (i == |past| && e.Acquire? && e.caller == c)
  {
  }

  lemma AskedOrderKept(s: System, past: seq<Event>, e: Event, w: Waiter, v: Waiter, i: nat, j: nat)
    requires Inv(s) && Enabled(s, e) && Remembers(s, past)
    requires w in Next(s, e).gate.waiters && v in Next(s, e).gate.waiters
    requires Asked(past + [e], i, w.future) && Asked(past + [e], j, v.future)
    ensures i < j <==> w.sequence < v.sequence
  {
    QueueGrowsByAsking(s, e, w);
    QueueGrowsByAsking(s, e, v);
    EarlierAsked(past, e, i, w.future);
    EarlierAsked(past, e, j, v.future);
    assert e.Acquire? ==> e.caller !in s.calls;
  }

  lemma StillAsAsked(s: System, past: seq<Event>, e: Event, w: Waiter)
    requires Enabled(s, e) && Remembers(s, past) && w in Next(s, e).gate.waiters
    ensures AsAsked(past + [e], w)
  {
    QueueGrowsByAsking(s, e, w);
    if w in s.gate.waiters {
      var i: nat :| Asked(past, i, w.future) && past[i].priority == w.priority;
      assert Asked(past + [e], i, w.future);
    } else {
      assert Asked(past + [e], |past|, w.future);
    }
  }

  lemma RemembersStep(s: System, past: seq<Event>, e: Event)
    requires Inv(s) && Enabled(s, e) && Remembers(s, past)
    ensures Remembers(Next(s, e), past + [e])
  {
    var s', now := Next(s, e), past + [e];
    forall c, i: nat | Asked(now, i, c) ensures c in s'.calls {
      EarlierAsked(past, e, i, c);
    }
    forall c, i: nat, j: nat | Asked(now, i, c) && Asked(now, j, c) ensures i == j {
      EarlierAsked(past, e, i, c);
      EarlierAsked(past, e, j, c);
    }
    forall w | w in s'.gate.waiters ensures AsAsked(now, w) {
      StillAsAsked(s, past, e, w);
    }
    forall w, v, i: nat, j: nat | w in s'.gate.waiters && v in s'.gate.waiters
                                  && Asked(now, i, w.future) && Asked(now, j, v.future)
      ensures i < j <==> w.sequence < v.sequence
    {
      AskedOrderKept(s, past, e, w, v, i, j);
    }
  }

  lemma {:induction false} RemembersRun(s: System, past: seq<Event>, events: seq<Event>)
    requires Inv(s) && Remembers(s, past) && IsRun(s, events)
    ensures Inv(After(s, events)) && Remembers(After(s, events), past + events)
    decreases |events|
  {
    if events == [] {
      assert past + events == past;
    } else {
      StepInv(s, events[0]);
      RemembersStep(s, past, events[0]);
      RemembersRun(Next(s, events[0]), past + [events[0]], events[1..]);
      assert past + [events[0]] + events[1..] == past + events;
    }
  }

  predicate WaitsIn(g: Gate, c: Caller) {
    c in g.futures && g.futures[c] == Pending
  }

  predicate WokenIn(g: Gate, c: Caller) {
    c in g.futures && g.futures[c] == Granted
  }

  lemma GrantInAskedOrder(s: System, past: seq<Event>, e: Event, c: Caller, d: Caller, i: nat, j: nat)
    requires Inv(s) && Remembers(s, past) && Enabled(s, e) && Asked(past, i, c) && Asked(past, j, d)
    requires WaitsIn(s.gate, c) && WaitsIn(s.gate, d) && WokenIn(Next(s, e).gate, c) && WaitsIn(Next(s, e).gate, d)
    ensures past[i].priority < past[j].priority || (past[i].priority == past[j].priority && i < j)
  {
    GrantsInOrder(s, e);
    var w :| w in s.gate.waiters && w.future == c;
    var v :| v in s.gate.waiters && v.future == d;
    assert Woken(s.gate, Next(s, e).gate, w) && LeftWaiting(s.gate, Next(s, e).gate, v);
    assert AsAsked(past, w) && AsAsked(past, v);
  }

  /** Over every run, in terms of what the callers asked for: when an event wakes `c` and
      leaves `d` waiting, then `c` asked for a more urgent priority, or for the same and
      earlier. */
  lemma GrantsInAskedOrder(limit: int, events: seq<Event>, e: Event, c: Caller, d: Caller, i: nat, j: nat)
    requires limit >= 1 && IsRun(Start(limit), events) && Enabled(After(Start(limit), events), e)
    requires Asked(events, i, c) && Asked(events, j, d)
    requires var g, g' := After(Start(limit), events).gate, Next(After(Start(limit), events), e).gate;
             WaitsIn(g, c) && WaitsIn(g, d) && WokenIn(g', c) && WaitsIn(g', d)
    ensures events[i].priority < events[j].priority || (events[i].priority == events[j].priority && i < j)
  {
    var s := After(Start(limit), events);
    assert Occupants(Start(limit)) == {};
    assert Remembers(Start(limit), []);
    RemembersRun(Start(limit), [], events);
    assert [] + events == events;
    GrantInAskedOrder(s, events, e, c, d, i, j);
  }

  /** A caller that asks with a free slot is inside at once, unless somebody waits. */
  lemma AskedAndInside(s: System, c: Caller, priority: int)
    requires Inv(s) && Enabled(s, Acquire(c, priority))
    ensures var s' := Next(s, Acquire(c, priority));
            if s.gate.active < s.gate.limit && forall d :: d in s.gate.futures ==> !WaitsIn(s.gate, d)
            then s'.calls[c] == Holding && s'.gate.active == s.gate.active + 1
            else s'.calls[c] == Waiting && WaitsIn(s'.gate, c) && s'.gate.active == s.gate.active
  {
    if s.gate.waiters != [] {
      assert s.gate.active >= s.gate.limit;
    }
    if d :| d in s.gate.futures && WaitsIn(s.gate, d) {
      var w :| w in s.gate.waiters && w.future == d;
    }
  }

  // ----- Nobody is stuck, and who gave up stays out -----

  /** Whatever the state: a woken caller can go in, a waiting one can give up, one that gave up
      can leave, one inside can release, and each of these takes the caller where it should. */
  lemma NobodyIsStuck(s: System, c: Caller)
    requires Inv(s) && c in s.calls && s.calls[c] != Done
    ensures s.calls[c] == Holding ==> Enabled(s, Release(c)) && Next(s, Release(c)).calls[c] == Done
    ensures s.calls[c] == Waiting && WokenIn(s.gate, c) ==>
              Enabled(s, Resume(c)) && Next(s, Resume(c)).calls[c] == Holding && Next(s, Resume(c)).gate == s.gate
    ensures s.calls[c] == Waiting && WaitsIn(s.gate, c) ==>
              Enabled(s, Cancel(c)) && GaveUp(Next(s, Cancel(c)), c)
    ensures s.calls[c] == Waiting ==> Enabled(s, Abandon(c)) && Next(s, Abandon(c)).calls[c] == Done
  {
  }

  predicate GaveUp(s: System, c: Caller) {
    c in s.calls && s.calls[c] != Holding && c in s.gate.futures && s.gate.futures[c] == Cancelled
  }

  lemma {:induction false} HandOffSkips(g: Gate, c: Caller)
    requires IsCancelled(g, c)
    ensures IsCancelled(HandOff(g), c)
    decreases |g.waiters|
  {
    if g.waiters != [] && IsCancelled(g, Popped(g).0.future) {
      HandOffSkips(Popped(g).1, c);
    }
  }

  lemma {:induction false} RefillSkips(g: Gate, c: Caller)
    requires IsCancelled(g, c)
    ensures IsCancelled(Refilled(g), c)
    decreases |g.waiters|
  {
    if g.active < g.limit && g.waiters != [] {
      RefillSkips(RefillTurn(g), c);
    }
  }

  /** Over every run, a caller whose wait was cancelled never gets a slot. */
  lemma {:induction false} GaveUpStaysOut(s: System, events: seq<Event>, c: Caller)
    requires GaveUp(s, c) && IsRun(s, events)
    ensures GaveUp(After(s, events), c)
    decreases |events|
  {
    if events != [] {
      HandOffSkips(s.gate, c);
      if events[0].Resize? {
        RefillSkips(s.gate.(limit := if events[0].limit > 1 then events[0].limit else 1), c);
      }
      GaveUpStaysOut(Next(s, events[0]), events[1..], c);
    }
  }

  // ----- The limit in force -----

  function LastAsked(limit: int, events: seq<Event>): int
    decreases |events|
  {
    if events == [] then limit
    else if events[0].Resize? then LastAsked(if events[0].limit > 1 then events[0].limit else 1, events[1..])
    else LastAsked(limit, events[1..])
  }

  lemma {:induction false} HandOffKeepsLimit(g: Gate)
    ensures HandOff(g).limit == g.limit
    decreases |g.waiters|
  {
    if g.waiters != [] {
      HandOffKeepsLimit(Popped(g).1);
    }
  }

  /** Over every run the limit is the one asked for last, at least one. */
  lemma {:induction false} LimitIsLastAsked(s: System, events: seq<Event>)
    requires IsRun(s, events)
    ensures After(s, events).gate.limit == LastAsked(s.gate.limit, events)
    decreases |events|
  {
    if events != [] {
      var e := events[0];
      HandOffKeepsLimit(s.gate);
      if e.Resize? {
        RefillWithinLimit(s.gate.(limit := if e.limit > 1 then e.limit else 1));
      }
      LimitIsLastAsked(Next(s, e), events[1..]);
    }
  }

  /** A new limit can be set at any time, and nobody comes or goes by that. */
  lemma LimitCanBeSet(s: System, limit: int)
    ensures Enabled(s, Resize(limit))
    ensures var s' := Next(s, Resize(limit)); s'.calls == s.calls && s'.gate.limit == if limit > 1 then limit else 1
  {
    LimitIsLastAsked(s, [Resize(limit)]);
    assert [Resize(limit)][1..] == [];
  }

  // ----- How the count moves -----

  /** `active` never rises while it is at or above the limit in force, and an event
      that raises it leaves it within that limit. */
  lemma ActiveRisesOnlyBelowLimit(s: System, e: Event)
    requires Inv(s) && Enabled(s, e) && Next(s, e).gate.active > s.gate.active
    ensures s.gate.active < Next(s, e).gate.active <= Next(s, e).gate.limit
  {
    match e
    case Acquire(_, _) =>
    case Cancel(_) =>
    case Resume(_) =>
    case Abandon(c) => ReleaseNeverRaises(s.gate);
    case Release(c) => ReleaseNeverRaises(s.gate);
    case Resize(n) => RefillWithinLimit(s.gate.(limit := if n > 1 then n else 1));
  }

  lemma {:induction false} HandOffNeverRaises(g: Gate)
    requires g.active >= 0
    ensures HandOff(g).active <= g.active
    decreases |g.waiters|
  {
    if g.waiters != [] {
      HandOffNeverRaises(Popped(g).1);
    }
  }

  lemma ReleaseNeverRaises(g: Gate)
    requires g.active >= 0
    ensures Released(g).active <= g.active
  {
    HandOffNeverRaises(g);
  }

  lemma {:induction false} RefillWithinLimit(g: Gate)
    ensures Refilled(g).limit == g.limit
    ensures Refilled(g).active == g.active || Refilled(g).active <= g.limit
    decreases |g.waiters|
  {
    if g.active < g.limit && g.waiters != [] {
      var (w, rest) := Popped(g);
      RefillWithinLimit(if IsCancelled(g, w.future) then rest
                        else SetResult(rest.(active := g.active + 1), w.future));
    }
  }
}
