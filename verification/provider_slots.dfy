/** Slot calls by tasks (run_with_provider_call_slot): an outer call leases a slot of the
    gate for its task, calls nested in it by the same task ride on that lease, and a task
    spawned inside inherits the context variable but not the lease. */
module ProviderSlots {
  import opened Wrappers
  import Gates = ConcurrencyGate

  type Task = nat
  type Caller = Gates.Caller

  /** How a slot call in progress was entered. `saved` is what the context variable held. */
  datatype Frame = Outer(call: Caller, saved: Option<Task>) | Nested

  /** `lease` is the task recorded in the context variable this task sees. */
  datatype TaskState = TaskState(lease: Option<Task>, waiting: Option<Caller>, frames: seq<Frame>)

  datatype World = World(sys: Gates.System, tasks: map<Task, TaskState>)

  datatype Event =
    | Spawn(parent: Task, child: Task)
    | Call(task: Task, call: Caller, priority: int)
    | CallNested(task: Task)
    | Cancel(task: Task)
    | Admitted(task: Task)
    | AcquireRaised(task: Task)
    | Leave(task: Task)
    | Resize(limit: int)

  predicate Running(w: World, t: Task) {
    t in w.tasks && w.tasks[t].waiting.None?
  }

  predicate Suspended(w: World, t: Task) {
    t in w.tasks && w.tasks[t].waiting.Some?
  }

  predicate Enabled(w: World, e: Event) {
    match e
    case Spawn(p, c) => Running(w, p) && c !in w.tasks
    case Call(t, c, _) => Running(w, t) && w.tasks[t].lease != Some(t) && c !in w.sys.calls
    case CallNested(t) => Running(w, t) && w.tasks[t].lease == Some(t)
    case Cancel(t) => Suspended(w, t) && Gates.Enabled(w.sys, Gates.Cancel(w.tasks[t].waiting.value))
    case Admitted(t) => Suspended(w, t) && Gates.Enabled(w.sys, Gates.Resume(w.tasks[t].waiting.value))
    case AcquireRaised(t) => Suspended(w, t) && Gates.Enabled(w.sys, Gates.Abandon(w.tasks[t].waiting.value))
    case Leave(t) => Running(w, t) && w.tasks[t].frames != [] &&
                     match Top(w.tasks[t].frames) {
                       case Outer(c, _) => Gates.Enabled(w.sys, Gates.Release(c))
                       case Nested => true
                     }
    case Resize(_) => true
  }

  function Top(frames: seq<Frame>): Frame
    requires frames != []
  {
    frames[|frames| - 1]
  }

  function Entered(s: TaskState, t: Task, call: Caller): TaskState {
    TaskState(Some(t), None, s.frames + [Outer(call, s.lease)])
  }

  function Next(w: World, e: Event): World
    requires Enabled(w, e)
  {
    match e
    case Spawn(p, c) =>
      w.(tasks := w.tasks[c := TaskState(w.tasks[p].lease, None, [])])
    case Call(t, c, p) =>
      var s := w.tasks[t];
      var sys' := Gates.Next(w.sys, Gates.Acquire(c, p));
      World(sys', w.tasks[t := if sys'.calls[c] == Gates.Holding then Entered(s, t, c)
                               else s.(waiting := Some(c))])
    case CallNested(t) =>
      w.(tasks := w.tasks[t := w.tasks[t].(frames := w.tasks[t].frames + [Nested])])
    case Cancel(t) =>
      w.(sys := Gates.Next(w.sys, Gates.Cancel(w.tasks[t].waiting.value)))
    case Admitted(t) =>
      var c := w.tasks[t].waiting.value;
      World(Gates.Next(w.sys, Gates.Resume(c)), w.tasks[t := Entered(w.tasks[t], t, c)])
    case AcquireRaised(t) =>
      var c := w.tasks[t].waiting.value;
      World(Gates.Next(w.sys, Gates.Abandon(c)), w.tasks[t := w.tasks[t].(waiting := None)])
    case Leave(t) =>
      var s := w.tasks[t];
      var rest := s.frames[..|s.frames| - 1];
      (match Top(s.frames)
       case Nested => w.(tasks := w.tasks[t := s.(frames := rest)])
       case Outer(c, saved) =>
         World(Gates.Next(w.sys, Gates.Release(c)), w.tasks[t := TaskState(saved, None, rest)]))
    case Resize(n) => w.(sys := Gates.Next(w.sys, Gates.Resize(n)))
  }

  ghost predicate IsRun(w: World, events: seq<Event>)
    decreases |events|
  {
    events == [] || (Enabled(w, events[0]) && IsRun(Next(w, events[0]), events[1..]))
  }

  ghost function After(w: World, events: seq<Event>): World
    requires IsRun(w, events)
    decreases |events|
  {
    if events == [] then w else After(Next(w, events[0]), events[1..])
  }

  function Start(limit: int): World {
    World(Gates.Start(limit), map[0 := TaskState(None, None, [])])
  }

  // ----- Invariant -----

  ghost predicate TaskOk(t: Task, s: TaskState) {
    && (s.frames == [] <==> s.lease != Some(t))
    && (s.frames != [] ==> s.frames[0].Outer? && s.frames[0].saved != Some(t) && s.waiting.None?)
    && (forall i :: 1 <= i < |s.frames| ==> s.frames[i].Nested?)
  }

  /** The gate call a task is currently answerable for, if any. */
  function CallOf(s: TaskState): Option<Caller> {
    if s.waiting.Some? then s.waiting
    else if s.frames != [] && s.frames[0].Outer? then Some(s.frames[0].call)
    else None
  }

  ghost predicate OwnsCalls(w: World) {
    && (forall t :: t in w.tasks && CallOf(w.tasks[t]).Some? ==>
          var c := CallOf(w.tasks[t]).value;
          c in w.sys.calls &&
          w.sys.calls[c] == if w.tasks[t].waiting.Some? then Gates.Waiting else Gates.Holding)
    && (forall t, u :: t in w.tasks && u in w.tasks && t != u && CallOf(w.tasks[t]).Some? ==>
          CallOf(w.tasks[t]) != CallOf(w.tasks[u]))
    && (forall c :: c in w.sys.calls && w.sys.calls[c] != Gates.Done ==> Owned(w, c))
  }

  ghost predicate Owned(w: World, c: Caller) {
    exists t :: t in w.tasks && CallOf(w.tasks[t]) == Some(c)
  }

  /** Leases name tasks that exist, so a task just spawned cannot find its own. */
  ghost predicate Known(w: World, s: TaskState) {
    && (s.lease.Some? ==> s.lease.value in w.tasks)
    && (s.frames != [] && s.frames[0].Outer? && s.frames[0].saved.Some? ==> s.frames[0].saved.value in w.tasks)
  }

  ghost predicate TasksOk(w: World) {
    OwnsCalls(w) && forall t :: t in w.tasks ==> TaskOk(t, w.tasks[t]) && Known(w, w.tasks[t])
  }

  ghost predicate Inv(w: World) {
    Gates.Inv(w.sys) && TasksOk(w)
  }

  /** `w'` is `w` with task `t` moved to `s` and no other task or call disturbed, except
      that `t`'s old call may be finished. */
  lemma OwnershipMoves(w: World, w': World, t: Task, s: TaskState)
    requires TasksOk(w) && t in w.tasks && w'.tasks == w.tasks[t := s]
    requires TaskOk(t, s) && Known(w, s)
    requires forall c :: c in w.sys.calls ==> c in w'.sys.calls
    requires forall c :: c in w.sys.calls && CallOf(w.tasks[t]) != Some(c) ==> w'.sys.calls[c] == w.sys.calls[c]
    requires forall c :: c in w'.sys.calls && c !in w.sys.calls ==> CallOf(s) == Some(c)
    requires CallOf(w.tasks[t]).Some? && CallOf(w.tasks[t]) != CallOf(s) ==>
               w'.sys.calls[CallOf(w.tasks[t]).value] == Gates.Done
    requires CallOf(s).Some? ==>
               var c := CallOf(s).value;
               && c in w'.sys.calls
               && (CallOf(w.tasks[t]) == Some(c) || c !in w.sys.calls)
               && w'.sys.calls[c] == if s.waiting.Some? then Gates.Waiting else Gates.Holding
    ensures TasksOk(w')
  {
    assert forall u :: u in w.tasks ==> TaskOk(u, w'.tasks[u]) && Known(w, w'.tasks[u]);
    OwnedMoves(w, w', t, s);
  }

  lemma OwnedMoves(w: World, w': World, t: Task, s: TaskState)
    requires OwnsCalls(w) && t in w.tasks && w'.tasks == w.tasks[t := s]
    requires forall c :: c in w.sys.calls ==> c in w'.sys.calls
    requires forall c :: c in w.sys.calls && CallOf(w.tasks[t]) != Some(c) ==> w'.sys.calls[c] == w.sys.calls[c]
    requires forall c :: c in w'.sys.calls && c !in w.sys.calls ==> CallOf(s) == Some(c)
    requires CallOf(w.tasks[t]).Some? && CallOf(w.tasks[t]) != CallOf(s) ==>
               w'.sys.calls[CallOf(w.tasks[t]).value] == Gates.Done
    requires CallOf(s).Some? ==>
               var c := CallOf(s).value;
               && c in w'.sys.calls
               && (CallOf(w.tasks[t]) == Some(c) || c !in w.sys.calls)
               && w'.sys.calls[c] == if s.waiting.Some? then Gates.Waiting else Gates.Holding
    ensures OwnsCalls(w')
  {
    forall c | c in w'.sys.calls && w'.sys.calls[c] != Gates.Done ensures Owned(w', c) {
      if CallOf(s) == Some(c) {
        assert CallOf(w'.tasks[t]) == Some(c);
      } else {
        assert Owned(w, c);
        var u :| u in w.tasks && CallOf(w.tasks[u]) == Some(c);
        assert CallOf(w'.tasks[u]) == Some(c);
      }
    }
  }

  lemma NestedCallOk(w: World, t: Task)
    requires TasksOk(w) && Enabled(w, CallNested(t))
    ensures TasksOk(Next(w, CallNested(t)))
  {
    var w' := Next(w, CallNested(t));
    assert CallOf(w'.tasks[t]) == CallOf(w.tasks[t]);
    OwnershipMoves(w, w', t, w'.tasks[t]);
  }

  lemma CallOk(w: World, t: Task, c: Caller, p: int)
    requires TasksOk(w) && Enabled(w, Call(t, c, p))
    ensures TasksOk(Next(w, Call(t, c, p)))
  {
    var w' := Next(w, Call(t, c, p));
    assert w.tasks[t].frames == [] && CallOf(w.tasks[t]).None?;
    assert CallOf(w'.tasks[t]) == Some(c);
    OwnershipMoves(w, w', t, w'.tasks[t]);
  }

  lemma AdmittedOk(w: World, t: Task)
    requires TasksOk(w) && Enabled(w, Admitted(t))
    ensures TasksOk(Next(w, Admitted(t)))
  {
    var w' := Next(w, Admitted(t));
    assert TaskOk(t, w.tasks[t]) && w.tasks[t].frames == [];
    assert CallOf(w'.tasks[t]) == w.tasks[t].waiting;
    OwnershipMoves(w, w', t, w'.tasks[t]);
  }

  lemma RaisedOk(w: World, t: Task)
    requires TasksOk(w) && Enabled(w, AcquireRaised(t))
    ensures TasksOk(Next(w, AcquireRaised(t)))
  {
    var w' := Next(w, AcquireRaised(t));
    assert TaskOk(t, w.tasks[t]) && w.tasks[t].frames == [];
    assert CallOf(w'.tasks[t]) == None;
    OwnershipMoves(w, w', t, w'.tasks[t]);
  }

  lemma LeaveOk(w: World, t: Task)
    requires TasksOk(w) && Enabled(w, Leave(t))
    ensures TasksOk(Next(w, Leave(t)))
  {
    var w' := Next(w, Leave(t));
    var s, s' := w.tasks[t], w'.tasks[t];
    assert TaskOk(t, s);
    if |s.frames| == 1 {
      assert CallOf(s') == None;
    } else {
      assert s'.frames[0] == s.frames[0];
      assert CallOf(s') == CallOf(s);
    }
    OwnershipMoves(w, w', t, s');
  }

  lemma CancelOk(w: World, t: Task)
    requires TasksOk(w) && Enabled(w, Cancel(t))
    ensures TasksOk(Next(w, Cancel(t)))
  {
    OwnershipMoves(w, Next(w, Cancel(t)), t, w.tasks[t]);
  }

  lemma ResizeOk(w: World, n: int)
    requires TasksOk(w)
    ensures TasksOk(Next(w, Resize(n)))
  {
    assert forall c: Caller :: Owned(w, c) ==> Owned(Next(w, Resize(n)), c);
  }

  lemma TasksStepOk(w: World, e: Event)
    requires TasksOk(w) && Enabled(w, e) && !e.Call?
    ensures TasksOk(Next(w, e))
  {
    match e
    case Spawn(p, c) => SpawnOk(w, p, c);
    case CallNested(t) => NestedCallOk(w, t);
    case Cancel(t) => CancelOk(w, t);
    case Admitted(t) => AdmittedOk(w, t);
    case AcquireRaised(t) => RaisedOk(w, t);
    case Leave(t) => LeaveOk(w, t);
    case Resize(n) => ResizeOk(w, n);
  }

  /** The gate's side of a step is one of the gate's own events, or nothing. */
  function GateEvent(w: World, e: Event): Option<Gates.Event>
    requires Enabled(w, e)
  {
    match e
    case Spawn(_, _) => None
    case Call(t, c, p) => Some(Gates.Acquire(c, p))
    case CallNested(_) => None
    case Cancel(t) => Some(Gates.Cancel(w.tasks[t].waiting.value))
    case Admitted(t) => Some(Gates.Resume(w.tasks[t].waiting.value))
    case AcquireRaised(t) => Some(Gates.Abandon(w.tasks[t].waiting.value))
    case Leave(t) =>
      (match Top(w.tasks[t].frames)
       case Outer(c, _) => Some(Gates.Release(c))
       case Nested => None)
    case Resize(n) => Some(Gates.Resize(n))
  }

  lemma StepInv(w: World, e: Event)
    requires Inv(w) && Enabled(w, e)
    ensures Inv(Next(w, e))
  {
    if GateEvent(w, e).Some? {
      Gates.StepInv(w.sys, GateEvent(w, e).value);
    }
    if e.Call? {
      CallOk(w, e.task, e.call, e.priority);
    } else {
      TasksStepOk(w, e);
    }
  }

  lemma StepIsGateStep(w: World, e: Event)
    requires Inv(w) && Enabled(w, e)
    ensures GateEvent(w, e).Some? ==>
              && Gates.Enabled(w.sys, GateEvent(w, e).value)
              && Next(w, e).sys == Gates.Next(w.sys, GateEvent(w, e).value)
    ensures GateEvent(w, e).None? ==> Next(w, e).sys == w.sys
  {
  }

  /** Every run of slot calls is a run of the gate, so what holds of the gate over its runs
      holds here. */
  lemma {:induction false} SlotRunsAreGateRuns(w: World, events: seq<Event>) returns (gateEvents: seq<Gates.Event>)
    requires Inv(w) && IsRun(w, events)
    ensures Gates.IsRun(w.sys, gateEvents) && Gates.After(w.sys, gateEvents) == After(w, events).sys
    decreases |events|
  {
    if events == [] {
      gateEvents := [];
    } else {
      StepIsGateStep(w, events[0]);
      StepInv(w, events[0]);
      gateEvents := SlotRunsAreGateRuns(Next(w, events[0]), events[1..]);
      if GateEvent(w, events[0]).Some? {
        var g := GateEvent(w, events[0]).value;
        assert ([g] + gateEvents)[1..] == gateEvents;
        gateEvents := [g] + gateEvents;
      }
    }
  }

  /** No task is stuck: one that waits can give up, and go in once it is woken; one inside a call
      can leave it; any other can make a call, which asks the gate only if it leases no slot. */
  lemma NoTaskIsStuck(w: World, t: Task, next: Caller, priority: int)
    requires Inv(w) && t in w.tasks && next !in w.sys.calls
    ensures Suspended(w, t) ==>
              var c := w.tasks[t].waiting.value;
              && Enabled(w, AcquireRaised(t)) && Next(w, AcquireRaised(t)).tasks[t] == w.tasks[t].(waiting := None)
              && (Gates.WaitsIn(w.sys.gate, c) ==>
                    Enabled(w, Cancel(t)) && Gates.GaveUp(Next(w, Cancel(t)).sys, c))
              && (Gates.WokenIn(w.sys.gate, c) ==>
                    Enabled(w, Admitted(t)) && Next(w, Admitted(t)).tasks[t].lease == Some(t))
    ensures Running(w, t) && w.tasks[t].frames != [] ==>
              Enabled(w, Leave(t)) && Next(w, Leave(t)).tasks[t].frames == w.tasks[t].frames[..|w.tasks[t].frames| - 1]
    ensures Running(w, t) && w.tasks[t].lease == Some(t) ==> Enabled(w, CallNested(t))
    ensures Running(w, t) && w.tasks[t].lease != Some(t) ==> Enabled(w, Call(t, next, priority))
  {
    if CallOf(w.tasks[t]).Some? {
      Gates.NobodyIsStuck(w.sys, CallOf(w.tasks[t]).value);
    }
  }

  lemma SpawnOk(w: World, p: Task, c: Task)
    requires TasksOk(w) && Enabled(w, Spawn(p, c))
    ensures TasksOk(Next(w, Spawn(p, c)))
  {
    var w' := Next(w, Spawn(p, c));
    assert Known(w, w.tasks[p]);
    assert CallOf(w'.tasks[c]).None?;
    assert forall t :: t in w.tasks ==> w'.tasks[t] == w.tasks[t] && Known(w', w.tasks[t]);
    SpawnOwns(w, w', c);
  }

  lemma SpawnOwns(w: World, w': World, c: Task)
    requires OwnsCalls(w) && c !in w.tasks && c in w'.tasks && CallOf(w'.tasks[c]).None? && w'.sys == w.sys
    requires w'.tasks == w.tasks[c := w'.tasks[c]]
    ensures OwnsCalls(w')
  {
    forall d | d in w'.sys.calls && w'.sys.calls[d] != Gates.Done ensures Owned(w', d) {
      assert Owned(w, d);
      var t :| t in w.tasks && CallOf(w.tasks[t]) == Some(d);
      assert CallOf(w'.tasks[t]) == Some(d);
    }
  }

  lemma {:induction false} RunInv(w: World, events: seq<Event>)
    requires Inv(w) && IsRun(w, events)
    ensures Inv(After(w, events))
    decreases |events|
  {
    if events != [] {
      StepInv(w, events[0]);
      RunInv(Next(w, events[0]), events[1..]);
    }
  }

  // ----- Main results -----

  ghost function Inside(w: World): set<Task> {
    set t | t in w.tasks && w.tasks[t].frames != []
  }

  ghost function Woken(w: World): set<Caller> {
    set c | c in w.sys.calls && w.sys.calls[c] == Gates.Waiting
            && c in w.sys.gate.futures && w.sys.gate.futures[c] == Gates.Granted
  }

  lemma {:induction false} HoldersMatchTasks(w: World, tasks: set<Task>, holders: set<Caller>)
    requires OwnsCalls(w) && tasks <= Inside(w)
    requires forall t :: t in tasks ==> TaskOk(t, w.tasks[t])
    requires forall c :: c in holders <==> exists t :: t in tasks && CallOf(w.tasks[t]) == Some(c)
    ensures |holders| == |tasks|
    decreases |tasks|
  {
    if tasks == {} {
      assert holders == {};
    } else {
      var t :| t in tasks;
      var c := CallOf(w.tasks[t]).value;
      forall d | d in holders - {c} ensures exists u :: u in tasks - {t} && CallOf(w.tasks[u]) == Some(d) {
        var u :| u in tasks && CallOf(w.tasks[u]) == Some(d);
        assert u in tasks - {t};
      }
      HoldersMatchTasks(w, tasks - {t}, holders - {c});
      assert c in holders;
    }
  }

  lemma OccupantsAreHoldersAndWoken(w: World)
    requires TasksOk(w)
    ensures |Gates.Occupants(w.sys)| == |Inside(w)| + |Woken(w)|
  {
    var holders := set c | c in w.sys.calls && w.sys.calls[c] == Gates.Holding;
    forall c | c in holders ensures exists t :: t in Inside(w) && CallOf(w.tasks[t]) == Some(c) {
      assert Owned(w, c);
      var t :| t in w.tasks && CallOf(w.tasks[t]) == Some(c);
      assert TaskOk(t, w.tasks[t]) && t in Inside(w);
    }
    forall t | t in Inside(w) ensures CallOf(w.tasks[t]).Some? && CallOf(w.tasks[t]).value in holders {
      assert TaskOk(t, w.tasks[t]);
    }
    HoldersMatchTasks(w, Inside(w), holders);
    assert Gates.Occupants(w.sys) == holders + Woken(w);
  }

  lemma StartInv(limit: int)
    requires limit >= 1
    ensures Inv(Start(limit))
  {
    assert Gates.Occupants(Gates.Start(limit)) == {};
  }

  /** Over every run, however calls nest, fail, abort or are cancelled: the gate's
      `active` is the number of tasks inside a slot call, whatever their nesting depth,
      plus the acquires woken but not resumed. */
  lemma SlotsMatchTasks(limit: int, events: seq<Event>)
    requires limit >= 1 && IsRun(Start(limit), events)
    ensures var w := After(Start(limit), events);
            w.sys.gate.active == |Inside(w)| + |Woken(w)|
  {
    StartInv(limit);
    RunInv(Start(limit), events);
    OccupantsAreHoldersAndWoken(After(Start(limit), events));
  }

  /** A nested call and its return leave the gate exactly as it was. */
  lemma NestedCallsAreFree(w: World, t: Task)
    requires Inv(w) && Running(w, t) && t in Inside(w)
    ensures Enabled(w, CallNested(t))
    ensures var w1 := Next(w, CallNested(t)); Enabled(w1, Leave(t)) && Next(w1, Leave(t)) == w
  {
    var w1 := Next(w, CallNested(t));
    var s := w.tasks[t];
    assert w1.tasks[t].frames[..|w1.tasks[t].frames| - 1] == s.frames;
    assert w1.tasks[t := s] == w.tasks;
  }

  /** A task spawned inside a slot call sees the parent's lease but takes a slot of its own. */
  lemma SpawnedTaskTakesItsOwnSlot(w: World, parent: Task, child: Task, call: Caller, priority: int)
    requires Inv(w) && Enabled(w, Spawn(parent, child)) && call !in w.sys.calls
    ensures var w1 := Next(w, Spawn(parent, child));
            && Enabled(w1, Call(child, call, priority))
            && Next(w1, Call(child, call, priority)).sys == Gates.Next(w.sys, Gates.Acquire(call, priority))
  {
    StepInv(w, Spawn(parent, child));
  }

  // ----- The code -----

  ghost predicate Reaches(w: World, w': World) {
    exists events :: IsRun(w, events) && After(w, events) == w'
  }

  lemma ReachesItself(w: World)
    ensures Reaches(w, w)
  {
    assert IsRun(w, []) && After(w, []) == w;
  }

  lemma {:induction false} RunsOn(w: World, events: seq<Event>, e: Event)
    requires IsRun(w, events) && Enabled(After(w, events), e)
    ensures IsRun(w, events + [e]) && After(w, events + [e]) == Next(After(w, events), e)
    decreases |events|
  {
    if events == [] {
      assert [] + [e] == [e] && [e][1..] == [];
    } else {
      RunsOn(Next(w, events[0]), events[1..], e);
      assert (events + [e])[1..] == events[1..] + [e];
    }
  }

  lemma ReachesNext(w: World, w': World, e: Event)
    requires Reaches(w, w') && Enabled(w', e)
    ensures Reaches(w, Next(w', e))
  {
    var events :| IsRun(w, events) && After(w, events) == w';
    RunsOn(w, events, e);
  }

  /** What a slot call can raise. */
  datatype Exc = OperationError | AbortCancelled | WaitRaised | WatermarkError | CallbackBase | ReportError
  datatype Result = Returned | Raised(exc: Exc)

  /** on_failure: absent, returning, raising an Exception (noted on the error and dropped), or
      raising a BaseException that is none. */
  datatype Callback = NoCallback | CallbackReturns | CallbackRaises | CallbackRaisesBase

  /** What the outside decides in one slot call. The abort predicates are asked before the
      operation.  While the operation runs, other tasks take the steps `during`, and the
      operation itself makes the calls `inside`, which are nested. */
  datatype Script = Script(
    watermarkRaises: bool, waiting: seq<Event>, waitRaises: bool,
    aborts: bool, inheritedAborts: bool,
    during: seq<Event>, inside: seq<Script>, fails: bool, callback: Callback, reportRaises: bool)

  /** No other task takes a step meanwhile, and the operation makes no calls. */
  predicate Undisturbed(s: Script) {
    s.waiting == [] && s.during == [] && s.inside == []
  }

  function AfterOperation(s: Script, callback: Callback): Result {
    if s.fails && callback == CallbackRaisesBase then Raised(CallbackBase)
    else if s.reportRaises then Raised(ReportError)
    else if s.fails then Raised(OperationError)
    else Returned
  }

  function NestedResult(s: Script): Result {
    if s.inheritedAborts || s.aborts then Raised(AbortCancelled) else AfterOperation(s, NoCallback)
  }

  function OuterResult(s: Script): Result {
    if s.aborts then Raised(AbortCancelled) else AfterOperation(s, s.callback)
  }

  /** What the caller of an outer call sees: its result, unless the call was aborted before the
      operation, the operation failed, or the report raised.  The operation's own error comes
      through unless the report raises or on_failure raises what is no Exception; an Exception
      from on_failure hides nothing. */
  lemma OuterOutcomeExact(s: Script)
    ensures OuterResult(s) == Returned <==> !s.aborts && !s.fails && !s.reportRaises
    ensures OuterResult(s) == Raised(AbortCancelled) <==> s.aborts
    ensures OuterResult(s) == Raised(CallbackBase) <==> !s.aborts && s.fails && s.callback == CallbackRaisesBase
    ensures OuterResult(s) == Raised(OperationError) <==>
              !s.aborts && s.fails && !s.reportRaises && s.callback != CallbackRaisesBase
    ensures s.callback == CallbackRaises ==> OuterResult(s) == OuterResult(s.(callback := NoCallback))
  {
  }

  /** A nested call asks both its own abort predicate and that of the lease, and never calls
      on_failure. */
  lemma NestedOutcomeExact(s: Script)
    ensures NestedResult(s) == Returned <==> !s.aborts && !s.inheritedAborts && !s.fails && !s.reportRaises
    ensures NestedResult(s) == Raised(AbortCancelled) <==> s.aborts || s.inheritedAborts
    ensures NestedResult(s) == Raised(OperationError) <==>
              !s.aborts && !s.inheritedAborts && s.fails && !s.reportRaises
    ensures NestedResult(s) == NestedResult(s.(callback := NoCallback))
  {
  }

  /** Steps that are not the task's own; its wait may be cancelled from outside. */
  predicate ByOthers(e: Event, t: Task) {
    match e
    case Spawn(p, _) => p != t
    case Cancel(_) => true
    case Resize(_) => true
    case _ => e.task != t
  }

  lemma OthersLeaveAlone(w: World, e: Event, t: Task)
    requires Enabled(w, e) && ByOthers(e, t) && t in w.tasks
    ensures t in Next(w, e).tasks && Next(w, e).tasks[t] == w.tasks[t]
    ensures forall c :: c in w.sys.calls ==> c in Next(w, e).sys.calls
  {
  }

  class EventLoop {
    const gate: Gates.PriorityGate
    var calls: map<Caller, Gates.Phase>
    var tasks: map<Task, TaskState>

    function State(): World reads this, gate {
      World(Gates.System(gate.State(), calls), tasks)
    }

    constructor (limit: int)
      ensures State() == Start(limit) && fresh(gate)
    {
      gate := new Gates.PriorityGate(limit);
      calls, tasks := map[], map[0 := TaskState(None, None, [])];
    }

    method Acquire(t: Task, c: Caller, priority: int)
      requires Enabled(State(), Call(t, c, priority))
      modifies this, gate
      ensures State() == Next(old(State()), Call(t, c, priority))
    {
      var entered := gate.Acquire(priority, c);
      if entered {
        calls := calls[c := Gates.Holding];
        tasks := tasks[t := Entered(tasks[t], t, c)];
      } else {
        calls := calls[c := Gates.Waiting];
        tasks := tasks[t := tasks[t].(waiting := Some(c))];
      }
    }

    /** The await in `acquire` returns, and the context variable is set. */
    method Admit(t: Task)
      requires Enabled(State(), Admitted(t))
      modifies this
      ensures State() == Next(old(State()), Admitted(t))
    {
      var c := tasks[t].waiting.value;
      calls := calls[c := Gates.Holding];
      tasks := tasks[t := Entered(tasks[t], t, c)];
    }

    /** The await in `acquire` raises. */
    method GiveUp(t: Task)
      requires Enabled(State(), AcquireRaised(t))
      modifies this, gate
      ensures State() == Next(old(State()), AcquireRaised(t))
    {
      var c := tasks[t].waiting.value;
      gate.Abandon(c);
      calls := calls[c := Gates.Done];
      tasks := tasks[t := tasks[t].(waiting := None)];
    }

    /** The `finally` of an outer call: the context variable is reset and the slot released. */
    method LeaveOuter(t: Task)
      requires Enabled(State(), Leave(t)) && Top(tasks[t].frames).Outer?
      modifies this, gate
      ensures State() == Next(old(State()), Leave(t))
    {
      var s := tasks[t];
      var top := Top(s.frames);
      tasks := tasks[t := TaskState(top.saved, None, s.frames[..|s.frames| - 1])];
      gate.Release();
      calls := calls[top.call := Gates.Done];
    }

    method EnterNested(t: Task)
      requires Enabled(State(), CallNested(t))
      modifies this`tasks
      ensures State() == Next(old(State()), CallNested(t))
    {
      tasks := tasks[t := tasks[t].(frames := tasks[t].frames + [Nested])];
    }

    method LeaveNested(t: Task)
      requires Enabled(State(), Leave(t)) && Top(tasks[t].frames).Nested?
      modifies this`tasks
      ensures State() == Next(old(State()), Leave(t))
    {
      tasks := tasks[t := tasks[t].(frames := tasks[t].frames[..|tasks[t].frames| - 1])];
    }

    method Perform(e: Event)
      requires Enabled(State(), e)
      modifies this, gate
      ensures State() == Next(old(State()), e)
    {
      match e {
        case Spawn(p, c) => tasks := tasks[c := TaskState(tasks[p].lease, None, [])];
        case Call(t, c, p) => Acquire(t, c, p);
        case CallNested(t) => EnterNested(t);
        case Cancel(t) => gate.futures := gate.futures[tasks[t].waiting.value := Gates.Cancelled];
        case Admitted(t) => Admit(t);
        case AcquireRaised(t) => GiveUp(t);
        case Leave(t) =>
          if Top(tasks[t].frames).Outer? {
            LeaveOuter(t);
          } else {
            LeaveNested(t);
          }
        case Resize(n) => gate.Resize(n);
      }
    }

    /** What other tasks do while task `t` awaits: those of the steps that can be taken. */
    method Others(t: Task, steps: seq<Event>)
      requires Inv(State()) && t in tasks
      modifies this, gate
      ensures Inv(State()) && Reaches(old(State()), State())
      ensures t in tasks && tasks[t] == old(tasks[t])
      ensures forall c :: c in old(calls) ==> c in calls
      ensures steps == [] ==> State() == old(State())
    {
      ghost var w0 := State();
      ReachesItself(w0);
      for k := 0 to |steps|
        invariant Inv(State()) && Reaches(w0, State())
        invariant t in tasks && tasks[t] == old(tasks[t])
        invariant forall c :: c in old(calls) ==> c in calls
        invariant k == 0 ==> State() == w0
      {
        if Enabled(State(), steps[k]) && ByOthers(steps[k], t) {
          ReachesNext(w0, State(), steps[k]);
          OthersLeaveAlone(State(), steps[k], t);
          StepInv(State(), steps[k]);
          Perform(steps[k]);
        }
      }
    }

    /** `await operation()`: other tasks run, and the calls the operation makes are nested. */
    method Operate(t: Task, s: Script)
      requires Inv(State()) && Running(State(), t) && tasks[t].lease == Some(t)
      modifies this, gate
      ensures Inv(State()) && Reaches(old(State()), State())
      ensures t in tasks && tasks[t] == old(tasks[t])
      ensures Undisturbed(s) ==> State() == old(State())
      decreases s, 0
    {
      ghost var w0 := State();
      Others(t, s.during);
      for k := 0 to |s.inside|
        invariant Inv(State()) && Reaches(w0, State())
        invariant t in tasks && tasks[t] == old(tasks[t])
        invariant Undisturbed(s) ==> State() == w0
      {
        ghost var w1 := State();
        var _ := RunNested(t, s.inside[k]);
        ReachesOnward(w0, w1, State());
      }
    }

    /** A call by a task that leases a slot already. The frame only records that it is inside. */
    method RunNested(t: Task, s: Script) returns (result: Result)
      requires Inv(State()) && Running(State(), t) && tasks[t].lease == Some(t)
      modifies this, gate
      ensures Inv(State()) && Reaches(old(State()), State())
      ensures t in tasks && tasks[t] == old(tasks[t])
      ensures s.inheritedAborts || s.aborts || Undisturbed(s) ==> State() == old(State())
      ensures result == NestedResult(s)
      decreases s, 1
    {
      ghost var w0 := State();
      ReachesItself(w0);
      if s.inheritedAborts || s.aborts {
        return Raised(AbortCancelled);
      }
      NestedEnters(w0, t);
      NestedCallsAreFree(w0, t);
      EnterNested(t);
      ghost var w1 := State();
      Operate(t, s);
      ReachesOnward(w0, w1, State());
      NestedLeaves(w0, State(), t);
      LeaveNested(t);
      if s.reportRaises {
        return Raised(ReportError);
      }
      return if s.fails then Raised(OperationError) else Returned;
    }

    /** From the context variable being set to the end of the `finally`. */
    method RunLeased(t: Task, call: Caller, s: Script) returns (result: Result)
      requires Inv(State()) && Running(State(), t) && LeasedBy(tasks[t], t, call)
      modifies this, gate
      ensures Inv(State()) && Reaches(old(State()), State())
      ensures t in tasks && tasks[t] == TaskState(old(tasks[t]).frames[0].saved, None, [])
      ensures call in calls && calls[call] == Gates.Done && result == OuterResult(s)
      ensures Undisturbed(s) ==> gate.State() == Gates.Released(old(gate.State()))
    {
      ghost var w0 := State();
      ReachesItself(w0);
      if s.aborts {
        result := Raised(AbortCancelled);
      } else {
        Operate(t, s);
        if s.fails && s.callback == CallbackRaisesBase {
          result := Raised(CallbackBase);
        } else if s.reportRaises {
          result := Raised(ReportError);
        } else {
          result := if s.fails then Raised(OperationError) else Returned;
        }
      }
      OuterLeaves(w0, State(), t, call);
      LeaveOuter(t);
    }

    /** The await in `acquire`, when the call was queued. */
    method AwaitSlot(t: Task, call: Caller, s: Script) returns (admitted: bool)
      requires Inv(State()) && t in tasks && tasks[t] == TaskState(tasks[t].lease, Some(call), [])
      modifies this, gate
      ensures Inv(State()) && Reaches(old(State()), State()) && t in tasks && call in calls
      ensures admitted ==> LeasedBy(tasks[t], t, call) && tasks[t].frames[0].saved == old(tasks[t].lease)
      ensures !admitted ==> tasks[t] == old(tasks[t]).(waiting := None) && calls[call] == Gates.Done
      ensures admitted ==> !s.waitRaises
    {
      ghost var w0 := State();
      Others(t, s.waiting);
      StillQueued(State(), t, call);
      if gate.futures[call] == Gates.Granted && !s.waitRaises {
        ReachesNext(w0, State(), Admitted(t));
        StepInv(State(), Admitted(t));
        Admit(t);
        return true;
      }
      ReachesNext(w0, State(), AcquireRaised(t));
      StepInv(State(), AcquireRaised(t));
      GiveUp(t);
      return false;
    }

    method WaitForSlot(t: Task, call: Caller, priority: int, s: Script) returns (admitted: bool)
      requires Inv(State()) && Enabled(State(), Call(t, call, priority))
      modifies this, gate
      ensures Inv(State()) && Reaches(old(State()), State()) && t in tasks && call in calls
      ensures admitted ==> LeasedBy(tasks[t], t, call) && tasks[t].frames[0].saved == old(tasks[t].lease)
      ensures !admitted ==> tasks[t] == old(tasks[t]) && calls[call] == Gates.Done
      ensures admitted ==> Gates.EntersAtOnce(old(State()).sys.gate) || !s.waitRaises
      ensures Gates.EntersAtOnce(old(State()).sys.gate) ==>
                admitted && gate.State() == old(gate.State()).(active := old(gate.State()).active + 1)
    {
      ghost var w0 := State();
      CallBegins(w0, t, call, priority);
      Acquire(t, call, priority);
      if tasks[t].waiting.None? {
        return true;
      }
      ghost var w1 := State();
      admitted := AwaitSlot(t, call, s);
      ReachesOnward(w0, w1, State());
    }

    /** A call by a task that leases no slot. */
    method RunOuter(t: Task, call: Caller, priority: int, s: Script) returns (result: Result)
      requires Inv(State()) && Enabled(State(), Call(t, call, priority))
      modifies this, gate
      ensures Inv(State()) && Reaches(old(State()), State())
      ensures t in tasks && tasks[t] == old(tasks[t])
      ensures call in calls && calls[call] == Gates.Done && result in {OuterResult(s), Raised(WaitRaised)}
      ensures Gates.EntersAtOnce(old(gate.State())) ==>
                result == OuterResult(s) && (Undisturbed(s) ==> gate.State() == old(gate.State()))
    {
      ghost var w0 := State();
      OutsideNoFrames(w0, t);
      var admitted := WaitForSlot(t, call, priority, s);
      if !admitted {
        return Raised(WaitRaised);
      }
      ghost var w1 := State();
      result := RunLeased(t, call, s);
      ReachesOnward(w0, w1, State());
    }

    /** run_with_provider_call_slot. Whatever branch it takes, the task ends as it began, and a
        gate call that was made is finished; a nested call makes none. Undisturbed, a call that
        does not wait leaves the gate exactly as it was. */
    method RunWithProviderCallSlot(t: Task, call: Caller, priority: int, s: Script) returns (result: Result)
      requires Inv(State()) && Running(State(), t) && call !in calls
      modifies this, gate
      ensures Inv(State()) && Reaches(old(State()), State())
      ensures t in tasks && tasks[t] == old(tasks[t])
      ensures old(tasks[t].lease) == Some(t) ==> result == NestedResult(s)
      ensures old(tasks[t].lease) != Some(t) && s.watermarkRaises ==>
                result == Raised(WatermarkError) && State() == old(State())
      ensures old(tasks[t].lease) != Some(t) && !s.watermarkRaises ==>
                call in calls && calls[call] == Gates.Done && result in {OuterResult(s), Raised(WaitRaised)}
      ensures result == Raised(WaitRaised) ==> !Gates.EntersAtOnce(old(gate.State()))
      ensures Undisturbed(s) && (old(tasks[t].lease) == Some(t) || Gates.EntersAtOnce(old(gate.State()))) ==>
                gate.State() == old(gate.State())
    {
      ghost var w0 := State();
      ReachesItself(w0);
      if tasks[t].lease == Some(t) {
        result := RunNested(t, s);
        return;
      }
      if s.watermarkRaises {
        return Raised(WatermarkError);
      }
      result := RunOuter(t, call, priority, s);
    }
  }

  /** Task `t` is inside one outer call and nothing else. */
  predicate LeasedBy(s: TaskState, t: Task, call: Caller) {
    s.lease == Some(t) && s.waiting.None? && |s.frames| == 1 && s.frames[0].Outer? && s.frames[0].call == call
  }

  lemma {:induction false} ReachesOnward(w: World, w1: World, w2: World)
    requires Reaches(w, w1) && Reaches(w1, w2)
    ensures Reaches(w, w2)
  {
    var events :| IsRun(w1, events) && After(w1, events) == w2;
    Onward(w, w1, events);
  }

  lemma {:induction false} Onward(w: World, w1: World, events: seq<Event>)
    requires Reaches(w, w1) && IsRun(w1, events)
    ensures Reaches(w, After(w1, events))
    decreases |events|
  {
    if events != [] {
      ReachesNext(w, w1, events[0]);
      Onward(w, Next(w1, events[0]), events[1..]);
    }
  }

  lemma OutsideNoFrames(w: World, t: Task)
    requires Inv(w) && Running(w, t) && w.tasks[t].lease != Some(t)
    ensures w.tasks[t] == TaskState(w.tasks[t].lease, None, [])
  {
    assert TaskOk(t, w.tasks[t]);
  }

  lemma CallBegins(w: World, t: Task, call: Caller, priority: int)
    requires Inv(w) && Enabled(w, Call(t, call, priority))
    ensures w.tasks[t] == TaskState(w.tasks[t].lease, None, [])
    ensures Inv(Next(w, Call(t, call, priority))) && Reaches(w, Next(w, Call(t, call, priority)))
  {
    OutsideNoFrames(w, t);
    ReachesItself(w);
    ReachesNext(w, w, Call(t, call, priority));
    StepInv(w, Call(t, call, priority));
  }

  lemma NestedEnters(w: World, t: Task)
    requires Inv(w) && Running(w, t) && w.tasks[t].lease == Some(t)
    ensures Inv(Next(w, CallNested(t))) && Reaches(w, Next(w, CallNested(t)))
  {
    ReachesItself(w);
    ReachesNext(w, w, CallNested(t));
    StepInv(w, CallNested(t));
  }

  lemma NestedLeaves(w0: World, w: World, t: Task)
    requires Reaches(w0, w) && Inv(w) && Running(w, t) && w.tasks[t].frames != [] && Top(w.tasks[t].frames).Nested?
    ensures Enabled(w, Leave(t)) && Inv(Next(w, Leave(t))) && Reaches(w0, Next(w, Leave(t)))
  {
    ReachesNext(w0, w, Leave(t));
    StepInv(w, Leave(t));
  }

  lemma OuterLeaves(w0: World, w: World, t: Task, call: Caller)
    requires Reaches(w0, w) && Inv(w) && Running(w, t) && LeasedBy(w.tasks[t], t, call)
    ensures Enabled(w, Leave(t)) && Inv(Next(w, Leave(t))) && Reaches(w0, Next(w, Leave(t)))
  {
    assert CallOf(w.tasks[t]) == Some(call);
    ReachesNext(w0, w, Leave(t));
    StepInv(w, Leave(t));
  }

  lemma StillQueued(w: World, t: Task, call: Caller)
    requires Inv(w) && t in w.tasks && w.tasks[t].waiting == Some(call)
    ensures call in w.sys.gate.futures && Enabled(w, AcquireRaised(t))
    ensures w.sys.gate.futures[call] == Gates.Granted ==> Enabled(w, Admitted(t))
  {
    assert CallOf(w.tasks[t]) == Some(call);
  }
}
