/** Replay of a shot's actions (narrative_action_capacity_profile in app/continuity.py):
    the shot names actions and the phases of them it covers, and the profile replays their
    effects on facts and adds up the time the phases need. */
module ActionReplay {
  import opened Wrappers
  import opened PythonText

  type Id = string
  type Fact = string

  datatype Phase = Phase(id: Id, minSeconds: real)
  datatype Action = Action(
    id: Id, phases: seq<Phase>, needs: set<Fact>, removes: set<Fact>, adds: set<Fact>, completion: string)
  type Plan = seq<Action>

  datatype Shot = Shot(
    primary: Option<Id>, supporting: seq<Id>, phaseIds: seq<Id>,
    before: set<Fact>, after: set<Fact>, budget: Option<real>)

  datatype Error =
    | AuthorityMissing
    | PhaseAssignmentInvalid
    | PhaseWithoutAction
    | PhaseRefMissing(phase: Id)
    | PhaseOwnerMismatch(phase: Id)
    | ActionRefMissing(action: Id)
    | PhaseAssignmentMissing(action: Id)
    | PhaselessSupporting(action: Id)
    | PreconditionsMissing(action: Id, facts: set<Fact>)
    | CompletionMissing(action: Id)
    | StateDrift
    | BudgetUnderstated

  // ----- Look-ups -----

  /** The last action of an id. */
  function ActionOf(plan: Plan, id: Id): Option<Action> {
    if plan == [] then None
    else
      var last := plan[|plan| - 1];
      if id != "" && Strip(last.id) == id then Some(last) else ActionOf(plan[..|plan| - 1], id)
  }

  function PhaseIn(phases: seq<Phase>, id: Id): Option<Phase> {
    if phases == [] then None
    else
      var last := phases[|phases| - 1];
      if id != "" && Strip(last.id) == id then Some(last) else PhaseIn(phases[..|phases| - 1], id)
  }

  /** The last phase of an id, with the action that holds it. */
  function PhaseOf(plan: Plan, id: Id): Option<(Action, Phase)> {
    if plan == [] then None
    else
      var last := plan[|plan| - 1];
      var p := PhaseIn(last.phases, id);
      if p.Some? then Some((last, p.value)) else PhaseOf(plan[..|plan| - 1], id)
  }

  /** Stripped, in order. */
  function Stripped(ids: seq<Id>): (r: seq<Id>)
    ensures |r| == |ids|
  {
    seq(|ids|, i requires 0 <= i < |ids| => Strip(ids[i]))
  }

  /** The ids that are not empty, each once, at its first place. */
  function Distinct(ids: seq<Id>): seq<Id> {
    if ids == [] then []
    else
      var before, last := Distinct(ids[..|ids| - 1]), ids[|ids| - 1];
      if last in before then before else before + [last]
  }

  function NonEmpty(ids: seq<Id>): seq<Id> {
    if ids == [] then []
    else NonEmpty(ids[..|ids| - 1]) + (if ids[|ids| - 1] == "" then [] else [ids[|ids| - 1]])
  }

  function TaskIds(shot: Shot): seq<Id> {
    Distinct((if shot.primary.Some? && shot.primary.value != "" then [Strip(shot.primary.value)] else [])
             + NonEmpty(Stripped(shot.supporting)))
  }

  function AssignedIds(shot: Shot): seq<Id> {
    Distinct(NonEmpty(Stripped(shot.phaseIds)))
  }

  function PhaseIdsOf(a: Action): set<Id> {
    set p | p in a.phases :: Strip(p.id)
  }

  function Delivered(phases: seq<Id>, ids: set<Id>): seq<Id> {
    if phases == [] then []
    else
      var last := phases[|phases| - 1];
      Delivered(phases[..|phases| - 1], ids) + (if last in ids then [last] else [])
  }

  // ----- What the shot asks for, looked up -----

  /** A task of the shot with everything the replay needs of its action: whether the shot
      covers the action's first and last phase, which phases it delivers and how long they
      take at least. */
  datatype Task =
    | Missing(id: Id)
    | Task(id: Id, needs: set<Fact>, removes: set<Fact>, adds: set<Fact>, completionGiven: bool,
           phases: set<Id>, phaseless: bool, supporting: bool, starts: bool, completes: bool,
           delivered: seq<Id>, seconds: real)

  /** The phase exists and its action is one of the shot's. */
  predicate ValidPhase(shot: Shot, plan: Plan, phase: Id) {
    PhaseOf(plan, phase).Some? && Strip(PhaseOf(plan, phase).value.0.id) in TaskIds(shot)
  }

  function Seconds(shot: Shot, plan: Plan, phase: Id): real {
    if ValidPhase(shot, plan, phase) && PhaseOf(plan, phase).value.1.minSeconds > 0.0
    then PhaseOf(plan, phase).value.1.minSeconds else 0.0
  }

  function Total(phases: seq<Id>, cost: Id -> real): real {
    if phases == [] then 0.0 else Total(phases[..|phases| - 1], cost) + cost(phases[|phases| - 1])
  }

  function TaskOf(shot: Shot, plan: Plan, id: Id): Task {
    var found, phases := ActionOf(plan, id), AssignedIds(shot);
    if found.None? then Missing(id)
    else
      var a := found.value;
      var delivered := Delivered(phases, PhaseIdsOf(a));
      Task(id, a.needs, a.removes, a.adds, !Blank(a.completion),
           PhaseIdsOf(a), a.phases == [], id in shot.supporting,
           a.phases == [] || Strip(a.phases[0].id) in delivered,
           a.phases == [] || Strip(a.phases[|a.phases| - 1].id) in delivered,
           delivered, Total(delivered, p => Seconds(shot, plan, p)))
  }

  function TasksOf(shot: Shot, plan: Plan, ids: seq<Id>): (r: seq<Task>)
    ensures |r| == |ids| && forall k :: 0 <= k < |ids| ==> r[k] == TaskOf(shot, plan, ids[k])
  {
    seq(|ids|, k requires 0 <= k < |ids| => TaskOf(shot, plan, ids[k]))
  }

  function PhaseError(shot: Shot, plan: Plan, phase: Id): seq<Error> {
    if PhaseOf(plan, phase).None? then [PhaseRefMissing(phase)]
    else if Strip(PhaseOf(plan, phase).value.0.id) !in TaskIds(shot) then [PhaseOwnerMismatch(phase)]
    else []
  }

  function Gathered(phases: seq<Id>, check: Id -> seq<Error>): seq<Error> {
    if phases == [] then [] else Gathered(phases[..|phases| - 1], check) + check(phases[|phases| - 1])
  }

  function PhaseErrors(shot: Shot, plan: Plan, phases: seq<Id>): seq<Error> {
    Gathered(phases, p => PhaseError(shot, plan, p))
  }

  // ----- The replay -----

  /** Where the replay stands. */
  datatype Replay = Replay(count: nat, seconds: real, state: set<Fact>, errors: seq<Error>)

  function Effect(t: Task, state: set<Fact>): set<Fact> {
    if t.Task? && t.completes then state - t.removes + t.adds else state
  }

  /** How many phases a task is charged. */
  function Charge(t: Task): nat {
    if t.Missing? then 0
    else if t.phaseless then (if t.supporting then 0 else 1)
    else |t.delivered|
  }

  function DeliveryErrors(t: Task): seq<Error>
    requires t.Task?
  {
    if !t.phaseless && t.delivered == [] then [PhaseAssignmentMissing(t.id)]
    else if t.phaseless && t.supporting then [PhaselessSupporting(t.id)]
    else []
  }

  function NeedErrors(t: Task, state: set<Fact>): seq<Error>
    requires t.Task?
  {
    if t.starts && t.needs - state != {} then [PreconditionsMissing(t.id, t.needs - state)] else []
  }

  function TurnErrors(t: Task, state: set<Fact>): seq<Error> {
    if t.Missing? then [ActionRefMissing(t.id)]
    else DeliveryErrors(t) + NeedErrors(t, state) + (if t.completionGiven then [] else [CompletionMissing(t.id)])
  }

  function SecondsOf(t: Task): real {
    if t.Missing? || t.phaseless || t.delivered == [] then 0.0 else t.seconds
  }

  function Turn(t: Task, r: Replay): Replay {
    Replay(r.count + Charge(t), r.seconds + SecondsOf(t), Effect(t, r.state), r.errors + TurnErrors(t, r.state))
  }

  function Replayed(tasks: seq<Task>, start: Replay): Replay {
    if tasks == [] then start else Turn(tasks[|tasks| - 1], Replayed(tasks[..|tasks| - 1], start))
  }

  function FinalErrors(shot: Shot, r: Replay): seq<Error> {
    (if r.state != shot.after then [StateDrift] else [])
    + (if shot.budget.Some? && shot.budget.value + 0.000000001 < r.seconds then [BudgetUnderstated] else [])
  }

  /** Phase ids are given without blanks, empties or repeats. */
  predicate PhaseIdsFit(shot: Shot) {
    "" !in Stripped(shot.phaseIds) && |AssignedIds(shot)| == |shot.phaseIds|
  }

  function AssignmentErrors(shot: Shot): seq<Error> {
    if PhaseIdsFit(shot) then [] else [PhaseAssignmentInvalid]
  }

  datatype Profile = Profile(count: nat, seconds: real, errors: seq<Error>)

  function AllTasks(shot: Shot, plan: Plan): seq<Task> {
    TasksOf(shot, plan, TaskIds(shot))
  }

  function ReplayOf(shot: Shot, plan: Plan): Replay {
    Replayed(AllTasks(shot, plan), Replay(0, 0.0, shot.before, PhaseErrors(shot, plan, AssignedIds(shot))))
  }

  function ProfileOf(shot: Shot, plan: Option<Plan>): Profile {
    if plan.None? then Profile(0, 0.0, [AuthorityMissing])
    else if TaskIds(shot) == [] then
      Profile(0, 0.0, AssignmentErrors(shot) + (if AssignedIds(shot) != [] then [PhaseWithoutAction] else []))
    else
      var r := ReplayOf(shot, plan.value);
      Profile(r.count, r.seconds, AssignmentErrors(shot) + (r.errors + FinalErrors(shot, r)))
  }

  // ----- The code -----

  /** A list comprehension over dict.fromkeys. */
  method DistinctIds(ids: seq<Id>) returns (r: seq<Id>)
    ensures r == Distinct(ids)
  {
    r := [];
    for i := 0 to |ids|
      invariant r == Distinct(ids[..i])
    {
      assert ids[..i + 1][..i] == ids[..i];
      if ids[i] !in r {
        r := r + [ids[i]];
      }
    }
    assert ids[..|ids|] == ids;
  }

  method StripAll(ids: seq<Id>) returns (r: seq<Id>)
    ensures r == NonEmpty(Stripped(ids))
  {
    r := [];
    for i := 0 to |ids|
      invariant r == NonEmpty(Stripped(ids)[..i])
    {
      assert Stripped(ids)[..i + 1][..i] == Stripped(ids)[..i];
      if Strip(ids[i]) != "" {
        r := r + [Strip(ids[i])];
      }
    }
    assert Stripped(ids)[..|ids|] == Stripped(ids);
  }

  method DeliveredPhases(phases: seq<Id>, ids: set<Id>) returns (r: seq<Id>)
    ensures r == Delivered(phases, ids)
  {
    r := [];
    for i := 0 to |phases|
      invariant r == Delivered(phases[..i], ids)
    {
      assert phases[..i + 1][..i] == phases[..i];
      if phases[i] in ids {
        r := r + [phases[i]];
      }
    }
    assert phases[..|phases|] == phases;
  }

  method SumSeconds(phases: seq<Id>, cost: Id -> real) returns (s: real)
    ensures s == Total(phases, cost)
  {
    s := 0.0;
    for i := 0 to |phases|
      invariant s == Total(phases[..i], cost)
    {
      assert phases[..i + 1][..i] == phases[..i];
      s := s + cost(phases[i]);
    }
    assert phases[..|phases|] == phases;
  }

  /** The loop over the assigned phases. */
  method CheckPhases(shot: Shot, plan: Plan, phases: seq<Id>) returns (errors: seq<Error>)
    ensures errors == PhaseErrors(shot, plan, phases)
  {
    errors := [];
    for k := 0 to |phases|
      invariant errors == PhaseErrors(shot, plan, phases[..k])
    {
      assert phases[..k + 1][..k] == phases[..k];
      var owned := PhaseOf(plan, phases[k]);
      if owned.None? {
        errors := errors + [PhaseRefMissing(phases[k])];
      } else if Strip(owned.value.0.id) !in TaskIds(shot) {
        errors := errors + [PhaseOwnerMismatch(phases[k])];
      }
    }
    assert phases[..|phases|] == phases;
  }

  method LookUp(shot: Shot, plan: Plan, phases: seq<Id>, id: Id) returns (t: Task)
    requires phases == AssignedIds(shot)
    ensures t == TaskOf(shot, plan, id)
  {
    var found := ActionOf(plan, id);
    if found.None? {
      return Missing(id);
    }
    var a := found.value;
    var delivered := DeliveredPhases(phases, PhaseIdsOf(a));
    var seconds := SumSeconds(delivered, p => Seconds(shot, plan, p));
    t := Task(id, a.needs, a.removes, a.adds, !Blank(a.completion),
              PhaseIdsOf(a), a.phases == [], id in shot.supporting,
              a.phases == [] || Strip(a.phases[0].id) in delivered,
              a.phases == [] || Strip(a.phases[|a.phases| - 1].id) in delivered,
              delivered, seconds);
  }

  /** The body of the loop over the actions. */
  method TakeTask(t: Task, r: Replay) returns (s: Replay)
    ensures s == Turn(t, r)
  {
    if t.Missing? {
      return r.(errors := r.errors + [ActionRefMissing(t.id)]);
    }
    var count, seconds, errors := 0, 0.0, [];
    if !t.phaseless && t.delivered == [] {
      errors := [PhaseAssignmentMissing(t.id)];
    } else if t.phaseless {
      if t.supporting {
        errors := [PhaselessSupporting(t.id)];
      } else {
        count := 1;
      }
    } else {
      count, seconds := |t.delivered|, t.seconds;
    }
    var missing := if t.starts then t.needs - r.state else {};
    if missing != {} {
      errors := errors + [PreconditionsMissing(t.id, missing)];
    }
    if !t.completionGiven {
      errors := errors + [CompletionMissing(t.id)];
    }
    s := Replay(r.count + count, r.seconds + seconds, Effect(t, r.state), r.errors + errors);
  }

  method LookUpAll(shot: Shot, plan: Plan, tasks: seq<Id>, phases: seq<Id>) returns (r: seq<Task>)
    requires tasks == TaskIds(shot) && phases == AssignedIds(shot)
    ensures r == AllTasks(shot, plan)
  {
    r := [];
    for k := 0 to |tasks|
      invariant r == TasksOf(shot, plan, tasks)[..k]
    {
      var t := LookUp(shot, plan, phases, tasks[k]);
      r := r + [t];
    }
  }

  /** The loop over the actions. */
  method TakeTasks(tasks: seq<Task>, start: Replay) returns (r: Replay)
    ensures r == Replayed(tasks, start)
  {
    r := start;
    for k := 0 to |tasks|
      invariant r == Replayed(tasks[..k], start)
    {
      assert tasks[..k + 1][..k] == tasks[..k];
      r := TakeTask(tasks[k], r);
    }
    assert tasks[..|tasks|] == tasks;
  }

  method ReadIds(shot: Shot) returns (tasks: seq<Id>, phases: seq<Id>, errors: seq<Error>)
    ensures tasks == TaskIds(shot) && phases == AssignedIds(shot) && errors == AssignmentErrors(shot)
  {
    var supporting := StripAll(shot.supporting);
    var primary := if shot.primary.Some? && shot.primary.value != "" then [Strip(shot.primary.value)] else [];
    tasks := DistinctIds(primary + supporting);
    var stripped := StripAll(shot.phaseIds);
    phases := DistinctIds(stripped);
    errors := [];
    if "" in Stripped(shot.phaseIds) || |phases| != |shot.phaseIds| {
      errors := [PhaseAssignmentInvalid];
    }
  }

  method CheckEnd(shot: Shot, r: Replay) returns (errors: seq<Error>)
    ensures errors == FinalErrors(shot, r)
  {
    errors := [];
    if r.state != shot.after {
      errors := errors + [StateDrift];
    }
    if shot.budget.Some? && shot.budget.value + 0.000000001 < r.seconds {
      errors := errors + [BudgetUnderstated];
    }
  }

  method ReplayAll(shot: Shot, plan: Plan, tasks: seq<Id>, phases: seq<Id>) returns (r: Replay)
    requires tasks == TaskIds(shot) && phases == AssignedIds(shot)
    ensures r == ReplayOf(shot, plan)
  {
    var phaseErrors := CheckPhases(shot, plan, phases);
    var all := LookUpAll(shot, plan, tasks, phases);
    r := TakeTasks(all, Replay(0, 0.0, shot.before, phaseErrors));
  }

  /** narrative_action_capacity_profile. */
  method Compute(shot: Shot, plan: Option<Plan>) returns (p: Profile)
    ensures p == ProfileOf(shot, plan)
  {
    if plan.None? {
      return Profile(0, 0.0, [AuthorityMissing]);
    }
    var tasks, phases, errors := ReadIds(shot);
    if tasks == [] {
      if phases != [] {
        errors := errors + [PhaseWithoutAction];
      }
      return Profile(0, 0.0, errors);
    }
    var r := ReplayAll(shot, plan.value, tasks, phases);
    var end := CheckEnd(shot, r);
    p := Profile(r.count, r.seconds, errors + (r.errors + end));
  }

  // ----- What an empty error list means -----

  /** The facts that hold before the `k`-th task, by replaying the tasks before it. */
  function StateAt(tasks: seq<Task>, before: set<Fact>, k: nat): set<Fact>
    requires k <= |tasks|
  {
    if k == 0 then before else Effect(tasks[k - 1], StateAt(tasks, before, k - 1))
  }

  predicate Sets(t: Task, f: Fact) {
    t.Task? && t.completes && f in t.adds
  }

  predicate Unsets(t: Task, f: Fact) {
    t.Task? && t.completes && f in t.removes && f !in t.adds
  }

  predicate Undisputed(tasks: seq<Task>, f: Fact, from: nat, n: nat)
    requires n <= |tasks|
  {
    forall m :: from <= m < n ==> !Unsets(tasks[m], f)
  }

  /** What holds after some actions: a fact that one of them added, or that held before, and
      that none completed since took away.  An action that takes away and adds adds. */
  lemma {:induction false} FactHoldsExact(tasks: seq<Task>, before: set<Fact>, n: nat, f: Fact)
    requires n <= |tasks|
    ensures f in StateAt(tasks, before, n) <==>
              (f in before && Undisputed(tasks, f, 0, n))
              || (exists k :: 0 <= k < n && Sets(tasks[k], f) && Undisputed(tasks, f, k, n))
  {
    if n > 0 {
      FactHoldsExact(tasks, before, n - 1, f);
      if k :| 0 <= k < n - 1 && Sets(tasks[k], f) && Undisputed(tasks, f, k, n - 1) {
        assert !Unsets(tasks[n - 1], f) ==> Undisputed(tasks, f, k, n);
      }
      if Sets(tasks[n - 1], f) {
        assert Undisputed(tasks, f, n - 1, n);
      }
      if k :| 0 <= k < n - 1 && Sets(tasks[k], f) && Undisputed(tasks, f, k, n) {
        assert Undisputed(tasks, f, k, n - 1);
      }
    }
  }

  /** The task's action exists, finds what it needs if it starts here, and is delivered. */
  predicate Fits(t: Task, state: set<Fact>) {
    && t.Task? && t.completionGiven
    && (t.starts ==> t.needs <= state)
    && (if t.phaseless then !t.supporting else t.delivered != [])
  }

  predicate AllFit(tasks: seq<Task>, before: set<Fact>, n: nat)
    requires n <= |tasks|
  {
    forall k :: 0 <= k < n ==> Fits(tasks[k], StateAt(tasks, before, k))
  }

  /** The seconds the tasks' phases need at least. */
  function SecondsTo(tasks: seq<Task>, k: nat): real
    requires k <= |tasks|
  {
    if k == 0 then 0.0 else SecondsTo(tasks, k - 1) + SecondsOf(tasks[k - 1])
  }

  predicate PhasesValid(shot: Shot, plan: Plan, phases: seq<Id>) {
    forall i :: 0 <= i < |phases| ==> ValidPhase(shot, plan, phases[i])
  }

  /** What a shot with actions must satisfy. */
  predicate WellPlanned(shot: Shot, plan: Plan) {
    var tasks := AllTasks(shot, plan);
    && PhaseIdsFit(shot) && PhasesValid(shot, plan, AssignedIds(shot))
    && AllFit(tasks, shot.before, |tasks|)
    && StateAt(tasks, shot.before, |tasks|) == shot.after
    && (shot.budget.Some? ==> shot.budget.value + 0.000000001 >= SecondsTo(tasks, |tasks|))
  }

  lemma NoneAndNone<T>(a: seq<T>, b: seq<T>)
    ensures a + b == [] <==> (a == [] && b == [])
  {
    assert |a + b| == |a| + |b|;
  }

  lemma {:induction false} GatheredNone(phases: seq<Id>, check: Id -> seq<Error>)
    ensures Gathered(phases, check) == [] <==> forall i :: 0 <= i < |phases| ==> check(phases[i]) == []
  {
    if phases != [] {
      var before, last := phases[..|phases| - 1], phases[|phases| - 1];
      GatheredNone(before, check);
      NoneAndNone(Gathered(before, check), check(last));
    }
  }

  lemma PhaseErrorsExact(shot: Shot, plan: Plan, phases: seq<Id>)
    ensures PhaseErrors(shot, plan, phases) == [] <==> PhasesValid(shot, plan, phases)
  {
    var check := p => PhaseError(shot, plan, p);
    GatheredNone(phases, check);
    forall i | 0 <= i < |phases| ensures check(phases[i]) == [] <==> ValidPhase(shot, plan, phases[i]) {
    }
  }

  lemma TurnErrorsExact(t: Task, state: set<Fact>)
    ensures TurnErrors(t, state) == [] <==> Fits(t, state)
  {
    if t.Task? {
      var d, n := DeliveryErrors(t), NeedErrors(t, state);
      forall f | f in t.needs && f !in state ensures t.needs - state != {} {
        assert f in t.needs - state;
      }
      NoneAndNone(d + n, if t.completionGiven then [] else [CompletionMissing(t.id)]);
      NoneAndNone(d, n);
    }
  }

  lemma {:induction false} ReplayedState(tasks: seq<Task>, start: Replay, k: nat)
    requires k <= |tasks|
    ensures var r := Replayed(tasks[..k], start);
            r.state == StateAt(tasks, start.state, k) && r.seconds == start.seconds + SecondsTo(tasks, k)
  {
    if k > 0 {
      ReplayedState(tasks, start, k - 1);
      assert tasks[..k][..k - 1] == tasks[..k - 1];
    }
  }

  lemma OneMoreFits(tasks: seq<Task>, before: set<Fact>, k: nat)
    requires k < |tasks|
    ensures AllFit(tasks, before, k + 1) <==> (AllFit(tasks, before, k) && Fits(tasks[k], StateAt(tasks, before, k)))
  {
  }

  lemma {:induction false} ReplayedErrors(tasks: seq<Task>, start: Replay, k: nat)
    requires k <= |tasks|
    ensures Replayed(tasks[..k], start).errors == [] <==> (start.errors == [] && AllFit(tasks, start.state, k))
  {
    if k > 0 {
      ReplayedErrors(tasks, start, k - 1);
      ReplayedState(tasks, start, k - 1);
      assert tasks[..k][..k - 1] == tasks[..k - 1];
      var r := Replayed(tasks[..k - 1], start);
      TurnErrorsExact(tasks[k - 1], r.state);
      NoneAndNone(r.errors, TurnErrors(tasks[k - 1], r.state));
      OneMoreFits(tasks, start.state, k - 1);
    }
  }

  lemma FinalErrorsExact(shot: Shot, r: Replay)
    ensures FinalErrors(shot, r) == []
      <==> (r.state == shot.after && (shot.budget.Some? ==> shot.budget.value + 0.000000001 >= r.seconds))
  {
    NoneAndNone(if r.state != shot.after then [StateDrift] else [],
                if shot.budget.Some? && shot.budget.value + 0.000000001 < r.seconds then [BudgetUnderstated] else []);
  }

  /** For a shot with actions the profile reports no error exactly when every started action
      finds its preconditions, the replay ends in the declared facts, the phases and
      references are in order, and the budget covers the phases' minima. */
  lemma NoErrorExact(shot: Shot, plan: Plan)
    requires TaskIds(shot) != []
    ensures ProfileOf(shot, Some(plan)).errors == [] <==> WellPlanned(shot, plan)
    ensures ProfileOf(shot, Some(plan)).seconds == SecondsTo(AllTasks(shot, plan), |AllTasks(shot, plan)|)
  {
    var tasks, r := AllTasks(shot, plan), ReplayOf(shot, plan);
    var start := Replay(0, 0.0, shot.before, PhaseErrors(shot, plan, AssignedIds(shot)));
    assert tasks[..|tasks|] == tasks;
    ReplayedState(tasks, start, |tasks|);
    ReplayedErrors(tasks, start, |tasks|);
    PhaseErrorsExact(shot, plan, AssignedIds(shot));
    FinalErrorsExact(shot, r);
    NoneAndNone(r.errors, FinalErrors(shot, r));
    NoneAndNone(AssignmentErrors(shot), r.errors + FinalErrors(shot, r));
  }

  /** A shot without actions is held to nothing but the absence of phases: its declared facts
      are not compared. */
  lemma NoActionsExact(shot: Shot, plan: Plan)
    requires TaskIds(shot) == []
    ensures ProfileOf(shot, Some(plan)).errors == [] <==> (PhaseIdsFit(shot) && AssignedIds(shot) == [])
  {
    NoneAndNone(AssignmentErrors(shot), if AssignedIds(shot) != [] then [PhaseWithoutAction] else []);
  }

  // ----- Each assigned phase is charged once -----

  /** How many of some lists hold a phase. */
  function Listings(lists: seq<set<Id>>, phase: Id): nat {
    if lists == [] then 0
    else Listings(lists[..|lists| - 1], phase) + (if phase in lists[|lists| - 1] then 1 else 0)
  }

  /** Charging list by list, and charging phase by phase. */
  function ByList(lists: seq<set<Id>>, phases: seq<Id>): nat {
    if lists == [] then 0 else ByList(lists[..|lists| - 1], phases) + |Delivered(phases, lists[|lists| - 1])|
  }

  function ByPhase(lists: seq<set<Id>>, phases: seq<Id>): nat {
    if phases == [] then 0 else ByPhase(lists, phases[..|phases| - 1]) + Listings(lists, phases[|phases| - 1])
  }

  function CostByList(lists: seq<set<Id>>, phases: seq<Id>, cost: Id -> real): real {
    if lists == [] then 0.0
    else CostByList(lists[..|lists| - 1], phases, cost) + Total(Delivered(phases, lists[|lists| - 1]), cost)
  }

  function Times(n: nat, s: real): real {
    if n == 0 then 0.0 else Times(n - 1, s) + s
  }

  function CostByPhase(lists: seq<set<Id>>, phases: seq<Id>, cost: Id -> real): real {
    if phases == [] then 0.0
    else
      var last := phases[|phases| - 1];
      CostByPhase(lists, phases[..|phases| - 1], cost) + Times(Listings(lists, last), cost(last))
  }

  lemma {:induction false} NoLists(phases: seq<Id>, cost: Id -> real)
    ensures ByPhase([], phases) == 0 && CostByPhase([], phases, cost) == 0.0
  {
    if phases != [] {
      NoLists(phases[..|phases| - 1], cost);
    }
  }

  lemma LastTotal(phases: seq<Id>, phase: Id, cost: Id -> real)
    ensures Total(phases + [phase], cost) == Total(phases, cost) + cost(phase)
  {
    assert (phases + [phase])[..|phases|] == phases;
  }

  lemma {:induction false} OneMoreList(lists: seq<set<Id>>, ids: set<Id>, phases: seq<Id>, cost: Id -> real)
    ensures ByPhase(lists + [ids], phases) == ByPhase(lists, phases) + |Delivered(phases, ids)|
    ensures CostByPhase(lists + [ids], phases, cost)
              == CostByPhase(lists, phases, cost) + Total(Delivered(phases, ids), cost)
    decreases |phases|
  {
    if phases != [] {
      var before, last := phases[..|phases| - 1], phases[|phases| - 1];
      OneMoreList(lists, ids, before, cost);
      assert (lists + [ids])[..|lists|] == lists;
      LastTotal(Delivered(before, ids), last, cost);
      assert last !in ids ==> Delivered(phases, ids) == Delivered(before, ids);
      var n := Listings(lists, last);
      assert Listings(lists + [ids], last) == n + (if last in ids then 1 else 0);
      assert Times(n + 1, cost(last)) == Times(n, cost(last)) + cost(last);
    }
  }

  lemma {:induction false} ListsAreFubini(lists: seq<set<Id>>, phases: seq<Id>, cost: Id -> real)
    ensures ByList(lists, phases) == ByPhase(lists, phases)
    ensures CostByList(lists, phases, cost) == CostByPhase(lists, phases, cost)
    decreases |lists|
  {
    if lists == [] {
      NoLists(phases, cost);
    } else {
      var before, last := lists[..|lists| - 1], lists[|lists| - 1];
      ListsAreFubini(before, phases, cost);
      OneMoreList(before, last, phases, cost);
      assert before + [last] == lists;
    }
  }

  predicate ListedOnce(lists: seq<set<Id>>, phases: seq<Id>) {
    forall i :: 0 <= i < |phases| ==> Listings(lists, phases[i]) == 1
  }

  lemma {:induction false} OnceEach(lists: seq<set<Id>>, phases: seq<Id>, cost: Id -> real)
    requires forall i :: 0 <= i < |phases| ==> Listings(lists, phases[i]) >= 1
    ensures ByPhase(lists, phases) >= |phases|
    ensures (ByPhase(lists, phases) == |phases|) == ListedOnce(lists, phases)
    ensures ListedOnce(lists, phases) ==> CostByPhase(lists, phases, cost) == Total(phases, cost)
    decreases |phases|
  {
    if phases != [] {
      var before, last := phases[..|phases| - 1], phases[|phases| - 1];
      OnceEach(lists, before, cost);
      assert ListedOnce(lists, phases) <==> (ListedOnce(lists, before) && Listings(lists, last) == 1);
      assert Times(1, cost(last)) == Times(0, cost(last)) + cost(last);
    }
  }

  function ListOf(t: Task): set<Id> {
    if t.Task? then t.phases else {}
  }

  function ListsOf(tasks: seq<Task>): (r: seq<set<Id>>)
    ensures |r| == |tasks| && forall k :: 0 <= k < |tasks| ==> r[k] == ListOf(tasks[k])
  {
    seq(|tasks|, k requires 0 <= k < |tasks| => ListOf(tasks[k]))
  }

  function Phaseless(tasks: seq<Task>): nat {
    if tasks == [] then 0
    else
      var last := tasks[|tasks| - 1];
      Phaseless(tasks[..|tasks| - 1]) + (if last.Task? && last.phaseless then 1 else 0)
  }

  /** What TaskOf sees to. */
  predicate Faithful(t: Task, phases: seq<Id>, cost: Id -> real) {
    t.Task? ==>
      && t.delivered == Delivered(phases, t.phases) && t.seconds == Total(t.delivered, cost)
      && (t.phaseless ==> t.phases == {})
  }

  lemma {:induction false} DeliversNone(phases: seq<Id>)
    ensures Delivered(phases, {}) == []
  {
    if phases != [] {
      DeliversNone(phases[..|phases| - 1]);
    }
  }

  lemma {:induction false} ChargedByList(tasks: seq<Task>, start: Replay, phases: seq<Id>, cost: Id -> real)
    requires forall k :: 0 <= k < |tasks| ==> Faithful(tasks[k], phases, cost)
    requires forall k :: 0 <= k < |tasks| ==> tasks[k].Task? && (tasks[k].phaseless ==> !tasks[k].supporting)
    ensures var r := Replayed(tasks, start);
            && r.count == start.count + ByList(ListsOf(tasks), phases) + Phaseless(tasks)
            && r.seconds == start.seconds + CostByList(ListsOf(tasks), phases, cost)
    decreases |tasks|
  {
    if tasks != [] {
      var before, last := tasks[..|tasks| - 1], tasks[|tasks| - 1];
      ChargedByList(before, start, phases, cost);
      assert ListsOf(tasks)[..|tasks| - 1] == ListsOf(before);
      assert Faithful(last, phases, cost);
      DeliversNone(phases);
    }
  }

  // ----- A valid phase is listed by one of the shot's actions -----

  lemma {:induction false} PhaseFound(phases: seq<Phase>, id: Id)
    requires PhaseIn(phases, id).Some?
    ensures exists p :: p in phases && Strip(p.id) == id
  {
    var last := phases[|phases| - 1];
    if id != "" && Strip(last.id) == id {
      assert last in phases;
    } else {
      PhaseFound(phases[..|phases| - 1], id);
      var p :| p in phases[..|phases| - 1] && Strip(p.id) == id;
      assert p in phases;
    }
  }

  /** Action ids are told apart. */
  predicate UniqueActions(plan: Plan) {
    forall i, j :: 0 <= i < j < |plan| ==> Strip(plan[i].id) != Strip(plan[j].id)
  }

  lemma {:induction false} OwnerListsPhase(plan: Plan, id: Id)
    requires PhaseOf(plan, id).Some?
    ensures var a := PhaseOf(plan, id).value.0; a in plan && id in PhaseIdsOf(a)
  {
    var last := plan[|plan| - 1];
    if PhaseIn(last.phases, id).Some? {
      PhaseFound(last.phases, id);
      assert last in plan;
    } else {
      OwnerListsPhase(plan[..|plan| - 1], id);
    }
  }

  lemma {:induction false} FoundByOwnId(plan: Plan, a: Action)
    requires UniqueActions(plan) && a in plan && Strip(a.id) != ""
    ensures ActionOf(plan, Strip(a.id)) == Some(a)
  {
    var last := |plan| - 1;
    if plan[last] != a {
      var i :| 0 <= i < |plan| && plan[i] == a;
      assert Strip(plan[i].id) != Strip(plan[last].id);
      assert plan[..last][i] == a;
      FoundByOwnId(plan[..last], a);
    }
  }

  lemma {:induction false} FoundIsNamed(plan: Plan, id: Id)
    requires ActionOf(plan, id).Some?
    ensures id != "" && Strip(ActionOf(plan, id).value.id) == id
  {
    var last := plan[|plan| - 1];
    if !(id != "" && Strip(last.id) == id) {
      FoundIsNamed(plan[..|plan| - 1], id);
    }
  }

  lemma {:induction false} ListedSomewhere(lists: seq<set<Id>>, phase: Id, m: nat)
    requires m < |lists| && phase in lists[m]
    ensures Listings(lists, phase) >= 1
  {
    if m < |lists| - 1 {
      ListedSomewhere(lists[..|lists| - 1], phase, m);
    }
  }

  lemma TaskIsFaithful(shot: Shot, plan: Plan, id: Id)
    ensures Faithful(TaskOf(shot, plan, id), AssignedIds(shot), p => Seconds(shot, plan, p))
  {
  }

  lemma ValidMeansListed(shot: Shot, plan: Plan, phase: Id)
    requires ValidPhase(shot, plan, phase) && UniqueActions(plan)
    requires forall k :: 0 <= k < |AllTasks(shot, plan)| ==> AllTasks(shot, plan)[k].Task?
    ensures Listings(ListsOf(AllTasks(shot, plan)), phase) >= 1
  {
    var a := PhaseOf(plan, phase).value.0;
    OwnerListsPhase(plan, phase);
    var m :| 0 <= m < |TaskIds(shot)| && TaskIds(shot)[m] == Strip(a.id);
    assert AllTasks(shot, plan)[m].Task?;
    FoundIsNamed(plan, TaskIds(shot)[m]);
    FoundByOwnId(plan, a);
    ListedSomewhere(ListsOf(AllTasks(shot, plan)), phase, m);
  }

  lemma FittingTasks(shot: Shot, plan: Plan)
    requires AllFit(AllTasks(shot, plan), shot.before, |AllTasks(shot, plan)|)
    ensures var tasks := AllTasks(shot, plan);
            forall k :: 0 <= k < |tasks| ==> tasks[k].Task? && (tasks[k].phaseless ==> !tasks[k].supporting)
    ensures forall k :: 0 <= k < |AllTasks(shot, plan)| ==>
              Faithful(AllTasks(shot, plan)[k], AssignedIds(shot), p => Seconds(shot, plan, p))
  {
    var tasks := AllTasks(shot, plan);
    forall k | 0 <= k < |tasks|
      ensures tasks[k].Task? && (tasks[k].phaseless ==> !tasks[k].supporting)
      ensures Faithful(tasks[k], AssignedIds(shot), p => Seconds(shot, plan, p))
    {
      assert Fits(tasks[k], StateAt(tasks, shot.before, k));
      TaskIsFaithful(shot, plan, TaskIds(shot)[k]);
    }
  }

  /** Without an error, each assigned phase is charged as often as the actions found for the
      shot's ids list it, in the count and in the seconds. */
  lemma ChargesExact(shot: Shot, plan: Plan)
    requires TaskIds(shot) != [] && ProfileOf(shot, Some(plan)).errors == []
    ensures var p, phases, tasks := ProfileOf(shot, Some(plan)), AssignedIds(shot), AllTasks(shot, plan);
            && p.count == ByPhase(ListsOf(tasks), phases) + Phaseless(tasks)
            && p.seconds == CostByPhase(ListsOf(tasks), phases, p => Seconds(shot, plan, p))
  {
    var phases, tasks := AssignedIds(shot), AllTasks(shot, plan);
    var cost := p => Seconds(shot, plan, p);
    var start := Replay(0, 0.0, shot.before, PhaseErrors(shot, plan, phases));
    NoErrorExact(shot, plan);
    FittingTasks(shot, plan);
    ChargedByList(tasks, start, phases, cost);
    ListsAreFubini(ListsOf(tasks), phases, cost);
  }

  /** If action ids are told apart as well, each assigned phase is charged exactly once exactly
      when none is listed by two of the shot's actions. */
  lemma EachPhaseChargedOnceExact(shot: Shot, plan: Plan)
    requires TaskIds(shot) != [] && UniqueActions(plan) && ProfileOf(shot, Some(plan)).errors == []
    ensures var p, phases, tasks := ProfileOf(shot, Some(plan)), AssignedIds(shot), AllTasks(shot, plan);
            && p.count >= |phases| + Phaseless(tasks)
            && (p.count == |phases| + Phaseless(tasks)) == ListedOnce(ListsOf(tasks), phases)
            && (ListedOnce(ListsOf(tasks), phases) ==> p.seconds == Total(phases, p => Seconds(shot, plan, p)))
  {
    var phases, tasks := AssignedIds(shot), AllTasks(shot, plan);
    NoErrorExact(shot, plan);
    FittingTasks(shot, plan);
    ChargesExact(shot, plan);
    forall i | 0 <= i < |phases| ensures Listings(ListsOf(tasks), phases[i]) >= 1 {
      ValidMeansListed(shot, plan, phases[i]);
    }
    OnceEach(ListsOf(tasks), phases, p => Seconds(shot, plan, p));
  }

  /** No phase id is listed by two actions. */
  predicate UniquePhases(plan: Plan) {
    forall i, j :: 0 <= i < j < |plan| ==> PhaseIdsOf(plan[i]) !! PhaseIdsOf(plan[j])
  }

  lemma {:induction false} DistinctIdsDiffer(ids: seq<Id>)
    ensures forall i, j :: 0 <= i < j < |Distinct(ids)| ==> Distinct(ids)[i] != Distinct(ids)[j]
  {
    if ids != [] {
      DistinctIdsDiffer(ids[..|ids| - 1]);
    }
  }

  lemma {:induction false} FoundIsThere(plan: Plan, id: Id) returns (i: nat)
    requires ActionOf(plan, id).Some?
    ensures i < |plan| && plan[i] == ActionOf(plan, id).value && Strip(plan[i].id) == id
  {
    i := |plan| - 1;
    if !(id != "" && Strip(plan[i].id) == id) {
      i := FoundIsThere(plan[..i], id);
    }
  }

  lemma {:induction false} AtMostOnce(lists: seq<set<Id>>, phase: Id)
    requires forall k, m :: 0 <= k < m < |lists| ==> !(phase in lists[k] && phase in lists[m])
    ensures Listings(lists, phase) <= 1
    ensures (forall k :: 0 <= k < |lists| ==> phase !in lists[k]) ==> Listings(lists, phase) == 0
  {
    if lists != [] {
      var before := lists[..|lists| - 1];
      AtMostOnce(before, phase);
      assert forall k :: 0 <= k < |before| ==> before[k] == lists[k];
      assert phase in lists[|lists| - 1] ==> forall k :: 0 <= k < |before| ==> phase !in before[k];
    }
  }

  lemma OneTaskLists(shot: Shot, plan: Plan, phase: Id, k: nat, m: nat)
    requires UniquePhases(plan) && k < m < |AllTasks(shot, plan)|
    ensures !(phase in ListOf(AllTasks(shot, plan)[k]) && phase in ListOf(AllTasks(shot, plan)[m]))
  {
    var ids := TaskIds(shot);
    if ActionOf(plan, ids[k]).Some? && ActionOf(plan, ids[m]).Some? {
      var i := FoundIsThere(plan, ids[k]);
      var j := FoundIsThere(plan, ids[m]);
      DistinctIdsDiffer((if shot.primary.Some? && shot.primary.value != "" then [Strip(shot.primary.value)] else [])
                   + NonEmpty(Stripped(shot.supporting)));
      assert ids[k] != ids[m] && i != j;
    }
  }

  /** With unique action and phase ids each assigned phase is charged exactly once. */
  lemma UniqueIdsChargeOnce(shot: Shot, plan: Plan)
    requires TaskIds(shot) != [] && UniqueActions(plan) && UniquePhases(plan)
    requires ProfileOf(shot, Some(plan)).errors == []
    ensures var p, phases := ProfileOf(shot, Some(plan)), AssignedIds(shot);
            && p.count == |phases| + Phaseless(AllTasks(shot, plan))
            && p.seconds == Total(phases, p => Seconds(shot, plan, p))
  {
    var phases, tasks := AssignedIds(shot), AllTasks(shot, plan);
    NoErrorExact(shot, plan);
    FittingTasks(shot, plan);
    forall n | 0 <= n < |phases| ensures Listings(ListsOf(tasks), phases[n]) == 1 {
      ValidMeansListed(shot, plan, phases[n]);
      forall k, m | 0 <= k < m < |ListsOf(tasks)|
        ensures !(phases[n] in ListsOf(tasks)[k] && phases[n] in ListsOf(tasks)[m])
      {
        OneTaskLists(shot, plan, phases[n], k, m);
      }
      AtMostOnce(ListsOf(tasks), phases[n]);
    }
    EachPhaseChargedOnceExact(shot, plan);
  }

  /** Of two actions with one id the first is shadowed: its phases are valid, and charged
      nothing. */
  lemma ShadowedPhaseIsFree(shot: Shot, first: Action, second: Action, id: Id, phase: Id)
    requires shot.primary == Some(id) && shot.supporting == [] && id != "" && Strip(id) == id
    requires Strip(first.id) == id && Strip(second.id) == id
    requires PhaseIn(first.phases, phase).Some? && phase !in PhaseIdsOf(second)
    ensures ValidPhase(shot, [first, second], phase)
    ensures Listings(ListsOf(AllTasks(shot, [first, second])), phase) == 0
  {
    var plan, ids := [first, second], TaskIds(shot);
    var all := [Strip(shot.primary.value)] + NonEmpty(Stripped(shot.supporting));
    assert all == [id] && all[..0] == [] && Distinct(all) == [id];
    assert plan[..1] == [first];
    assert ActionOf(plan, id) == Some(second);
    if PhaseIn(second.phases, phase).Some? {
      PhaseFound(second.phases, phase);
    }
    assert PhaseOf(plan, phase) == PhaseOf([first], phase);
    var lists := ListsOf(AllTasks(shot, plan));
    assert lists == [PhaseIdsOf(second)] && lists[..0] == [];
  }
}
