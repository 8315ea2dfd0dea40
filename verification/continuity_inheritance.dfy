/** Inheritance of structured continuity state along a board (app/continuity.py): what a
    shot leaves unsaid about the scene, the characters and the props is taken from the shot
    before.

    An entity's fields are maps by name; `explicit` is the set of its string and plain
    fields that were ever assigned (pydantic's model_fields_set), which the merge consults.
    Whether a shot stays in the scene and time of the one before is given with the shot. */
module ContinuityInheritance {
  import opened Wrappers
  import opened PythonText

  type Field = string
  type Name = string

  /** `notes` is a dict-valued field (the landmarks of a scene), `flags` the plain fields. */
  datatype Entity = Entity(
    texts: map<Field, string>,
    notes: map<string, string>,
    flags: map<Field, Option<bool>>,
    explicit: set<Field>)

  datatype State = State(scene: Entity, characters: map<Name, Entity>, props: map<Name, Entity>)

  datatype Shot = Shot(stateIn: Option<State>, stateOut: Option<State>, sameContext: bool, reverseAngle: bool)

  const DEFAULT_SCENE := Entity(
    map["scene_revision_id" := "", "time_of_day" := "", "lighting_state" := "", "axis_id" := ""], map[], map[], {})

  const NO_STATE := State(DEFAULT_SCENE, map[], map[])

  function Else(s: Option<State>): State {
    if s.Some? then s.value else NO_STATE
  }

  // ----- Merging -----

  function TextOf(e: Entity, f: Field): string {
    if f in e.texts then e.texts[f] else ""
  }

  /** The overlay's text counts if it is not blank and was set on purpose, or if there is
      nothing to override. */
  predicate Takes(was: Entity, overlay: Entity, f: Field) {
    f in overlay.texts && !Blank(overlay.texts[f]) && (f in overlay.explicit || Blank(TextOf(was, f)))
  }

  predicate TakesFlag(overlay: Entity, f: Field) {
    f in overlay.flags && f in overlay.explicit
  }

  predicate TakesNote(overlay: Entity, k: string) {
    k in overlay.notes && !Blank(overlay.notes[k])
  }

  /** What some fields of the overlay put in. */
  function TextsTaken(was: Entity, overlay: Entity, fields: set<Field>): map<Field, string> {
    map f | f in overlay.texts && f in fields && Takes(was, overlay, f) :: Strip(overlay.texts[f])
  }

  function NotesTaken(overlay: Entity): map<string, string> {
    map k | k in overlay.notes && TakesNote(overlay, k) :: overlay.notes[k]
  }

  function FlagsTaken(overlay: Entity): map<Field, Option<bool>> {
    map f | f in overlay.flags && TakesFlag(overlay, f) :: overlay.flags[f]
  }

  function MergedOver(was: Entity, overlay: Entity, fields: set<Field>): Entity {
    var taken := TextsTaken(was, overlay, fields);
    was.(texts := was.texts + taken, explicit := was.explicit + taken.Keys)
  }

  function Merged(was: Entity, overlay: Entity): Entity {
    var m := MergedOver(was, overlay, overlay.texts.Keys);
    m.(notes := m.notes + NotesTaken(overlay),
       flags := m.flags + FlagsTaken(overlay), explicit := m.explicit + FlagsTaken(overlay).Keys)
  }

  function MergedAll(was: map<Name, Entity>, overlay: map<Name, Entity>): map<Name, Entity> {
    was + NamesTaken(was, overlay, overlay.Keys)
  }

  function MergedState(was: State, overlay: State): State {
    State(Merged(was.scene, overlay.scene),
          MergedAll(was.characters, overlay.characters),
          MergedAll(was.props, overlay.props))
  }

  const GEOMETRY: set<Field> := {"screen_side", "pose", "facing", "gaze_target"}

  function Uprooted(e: Entity): Entity {
    e.(texts := e.texts + (map f | f in GEOMETRY :: ""), explicit := e.explicit + GEOMETRY)
  }

  /** _carried_state_across_scene. */
  function Carried(s: State): State {
    State(DEFAULT_SCENE, map n | n in s.characters :: Uprooted(s.characters[n]), s.props)
  }

  /** inherit_structured_continuity_state, given the state at the end of the shot before. */
  function Inherited(shot: Shot, before: Option<State>): Shot {
    var stateIn :=
      if before.None? then Else(shot.stateIn)
      else MergedState(if shot.sameContext then before.value else Carried(before.value), Else(shot.stateIn));
    shot.(stateIn := Some(stateIn), stateOut := Some(MergedState(stateIn, Else(shot.stateOut))))
  }

  function EndOf(board: seq<Shot>): Option<State> {
    if board == [] then None else Some(Else(board[|board| - 1].stateOut))
  }

  /** A left-to-right pass, each step seeing what came out so far. */
  function Scanned<S>(xs: seq<S>, step: (S, seq<S>) -> S): (r: seq<S>)
    ensures |r| == |xs|
  {
    if xs == [] then []
    else
      var done := Scanned(xs[..|xs| - 1], step);
      done + [step(xs[|xs| - 1], done)]
  }

  function InheritedAfter(shot: Shot, done: seq<Shot>): Shot {
    Inherited(shot, EndOf(done))
  }

  /** The pass over a board. */
  function Normalized(board: seq<Shot>): (n: seq<Shot>)
    ensures |n| == |board|
  {
    Scanned(board, InheritedAfter)
  }

  lemma {:induction false} ScannedPrefix<S>(xs: seq<S>, step: (S, seq<S>) -> S, i: nat)
    requires i <= |xs|
    ensures Scanned(xs, step)[..i] == Scanned(xs[..i], step)
    decreases |xs|
  {
    if i < |xs| {
      ScannedPrefix(xs[..|xs| - 1], step, i);
      assert xs[..|xs| - 1][..i] == xs[..i];
    } else {
      assert xs[..i] == xs;
    }
  }

  lemma ScannedAt<S>(xs: seq<S>, step: (S, seq<S>) -> S, i: nat)
    requires i < |xs|
    ensures Scanned(xs, step)[i] == step(xs[i], Scanned(xs, step)[..i])
  {
    ScannedPrefix(xs, step, i);
    ScannedPrefix(xs, step, i + 1);
    assert xs[..i + 1][..i] == xs[..i];
    assert Scanned(xs, step)[i] == Scanned(xs, step)[..i + 1][i];
  }

  // ----- The code -----

  lemma TakenStep(was: Entity, overlay: Entity, fields: set<Field>, f: Field)
    requires f in overlay.texts && f !in fields
    ensures f !in TextsTaken(was, overlay, fields) && TextsTaken(was, overlay, {}) == map[]
    ensures TextsTaken(was, overlay, fields + {f})
              == if Takes(was, overlay, f) then TextsTaken(was, overlay, fields)[f := Strip(overlay.texts[f])]
                 else TextsTaken(was, overlay, fields)
  {
  }

  lemma MergeStep(was: Entity, overlay: Entity, fields: set<Field>, f: Field)
    requires f in overlay.texts && f !in fields
    ensures TextOf(MergedOver(was, overlay, fields), f) == TextOf(was, f)
    ensures var m := MergedOver(was, overlay, fields);
            MergedOver(was, overlay, fields + {f})
              == if Takes(was, overlay, f)
                 then m.(texts := m.texts[f := Strip(overlay.texts[f])], explicit := m.explicit + {f}) else m
  {
    TakenStep(was, overlay, fields, f);
    MapGrows(was.texts, TextsTaken(was, overlay, fields), f, Strip(overlay.texts[f]));
    assert was.explicit + (TextsTaken(was, overlay, fields).Keys + {f})
             == was.explicit + TextsTaken(was, overlay, fields).Keys + {f};
  }

  lemma MapGrows<K, V>(a: map<K, V>, b: map<K, V>, k: K, v: V)
    ensures a + b[k := v] == (a + b)[k := v] && b[k := v].Keys == b.Keys + {k}
  {
  }

  lemma MergeNothing(was: Entity, overlay: Entity)
    ensures MergedOver(was, overlay, {}) == was
  {
    assert TextsTaken(was, overlay, {}) == map[];
    assert was.texts + map[] == was.texts;
  }

  /** The loop of _merge_structured_entity over the string fields. */
  method MergeTexts(was: Entity, overlay: Entity) returns (merged: Entity)
    ensures merged == MergedOver(was, overlay, overlay.texts.Keys)
  {
    merged := was;
    var todo := overlay.texts.Keys;
    ghost var done: set<Field> := {};
    MergeNothing(was, overlay);
    while todo != {}
      invariant done + todo == overlay.texts.Keys && done !! todo
      invariant merged == MergedOver(was, overlay, done)
      decreases |todo|
    {
      var f :| f in todo;
      StripStrips(overlay.texts[f]);
      MergeStep(was, overlay, done, f);
      if Strip(overlay.texts[f]) != "" && (f in overlay.explicit || Blank(TextOf(merged, f))) {
        merged := merged.(texts := merged.texts[f := Strip(overlay.texts[f])], explicit := merged.explicit + {f});
      }
      todo, done := todo - {f}, done + {f};
    }
  }

  method MergeEntity(was: Entity, overlay: Entity) returns (merged: Entity)
    ensures merged == Merged(was, overlay)
  {
    merged := MergeTexts(was, overlay);
    if overlay.notes != map[] {
      merged := merged.(notes := merged.notes + NotesTaken(overlay));
    } else {
      assert merged.notes + NotesTaken(overlay) == merged.notes;
    }
    var flags := FlagsTaken(overlay);
    merged := merged.(flags := merged.flags + flags, explicit := merged.explicit + flags.Keys);
  }

  function NamesTaken(was: map<Name, Entity>, overlay: map<Name, Entity>, names: set<Name>): map<Name, Entity> {
    map n | n in overlay && n in names :: OneMerged(was, overlay, n)
  }

  function OneMerged(was: map<Name, Entity>, overlay: map<Name, Entity>, n: Name): Entity
    requires n in overlay
  {
    if n in was then Merged(was[n], overlay[n]) else overlay[n]
  }

  lemma NameStep(was: map<Name, Entity>, overlay: map<Name, Entity>, names: set<Name>, n: Name)
    requires n in overlay && n !in names
    ensures var m := was + NamesTaken(was, overlay, names); (n in m <==> n in was) && (n in m ==> m[n] == was[n])
    ensures was + NamesTaken(was, overlay, names + {n})
              == (was + NamesTaken(was, overlay, names))[n := OneMerged(was, overlay, n)]
  {
    assert NamesTaken(was, overlay, names + {n}) == NamesTaken(was, overlay, names)[n := OneMerged(was, overlay, n)];
    MapGrows(was, NamesTaken(was, overlay, names), n, OneMerged(was, overlay, n));
  }

  method MergeOne(merged: map<Name, Entity>, n: Name, entity: Entity) returns (r: map<Name, Entity>)
    ensures r == merged[n := if n in merged then Merged(merged[n], entity) else entity]
  {
    if n in merged {
      var e := MergeEntity(merged[n], entity);
      return merged[n := e];
    }
    return merged[n := entity];
  }

  /** The loops of _merge_structured_state. */
  method MergeAll(was: map<Name, Entity>, overlay: map<Name, Entity>) returns (merged: map<Name, Entity>)
    ensures merged == MergedAll(was, overlay)
  {
    merged := was;
    var todo := overlay.Keys;
    ghost var done: set<Name> := {};
    NoNames(was, overlay);
    while todo != {}
      invariant done + todo == overlay.Keys && done !! todo
      invariant merged == was + NamesTaken(was, overlay, done)
      decreases |todo|
    {
      var n :| n in todo;
      NameStep(was, overlay, done, n);
      merged := MergeOne(merged, n, overlay[n]);
      todo, done := todo - {n}, done + {n};
    }
    assert done == overlay.Keys;
  }

  lemma NoNames(was: map<Name, Entity>, overlay: map<Name, Entity>)
    ensures was + NamesTaken(was, overlay, {}) == was
  {
  }

  method MergeState(was: State, overlay: State) returns (merged: State)
    ensures merged == MergedState(was, overlay)
  {
    var scene := MergeEntity(was.scene, overlay.scene);
    var characters := MergeAll(was.characters, overlay.characters);
    var props := MergeAll(was.props, overlay.props);
    merged := State(scene, characters, props);
  }

  class Storyboard {
    var shots: array<Shot>

    /** inherit_structured_continuity_state. */
    method Inherit(i: nat)
      requires i < shots.Length
      modifies shots
      ensures shots[..] == old(shots[..])[i := Inherited(old(shots[i]), EndOf(old(shots[..i])))]
    {
      var stateIn := Else(shots[i].stateIn);
      if i > 0 {
        var base := Else(shots[i - 1].stateOut);
        assert EndOf(shots[..i]) == Some(base);
        if !shots[i].sameContext {
          base := Carried(base);
        }
        stateIn := MergeState(base, stateIn);
      }
      var stateOut := MergeState(stateIn, Else(shots[i].stateOut));
      shots[i] := shots[i].(stateIn := Some(stateIn), stateOut := Some(stateOut));
    }

    /** normalize_board_continuity, as far as the structured state goes. */
    method Normalize()
      modifies shots
      ensures shots[..] == Normalized(old(shots[..]))
    {
      ghost var before := shots[..];
      for i := 0 to shots.Length
        invariant shots[..i] == Normalized(before[..i])
        invariant shots[i..] == before[i..]
      {
        ghost var now := shots[..];
        assert shots[i] == shots[i..][0] == before[i..][0] == before[i];
        NormalizedNext(before, i, now);
        Inherit(i);
        SplitAfter(now, i, Inherited(before[i], EndOf(Normalized(before[..i]))), before);
      }
      assert shots[..] == shots[..shots.Length] && before == before[..shots.Length];
    }
  }

  lemma NormalizedNext(before: seq<Shot>, i: nat, now: seq<Shot>)
    requires i < |before| == |now| && now[..i] == Normalized(before[..i])
    ensures Normalized(before[..i + 1]) == now[..i] + [Inherited(before[i], EndOf(now[..i]))]
    ensures i == 0 ==> EndOf(now[..i]) == None
  {
    assert before[..i + 1][..i] == before[..i];
  }

  lemma SplitAfter(now: seq<Shot>, i: nat, s: Shot, before: seq<Shot>)
    requires i < |now| == |before| && now[i..] == before[i..]
    ensures now[i := s][..i + 1] == now[..i] + [s] && now[i := s][i + 1..] == before[i + 1..]
  {
    assert now[i..][1..] == now[i + 1..] && before[i..][1..] == before[i + 1..];
  }

  // ----- Facts -----

  /** One string of a state. */
  datatype Fact =
    | SceneFact(field: Field)
    | Landmark(name: string)
    | CharacterFact(who: Name, field: Field)
    | PropFact(prop: Name, field: Field)

  function EntityOf(s: State, fact: Fact): Option<Entity> {
    match fact
    case SceneFact(_) => Some(s.scene)
    case Landmark(_) => Some(s.scene)
    case CharacterFact(who, _) => if who in s.characters then Some(s.characters[who]) else None
    case PropFact(prop, _) => if prop in s.props then Some(s.props[prop]) else None
  }

  function Value(s: State, fact: Fact): string {
    var e := EntityOf(s, fact);
    if e.None? then ""
    else if fact.Landmark? then (if fact.name in e.value.notes then e.value.notes[fact.name] else "")
    else TextOf(e.value, fact.field)
  }

  /** The state itself says something new about the fact. */
  predicate Declares(s: State, fact: Fact) {
    var e := EntityOf(s, fact);
    && e.Some?
    && if fact.Landmark? then TakesNote(e.value, fact.name)
       else fact.field in e.value.texts && fact.field in e.value.explicit && !Blank(e.value.texts[fact.field])
  }

  /** What a scene change drops. */
  predicate Dropped(fact: Fact) {
    fact.SceneFact? || fact.Landmark? || (fact.CharacterFact? && fact.field in GEOMETRY)
  }

  lemma MergedTexts(was: Entity, overlay: Entity, f: Field)
    ensures TextOf(Merged(was, overlay), f)
              == if Takes(was, overlay, f) then Strip(overlay.texts[f]) else TextOf(was, f)
  {
  }

  lemma MergedNotes(was: Entity, overlay: Entity, k: string)
    ensures var m := Merged(was, overlay);
            && (k in m.notes <==> k in was.notes || TakesNote(overlay, k))
            && (k in m.notes ==> m.notes[k] == if TakesNote(overlay, k) then overlay.notes[k] else was.notes[k])
  {
  }

  /** A fact that is there stays as it is unless the overlay declares it. */
  lemma MergeKeeps(was: State, overlay: State, fact: Fact)
    requires !Blank(Value(was, fact)) && !Declares(overlay, fact)
    ensures Value(MergedState(was, overlay), fact) == Value(was, fact)
  {
    var e := EntityOf(was, fact);
    if EntityOf(overlay, fact).Some? {
      if fact.Landmark? {
        MergedNotes(e.value, EntityOf(overlay, fact).value, fact.name);
      } else {
        MergedTexts(e.value, EntityOf(overlay, fact).value, fact.field);
      }
    }
  }

  /** A fact that is there and is declared takes the declared value, trimmed for fields. */
  lemma MergeOverrides(was: State, overlay: State, fact: Fact)
    requires EntityOf(was, fact).Some? && Declares(overlay, fact)
    ensures Value(MergedState(was, overlay), fact)
              == if fact.Landmark? then Value(overlay, fact) else Strip(Value(overlay, fact))
  {
    var e, o := EntityOf(was, fact).value, EntityOf(overlay, fact).value;
    if fact.Landmark? {
      MergedNotes(e, o, fact.name);
    } else {
      MergedTexts(e, o, fact.field);
    }
  }

  lemma CarriedKeeps(s: State, fact: Fact)
    requires !Dropped(fact)
    ensures Value(Carried(s), fact) == Value(s, fact)
  {
  }

  lemma CarriedDrops(s: State, fact: Fact)
    requires Dropped(fact)
    ensures Value(Carried(s), fact) == ""
  {
  }

  // ----- Persistence -----

  function InOf(board: seq<Shot>, i: nat): State
    requires i < |board|
  {
    Else(board[i].stateIn)
  }

  function OutOf(board: seq<Shot>, i: nat): State
    requires i < |board|
  {
    Else(board[i].stateOut)
  }

  lemma NormalizedPrefix(board: seq<Shot>, i: nat)
    requires i <= |board|
    ensures Normalized(board)[..i] == Normalized(board[..i])
  {
    ScannedPrefix(board, InheritedAfter, i);
  }

  lemma NormalizedAt(board: seq<Shot>, i: nat)
    requires i < |board|
    ensures Normalized(board)[i] == Inherited(board[i], EndOf(Normalized(board)[..i]))
  {
    ScannedAt(board, InheritedAfter, i);
  }

  /** What a shot inherits from. */
  function Base(n: seq<Shot>, i: nat): State
    requires 0 < i < |n|
  {
    if n[i].sameContext then OutOf(n, i - 1) else Carried(OutOf(n, i - 1))
  }

  lemma StatesAt(board: seq<Shot>, i: nat)
    requires i < |board|
    ensures var n := Normalized(board);
            && n[i].sameContext == board[i].sameContext && n[i].reverseAngle == board[i].reverseAngle
            && InOf(n, i) == (if i == 0 then InOf(board, 0) else MergedState(Base(n, i), InOf(board, i)))
            && OutOf(n, i) == MergedState(InOf(n, i), OutOf(board, i))
  {
    NormalizedAt(board, i);
    InheritedStates(board[i], EndOf(Normalized(board)[..i]));
    EndBefore(Normalized(board), i);
  }

  lemma InheritedStates(shot: Shot, before: Option<State>)
    ensures var s := Inherited(shot, before);
            && s.sameContext == shot.sameContext && s.reverseAngle == shot.reverseAngle
            && Else(s.stateIn) == (if before.None? then Else(shot.stateIn)
                                   else MergedState(if shot.sameContext then before.value else Carried(before.value),
                                                    Else(shot.stateIn)))
            && Else(s.stateOut) == MergedState(Else(s.stateIn), Else(shot.stateOut))
  {
  }

  lemma EndBefore(n: seq<Shot>, i: nat)
    requires i < |n|
    ensures EndOf(n[..i]) == if i == 0 then None else Some(OutOf(n, i - 1))
  {
  }

  /** Nothing between two shots touches a fact. */
  predicate Untouched(board: seq<Shot>, fact: Fact, i: nat, j: nat)
    requires i <= j < |board|
  {
    forall k :: i < k <= j ==>
      !Declares(InOf(board, k), fact) && !Declares(OutOf(board, k), fact) && (Dropped(fact) ==> board[k].sameContext)
  }

  lemma FactStep(base: State, stateIn: State, stateOut: State, fact: Fact)
    requires !Blank(Value(base, fact)) && !Declares(stateIn, fact) && !Declares(stateOut, fact)
    ensures var i := MergedState(base, stateIn);
            Value(i, fact) == Value(base, fact) && Value(MergedState(i, stateOut), fact) == Value(base, fact)
  {
    MergeKeeps(base, stateIn, fact);
    MergeKeeps(MergedState(base, stateIn), stateOut, fact);
  }

  lemma BaseKeeps(n: seq<Shot>, i: nat, fact: Fact)
    requires 0 < i < |n| && (Dropped(fact) ==> n[i].sameContext)
    ensures Value(Base(n, i), fact) == Value(OutOf(n, i - 1), fact)
  {
    if !n[i].sameContext {
      CarriedKeeps(OutOf(n, i - 1), fact);
    }
  }

  /** A fact at the end of a shot is still there, unchanged, at the end of every later shot,
      until a shot declares it anew or a scene change drops it. */
  lemma {:induction false} FactsPersist(board: seq<Shot>, fact: Fact, i: nat, j: nat)
    requires i <= j < |board| && !Blank(Value(OutOf(Normalized(board), i), fact)) && Untouched(board, fact, i, j)
    ensures Value(OutOf(Normalized(board), j), fact) == Value(OutOf(Normalized(board), i), fact)
    ensures i < j ==> Value(InOf(Normalized(board), j), fact) == Value(OutOf(Normalized(board), i), fact)
    decreases j
  {
    if i < j {
      FactsPersist(board, fact, i, j - 1);
      StatesAt(board, j);
      BaseKeeps(Normalized(board), j, fact);
      FactStep(Base(Normalized(board), j), InOf(board, j), OutOf(board, j), fact);
    }
  }

  /** Who a plain field, as a prop's being required, belongs to. */
  datatype Holder = Person(name: Name) | Thing(name: Name)

  function HeldBy(s: State, h: Holder): Option<Entity> {
    match h
    case Person(n) => if n in s.characters then Some(s.characters[n]) else None
    case Thing(n) => if n in s.props then Some(s.props[n]) else None
  }

  predicate HasFlag(s: State, h: Holder, f: Field, value: Option<bool>) {
    HeldBy(s, h).Some? && f in HeldBy(s, h).value.flags && HeldBy(s, h).value.flags[f] == value
  }

  /** The state sets the field on purpose, not by default. */
  predicate SetsFlag(s: State, h: Holder, f: Field) {
    HeldBy(s, h).Some? && f in HeldBy(s, h).value.flags && f in HeldBy(s, h).value.explicit
  }

  /** A plain field the overlay sets on purpose becomes the overlay's; any other stays. */
  lemma FlagMerged(was: State, overlay: State, h: Holder, f: Field, value: Option<bool>)
    ensures SetsFlag(overlay, h, f) && HasFlag(overlay, h, f, value) ==> HasFlag(MergedState(was, overlay), h, f, value)
    ensures !SetsFlag(overlay, h, f) && HasFlag(was, h, f, value) ==> HasFlag(MergedState(was, overlay), h, f, value)
  {
  }

  lemma FlagCarried(n: seq<Shot>, i: nat, h: Holder, f: Field, value: Option<bool>)
    requires 0 < i < |n| && HasFlag(OutOf(n, i - 1), h, f, value)
    ensures HasFlag(Base(n, i), h, f, value)
  {
  }

  /** A plain field at the end of a shot is still there at the end of every later shot, over
      scene changes and defaults, until a shot sets it on purpose. */
  lemma {:induction false} FlagsPersist(board: seq<Shot>, h: Holder, f: Field, value: Option<bool>, i: nat, j: nat)
    requires i <= j < |board| && HasFlag(OutOf(Normalized(board), i), h, f, value)
    requires forall k :: i < k <= j ==> !SetsFlag(InOf(board, k), h, f) && !SetsFlag(OutOf(board, k), h, f)
    ensures HasFlag(OutOf(Normalized(board), j), h, f, value)
    decreases j
  {
    if i < j {
      var n := Normalized(board);
      FlagsPersist(board, h, f, value, i, j - 1);
      StatesAt(board, j);
      FlagCarried(n, j, h, f, value);
      FlagMerged(Base(n, j), InOf(board, j), h, f, value);
      FlagMerged(InOf(n, j), OutOf(board, j), h, f, value);
    }
  }

  /** And what a shot sets on purpose for its end holds there. */
  lemma FlagsAreSet(board: seq<Shot>, h: Holder, f: Field, value: Option<bool>, i: nat)
    requires i < |board| && SetsFlag(OutOf(board, i), h, f) && HasFlag(OutOf(board, i), h, f, value)
    ensures HasFlag(OutOf(Normalized(board), i), h, f, value)
  {
    StatesAt(board, i);
    FlagMerged(InOf(Normalized(board), i), OutOf(board, i), h, f, value);
  }

  // ----- Boundary issues -----

  const SCENE_FIELDS: set<Field> := {"scene_revision_id", "time_of_day", "lighting_state", "axis_id"}
  const CHARACTER_FIELDS: set<Field> := {"look_revision_id", "outfit_revision_id", "left_hand", "right_hand"}
  const PROP_FIELDS: set<Field> := {"revision_id", "owner", "location", "form", "text_state"}

  predicate Required(prop: Entity) {
    ("required" in prop.flags && prop.flags["required"] == Some(true)) || TextOf(prop, "visibility") == "required"
  }

  /** Both sides say something, and not the same. */
  predicate Clash(before: State, after: State, fact: Fact) {
    var expected, actual := StateValue(Value(before, fact)), StateValue(Value(after, fact));
    expected != "" && actual != "" && expected != actual
  }

  /** The facts structured_boundary_issues compares at a boundary. */
  predicate Compared(shot: Shot, fact: Fact) {
    match fact
    case SceneFact(f) => shot.sameContext && f in SCENE_FIELDS
    case Landmark(_) => shot.sameContext
    case CharacterFact(_, f) => f in CHARACTER_FIELDS || (f == "screen_side" && !shot.reverseAngle)
    case PropFact(_, f) => f in PROP_FIELDS
  }

  predicate BoundaryIssue(before: State, after: State, shot: Shot, fact: Fact) {
    Compared(shot, fact) && Clash(before, after, fact)
  }

  predicate PropMissing(before: State, after: State, prop: Name) {
    prop in before.props && Required(before.props[prop]) && prop !in after.props
  }

  /** After the pass no boundary misses a prop. */
  lemma NoPropIsMissing(board: seq<Shot>, i: nat, prop: Name)
    requires 0 < i < |board|
    ensures var n := Normalized(board); !PropMissing(OutOf(n, i - 1), InOf(n, i), prop)
  {
    StatesAt(board, i);
  }

  /** Which facts a boundary is checked for: within a scene its revision, time, light, axis and
      landmarks; the look, outfit and hands of a character, and its side of the screen unless
      the camera turned round; the revision, owner, place, form and text of a prop. */
  lemma ComparedExact(shot: Shot, f: Field, n: Name)
    ensures Compared(shot, SceneFact(f)) <==>
              shot.sameContext
              && (f == "scene_revision_id" || f == "time_of_day" || f == "lighting_state" || f == "axis_id")
    ensures Compared(shot, Landmark(n)) <==> shot.sameContext
    ensures Compared(shot, CharacterFact(n, f)) <==>
              f == "look_revision_id" || f == "outfit_revision_id" || f == "left_hand" || f == "right_hand"
              || (f == "screen_side" && !shot.reverseAngle)
    ensures Compared(shot, PropFact(n, f)) <==>
              f == "revision_id" || f == "owner" || f == "location" || f == "form" || f == "text_state"
  {
  }

  /** Before the pass: a prop that is required, by its field or by its visibility, is missed
      where the next shot does not have it, and only then. */
  lemma MissingPropExact(before: State, after: State, prop: Name)
    ensures PropMissing(before, after, prop) <==>
              && prop in before.props && prop !in after.props
              && (HasFlag(before, Thing(prop), "required", Some(true))
                  || Value(before, PropFact(prop, "visibility")) == "required")
  {
  }

  /** The value the shot itself gave, as merged. */
  predicate FromShot(said: State, fact: Fact, here: string) {
    && EntityOf(said, fact).Some? && !Blank(Value(said, fact))
    && (here == Value(said, fact) || (!fact.Landmark? && here == Strip(Value(said, fact))))
  }

  lemma ClashMeans(before: State, after: State, fact: Fact)
    requires Clash(before, after, fact)
    ensures !Blank(Value(before, fact)) && !Blank(Value(after, fact)) && Value(before, fact) != Value(after, fact)
  {
    StateValueBlank(Value(before, fact));
    StateValueBlank(Value(after, fact));
  }

  lemma ClashFromShot(base: State, said: State, fact: Fact)
    requires var here := Value(MergedState(base, said), fact); !Blank(here) && here != Value(base, fact)
    ensures FromShot(said, fact, Value(MergedState(base, said), fact))
  {
    MergeTakesOrKeeps(base, said, fact);
  }

  lemma BaseKeepsOrDrops(n: seq<Shot>, i: nat, fact: Fact)
    requires 0 < i < |n|
    ensures Value(Base(n, i), fact) == Value(OutOf(n, i - 1), fact) || Value(Base(n, i), fact) == ""
  {
    if Dropped(fact) && !n[i].sameContext {
      CarriedDrops(OutOf(n, i - 1), fact);
    } else {
      BaseKeeps(n, i, fact);
    }
  }

  lemma ClashIsDeclared(before: State, base: State, said: State, fact: Fact)
    requires Value(base, fact) == Value(before, fact) || Value(base, fact) == ""
    requires Clash(before, MergedState(base, said), fact)
    ensures FromShot(said, fact, Value(MergedState(base, said), fact))
  {
    ClashMeans(before, MergedState(base, said), fact);
    ClashFromShot(base, said, fact);
  }

  /** Every other issue at a boundary traces to a value that the shot itself declared: the
      merged value is that value. */
  lemma IssuesAreDeclared(board: seq<Shot>, i: nat, fact: Fact)
    requires 0 < i < |board|
    requires var n := Normalized(board); BoundaryIssue(OutOf(n, i - 1), InOf(n, i), n[i], fact)
    ensures FromShot(InOf(board, i), fact, Value(InOf(Normalized(board), i), fact))
  {
    var n := Normalized(board);
    var before, after := OutOf(n, i - 1), InOf(n, i);
    assert Clash(before, after, fact);
    StateIn(board, i);
    BaseKeepsOrDrops(n, i, fact);
    ClashIsDeclared(before, Base(n, i), InOf(board, i), fact);
  }

  lemma StateIn(board: seq<Shot>, i: nat)
    requires 0 < i < |board|
    ensures InOf(Normalized(board), i) == MergedState(Base(Normalized(board), i), InOf(board, i))
  {
    StatesAt(board, i);
  }

  /** A merged value is the old one or the overlay's. */
  lemma MergeTakesOrKeeps(was: State, overlay: State, fact: Fact)
    ensures var here, said := Value(MergedState(was, overlay), fact), Value(overlay, fact);
            || here == Value(was, fact)
            || (EntityOf(overlay, fact).Some?
                && (here == said || (!Blank(said) && !fact.Landmark? && here == Strip(said))))
  {
    if EntityOf(overlay, fact).Some? && EntityOf(was, fact).Some? {
      var e, o := EntityOf(was, fact).value, EntityOf(overlay, fact).value;
      if fact.Landmark? {
        MergedNotes(e, o, fact.name);
      } else {
        MergedTexts(e, o, fact.field);
      }
    }
  }

  /** The shot gives a value that the merge takes: where the base kept the fact, one set on
      purpose; where a scene change dropped it, any that is not blank. */
  predicate Gives(said: State, fact: Fact, kept: bool) {
    if kept then Declares(said, fact) else EntityOf(said, fact).Some? && !Blank(Value(said, fact))
  }

  /** The shot gives another value for a fact that is there. */
  predicate SaysOtherwise(before: State, said: State, fact: Fact, kept: bool) {
    && !Blank(Value(before, fact)) && Gives(said, fact, kept)
    && StateValue(if fact.Landmark? then Value(said, fact) else Strip(Value(said, fact)))
         != StateValue(Value(before, fact))
  }

  lemma ClashWhereKept(before: State, base: State, said: State, fact: Fact)
    requires Value(base, fact) == Value(before, fact)
    ensures Clash(before, MergedState(base, said), fact) == SaysOtherwise(before, said, fact, true)
  {
    var given := if fact.Landmark? then Value(said, fact) else Strip(Value(said, fact));
    StateValueBlank(Value(before, fact));
    StateValueBlank(given);
    if !Blank(Value(before, fact)) {
      if Declares(said, fact) {
        MergeOverrides(base, said, fact);
        StripKeepsInk(Value(said, fact));
      } else {
        MergeKeeps(base, said, fact);
      }
    }
  }

  lemma CarriedGeometry(s: State, who: Name, f: Field)
    requires f in GEOMETRY
    ensures who in Carried(s).characters <==> who in s.characters
    ensures who in s.characters ==> TextOf(Carried(s).characters[who], f) == ""
    ensures who in s.characters ==> f in Carried(s).characters[who].explicit
    ensures who in s.characters ==> s.characters[who].explicit <= Carried(s).characters[who].explicit
  {
  }

  lemma ClashWhereDropped(before: State, said: State, who: Name, f: Field)
    requires f in GEOMETRY
    ensures var fact := CharacterFact(who, f);
            Clash(before, MergedState(Carried(before), said), fact) == SaysOtherwise(before, said, fact, false)
  {
    var fact, base := CharacterFact(who, f), Carried(before);
    CarriedGeometry(before, who, f);
    StateValueBlank(Value(before, fact));
    StateValueBlank(Value(MergedState(base, said), fact));
    StateValueBlank(Strip(Value(said, fact)));
    StripKeepsInk(Value(said, fact));
    if who in before.characters && who in said.characters {
      MergedTexts(base.characters[who], said.characters[who], f);
    }
  }

  /** The converse holds too: a compared fact raises an issue exactly when the shot gives
      another value for it. */
  lemma IssuesExact(board: seq<Shot>, i: nat, fact: Fact)
    requires 0 < i < |board|
    ensures var n := Normalized(board); var before := OutOf(n, i - 1);
            BoundaryIssue(before, InOf(n, i), n[i], fact)
              == (Compared(board[i], fact)
                  && SaysOtherwise(before, InOf(board, i), fact, board[i].sameContext || !Dropped(fact)))
  {
    var n := Normalized(board);
    StatesAt(board, i);
    if board[i].sameContext || !Dropped(fact) {
      BaseKeeps(n, i, fact);
      ClashWhereKept(OutOf(n, i - 1), Base(n, i), InOf(board, i), fact);
    } else if fact.CharacterFact? {
      ClashWhereDropped(OutOf(n, i - 1), InOf(board, i), fact.who, fact.field);
    }
  }

  lemma StripKeepsInk(s: string)
    ensures Blank(Strip(s)) <==> Blank(s)
  {
    StripStrips(s);
    StripStrips(Strip(s));
  }

  // ----- Inheriting again -----

  /** What was set on purpose carries no surrounding blanks. */
  predicate Settled(e: Entity) {
    forall f :: f in e.texts && f in e.explicit && !Blank(e.texts[f]) ==> Trimmed(e.texts[f])
  }

  predicate SettledState(s: State) {
    && Settled(s.scene)
    && (forall n :: n in s.characters ==> Settled(s.characters[n]))
    && (forall n :: n in s.props ==> Settled(s.props[n]))
  }

  predicate SettledBoard(board: seq<Shot>) {
    forall i :: 0 <= i < |board| ==> SettledState(InOf(board, i)) && SettledState(OutOf(board, i))
  }

  lemma MergeSelfTexts(e: Entity)
    requires Settled(e)
    ensures e.texts + TextsTaken(e, e, e.texts.Keys) == e.texts && TextsTaken(e, e, e.texts.Keys).Keys <= e.explicit
  {
  }

  /** Merging an entity into itself changes nothing exactly when it is settled. */
  lemma MergeSelfExact(e: Entity)
    ensures Merged(e, e) == e <==> Settled(e)
  {
    if Settled(e) {
      MergeSelfTexts(e);
      assert e.notes + NotesTaken(e) == e.notes && e.flags + FlagsTaken(e) == e.flags;
      assert e.explicit + TextsTaken(e, e, e.texts.Keys).Keys + FlagsTaken(e).Keys == e.explicit;
    } else {
      var f :| f in e.texts && f in e.explicit && !Blank(e.texts[f]) && !Trimmed(e.texts[f]);
      MergedTexts(e, e, f);
      assert TextOf(Merged(e, e), f) != TextOf(e, f);
    }
  }

  lemma MergeTwiceText(was: Entity, overlay: Entity, f: Field)
    requires var m := Merged(was, overlay); Settled(m) && f in m.texts
    ensures var m := Merged(was, overlay);
            && (f in TextsTaken(was, overlay, overlay.texts.Keys) ==> Takes(was, m, f))
            && (Takes(was, m, f) ==> f in m.explicit && Strip(m.texts[f]) == m.texts[f])
            && (!Takes(was, m, f) ==> f in was.texts && was.texts[f] == m.texts[f])
  {
    MergedTexts(was, overlay, f);
    if f in overlay.texts {
      StripKeepsInk(overlay.texts[f]);
    }
  }

  lemma MapAgain<K, V>(a: map<K, V>, over: map<K, V>, m: map<K, V>)
    requires forall k :: k in a || k in over ==> k in m
    requires forall k :: k in over ==> over[k] == m[k]
    requires forall k :: k in m && k !in over ==> k in a && a[k] == m[k]
    ensures a + over == m
  {
  }

  lemma MergeTwiceTexts(was: Entity, overlay: Entity)
    requires Settled(Merged(was, overlay))
    ensures var m := Merged(was, overlay); var again := TextsTaken(was, m, m.texts.Keys);
            && was.texts + again == m.texts && again.Keys <= m.explicit
            && TextsTaken(was, overlay, overlay.texts.Keys).Keys <= again.Keys
  {
    var m := Merged(was, overlay);
    forall f | f in m.texts
      ensures f in TextsTaken(was, overlay, overlay.texts.Keys) ==> Takes(was, m, f)
      ensures Takes(was, m, f) ==> f in m.explicit && Strip(m.texts[f]) == m.texts[f]
      ensures !Takes(was, m, f) ==> f in was.texts && was.texts[f] == m.texts[f]
    {
      MergeTwiceText(was, overlay, f);
    }
    MapAgain(was.texts, TextsTaken(was, m, m.texts.Keys), m.texts);
  }

  lemma MergeTwiceNotes(was: Entity, overlay: Entity)
    ensures was.notes + NotesTaken(Merged(was, overlay)) == Merged(was, overlay).notes
  {
    forall k ensures k in Merged(was, overlay).notes <==> (k in was.notes || TakesNote(overlay, k)) {
      MergedNotes(was, overlay, k);
    }
  }

  lemma MergeTwiceFlags(was: Entity, overlay: Entity)
    ensures var m := Merged(was, overlay);
            && was.flags + FlagsTaken(m) == m.flags && FlagsTaken(m).Keys <= m.explicit
            && FlagsTaken(overlay).Keys <= FlagsTaken(m).Keys
  {
  }

  lemma MergeTwice(was: Entity, overlay: Entity)
    requires Settled(Merged(was, overlay))
    ensures Merged(was, Merged(was, overlay)) == Merged(was, overlay)
  {
    MergeTwiceTexts(was, overlay);
    MergeTwiceNotes(was, overlay);
    MergeTwiceFlags(was, overlay);
  }

  lemma MergeNameTwice(was: map<Name, Entity>, overlay: map<Name, Entity>, n: Name)
    requires n in MergedAll(was, overlay) && Settled(MergedAll(was, overlay)[n])
    ensures OneMerged(was, MergedAll(was, overlay), n) == MergedAll(was, overlay)[n]
  {
    if n in was {
      if n in overlay {
        MergeTwice(was[n], overlay[n]);
      } else {
        MergeSelfExact(was[n]);
      }
    }
  }

  lemma MergeAllTwice(was: map<Name, Entity>, overlay: map<Name, Entity>)
    requires forall n :: n in MergedAll(was, overlay) ==> Settled(MergedAll(was, overlay)[n])
    ensures MergedAll(was, MergedAll(was, overlay)) == MergedAll(was, overlay)
  {
    var m := MergedAll(was, overlay);
    forall n | n in m ensures OneMerged(was, m, n) == m[n] {
      MergeNameTwice(was, overlay, n);
    }
    MapAgain(was, NamesTaken(was, m, m.Keys), m);
  }

  lemma MergeStateTwice(was: State, overlay: State)
    requires SettledState(MergedState(was, overlay))
    ensures MergedState(was, MergedState(was, overlay)) == MergedState(was, overlay)
  {
    MergeTwice(was.scene, overlay.scene);
    MergeAllTwice(was.characters, overlay.characters);
    MergeAllTwice(was.props, overlay.props);
  }

  lemma InheritTwice(shot: Shot, before: Option<State>)
    requires var s := Inherited(shot, before); SettledState(Else(s.stateIn)) && SettledState(Else(s.stateOut))
    ensures Inherited(Inherited(shot, before), before) == Inherited(shot, before)
  {
    var s := Inherited(shot, before);
    if before.Some? {
      MergeStateTwice(if shot.sameContext then before.value else Carried(before.value), Else(shot.stateIn));
    }
    MergeStateTwice(Else(s.stateIn), Else(shot.stateOut));
  }

  /** Inheriting again changes nothing once what was set on purpose is trimmed. */
  lemma {:induction false} NormalizedTwice(board: seq<Shot>)
    requires SettledBoard(Normalized(board))
    ensures Normalized(Normalized(board)) == Normalized(board)
    decreases |board|
  {
    if board != [] {
      var n, last := Normalized(board), |board| - 1;
      NormalizedPrefix(board, last);
      assert SettledBoard(n[..last]) by {
        forall i | 0 <= i < last ensures SettledState(InOf(n[..last], i)) && SettledState(OutOf(n[..last], i)) {
          assert n[..last][i] == n[i] && SettledState(InOf(n, i));
        }
      }
      NormalizedTwice(board[..last]);
      assert SettledState(InOf(n, last)) && SettledState(OutOf(n, last));
      InheritTwice(board[last], EndOf(n[..last]));
      assert n == n[..last] + [n[last]];
    }
  }

  // ----- Trimmed boards -----

  predicate TrimmedEntity(e: Entity) {
    forall f :: f in e.texts ==> Trimmed(e.texts[f])
  }

  predicate TrimmedState(s: State) {
    && TrimmedEntity(s.scene)
    && (forall n :: n in s.characters ==> TrimmedEntity(s.characters[n]))
    && (forall n :: n in s.props ==> TrimmedEntity(s.props[n]))
  }

  predicate TrimmedBoard(board: seq<Shot>) {
    forall i :: 0 <= i < |board| ==> TrimmedState(InOf(board, i)) && TrimmedState(OutOf(board, i))
  }

  lemma MergedTrimmed(was: Entity, overlay: Entity)
    requires TrimmedEntity(was)
    ensures TrimmedEntity(Merged(was, overlay))
  {
    forall f | f in Merged(was, overlay).texts ensures Trimmed(Merged(was, overlay).texts[f]) {
      MergedTexts(was, overlay, f);
      if f in overlay.texts {
        StripStrips(overlay.texts[f]);
      }
    }
  }

  lemma MergedStateTrimmed(was: State, overlay: State)
    requires TrimmedState(was) && TrimmedState(overlay)
    ensures TrimmedState(MergedState(was, overlay))
  {
    MergedTrimmed(was.scene, overlay.scene);
    forall n | n in was.characters && n in overlay.characters
      ensures TrimmedEntity(Merged(was.characters[n], overlay.characters[n]))
    {
      MergedTrimmed(was.characters[n], overlay.characters[n]);
    }
    forall n | n in was.props && n in overlay.props ensures TrimmedEntity(Merged(was.props[n], overlay.props[n])) {
      MergedTrimmed(was.props[n], overlay.props[n]);
    }
  }

  lemma CarriedTrimmed(s: State)
    requires TrimmedState(s)
    ensures TrimmedState(Carried(s))
  {
    assert Trimmed("");
  }

  lemma BaseTrimmed(n: seq<Shot>, i: nat)
    requires 0 < i < |n| && TrimmedBoard(n[..i])
    ensures TrimmedState(Base(n, i))
  {
    assert n[..i][i - 1] == n[i - 1] && TrimmedState(OutOf(n[..i], i - 1));
    CarriedTrimmed(OutOf(n, i - 1));
  }

  lemma LastTrimmed(board: seq<Shot>, last: nat)
    requires last == |board| - 1 && TrimmedState(InOf(board, last)) && TrimmedState(OutOf(board, last))
    requires TrimmedBoard(Normalized(board)[..last])
    ensures TrimmedState(InOf(Normalized(board), last)) && TrimmedState(OutOf(Normalized(board), last))
  {
    var n := Normalized(board);
    StatesAt(board, last);
    if last > 0 {
      BaseTrimmed(n, last);
      MergedStateTrimmed(Base(n, last), InOf(board, last));
    }
    MergedStateTrimmed(InOf(n, last), OutOf(board, last));
  }

  lemma TrimmedPrefix(board: seq<Shot>, i: nat)
    requires i <= |board| && TrimmedBoard(board)
    ensures TrimmedBoard(board[..i])
  {
    forall k | 0 <= k < i ensures TrimmedState(InOf(board[..i], k)) && TrimmedState(OutOf(board[..i], k)) {
      assert board[..i][k] == board[k] && TrimmedState(InOf(board, k));
    }
  }

  lemma TrimmedMore(board: seq<Shot>, last: nat)
    requires last == |board| - 1 && TrimmedBoard(board[..last])
    requires TrimmedState(InOf(board, last)) && TrimmedState(OutOf(board, last))
    ensures TrimmedBoard(board)
  {
    forall k | 0 <= k < |board| ensures TrimmedState(InOf(board, k)) && TrimmedState(OutOf(board, k)) {
      assert k < last ==> board[..last][k] == board[k] && TrimmedState(InOf(board[..last], k));
    }
  }

  /** A board whose strings are trimmed keeps them trimmed. */
  lemma {:induction false} TrimmedStays(board: seq<Shot>)
    requires TrimmedBoard(board)
    ensures TrimmedBoard(Normalized(board))
    decreases |board|
  {
    if board != [] {
      var last := |board| - 1;
      NormalizedPrefix(board, last);
      TrimmedPrefix(board, last);
      TrimmedStays(board[..last]);
      assert TrimmedState(InOf(board, last)) && TrimmedState(OutOf(board, last));
      LastTrimmed(board, last);
      TrimmedMore(Normalized(board), last);
    }
  }

  /** So one pass settles a trimmed board for good. */
  lemma TrimmedBoardsSettle(board: seq<Shot>)
    requires TrimmedBoard(board)
    ensures Normalized(Normalized(board)) == Normalized(board)
  {
    TrimmedStays(board);
    forall i | 0 <= i < |board|
      ensures SettledState(InOf(Normalized(board), i)) && SettledState(OutOf(Normalized(board), i))
    {
      assert TrimmedState(InOf(Normalized(board), i)) && TrimmedState(OutOf(Normalized(board), i));
    }
    NormalizedTwice(board);
  }
}
