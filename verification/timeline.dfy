/** The timeline of the final cut (app/final_edit.py): clips are cross-faded one after the
    other, each transition shortened to what the clips can bear.

    Seconds are reals; the rounding of the printed filter arguments is left aside.  xfade
    with an offset yields offset plus the second clip; acrossfade yields both clips less the
    overlap. */
module Timeline {
  import opened Wrappers
  import opened PythonText

  datatype Spec = Spec(editType: string, filter: string, duration: real, audioOverlapMs: int)

  predicate Sane(s: Spec) {
    0.08 <= s.duration <= 0.32 && s.audioOverlapMs as real == s.duration * 1000.0
  }

  /** transition_spec: every transition is short, and its audio overlap is its length. */
  function TransitionSpec(value: Option<string>): (spec: Spec)
    ensures Sane(spec)
  {
    var t := Strip(if value.None? || value.value == "" then "硬切" else value.value);
    if t == "叠化" || t == "声音延续+叠化" || t == "声音先行+淡入" then Spec("dissolve", "fade", 0.32, 320)
    else if t == "淡出淡入" || t == "黑场" || t == "闪黑" then Spec("dip_black", "fadeblack", 0.28, 280)
    else if t == "闪白" then Spec("dip_white", "fadewhite", 0.20, 200)
    else if t == "甩镜" then Spec("whip", "smoothleft", 0.20, 200)
    else if t == "遮挡转场" then Spec("cover", "coverleft", 0.20, 200)
    else if t == "匹配剪辑" then Spec("match_cut", "fadefast", 0.08, 80)
    else Spec("cut", "fadefast", 0.12, 120)
  }

  const DISSOLVES: set<string> := {"叠化", "声音延续+叠化", "声音先行+淡入"}
  const DIPS: set<string> := {"淡出淡入", "黑场", "闪黑"}
  const OTHERS: set<string> := {"闪白", "甩镜", "遮挡转场", "匹配剪辑"}

  /** What each transition in the table is; every other text, and none at all, is a cut. */
  lemma TransitionsByName(value: Option<string>)
    ensures var spec, t := TransitionSpec(value), if value.None? then "" else Strip(value.value);
            && (t in DISSOLVES <==> spec.editType == "dissolve")
            && (t in DIPS <==> spec.editType == "dip_black")
            && (t == "闪白" <==> spec.editType == "dip_white")
            && (t == "甩镜" <==> spec.editType == "whip")
            && (t == "遮挡转场" <==> spec.editType == "cover")
            && (t == "匹配剪辑" <==> spec.editType == "match_cut")
            && (t !in DISSOLVES + DIPS + OTHERS <==> spec.editType == "cut")
    ensures var spec := TransitionSpec(value);
            && (spec.editType == "dissolve" ==> spec.filter == "fade" && spec.duration == 0.32)
            && (spec.editType == "dip_black" ==> spec.filter == "fadeblack" && spec.duration == 0.28)
            && (spec.editType == "dip_white" ==> spec.filter == "fadewhite" && spec.duration == 0.20)
            && (spec.editType == "whip" ==> spec.filter == "smoothleft" && spec.duration == 0.20)
            && (spec.editType == "cover" ==> spec.filter == "coverleft" && spec.duration == 0.20)
            && (spec.editType == "match_cut" ==> spec.filter == "fadefast" && spec.duration == 0.08)
            && (spec.editType == "cut" ==> spec.filter == "fadefast" && spec.duration == 0.12)
  {
  }

  const SHORTEST: real := 0.04

  function Min(a: real, b: real): real { if a <= b then a else b }

  function Max(a: real, b: real): real { if a >= b then a else b }

  /** The length a transition gets between what is there and the next clip. */
  function Duration(spec: Spec, sofar: real, next: real): real {
    Min(spec.duration, Max(SHORTEST, Min(sofar, next) / 3.0))
  }

  function Offset(sofar: real, duration: real): real {
    Max(0.0, sofar - duration)
  }

  predicate Fits(clips: seq<real>, specs: seq<Spec>) {
    && |clips| >= 1 && |specs| >= |clips| - 1
    && (forall i :: 0 <= i < |clips| ==> clips[i] > 0.0)
    && (forall i :: 0 <= i < |specs| ==> Sane(specs[i]))
  }

  /** The length after the first `k` transitions, as the code adds it up. */
  function LengthTo(clips: seq<real>, specs: seq<Spec>, k: nat): real
    requires Fits(clips, specs) && k < |clips|
  {
    if k == 0 then clips[0]
    else
      var sofar := LengthTo(clips, specs, k - 1);
      sofar + clips[k] - Duration(specs[k - 1], sofar, clips[k])
  }

  function DurationAt(clips: seq<real>, specs: seq<Spec>, k: nat): real
    requires Fits(clips, specs) && 0 < k < |clips|
  {
    Duration(specs[k - 1], LengthTo(clips, specs, k - 1), clips[k])
  }

  function OffsetAt(clips: seq<real>, specs: seq<Spec>, k: nat): real
    requires Fits(clips, specs) && 0 < k < |clips|
  {
    Offset(LengthTo(clips, specs, k - 1), DurationAt(clips, specs, k))
  }

  datatype Report = Report(duration: real, offset: real, spec: Spec)

  function Reports(clips: seq<real>, specs: seq<Spec>, k: nat): seq<Report>
    requires Fits(clips, specs) && k < |clips|
  {
    if k == 0 then []
    else Reports(clips, specs, k - 1)
         + [Report(DurationAt(clips, specs, k), OffsetAt(clips, specs, k), specs[k - 1])]
  }

  /** The loop of _compose over the clips. */
  method Compose(clips: seq<real>, specs: seq<Spec>) returns (total: real, reports: seq<Report>)
    requires Fits(clips, specs)
    ensures total == LengthTo(clips, specs, |clips| - 1) && reports == Reports(clips, specs, |clips| - 1)
  {
    total := clips[0];
    reports := [];
    for i := 1 to |clips|
      invariant total == LengthTo(clips, specs, i - 1) && reports == Reports(clips, specs, i - 1)
    {
      var spec, next := specs[i - 1], clips[i];
      var third := (if total <= next then total else next) / 3.0;
      var most := if SHORTEST >= third then SHORTEST else third;
      var duration := if spec.duration <= most then spec.duration else most;
      var offset := if total - duration > 0.0 then total - duration else 0.0;
      reports := reports + [Report(duration, offset, spec)];
      total := total + next - duration;
    }
  }

  // ----- Any clips -----

  function Sum(clips: seq<real>): real {
    if clips == [] then 0.0 else Sum(clips[..|clips| - 1]) + clips[|clips| - 1]
  }

  function Durations(reports: seq<Report>): real {
    if reports == [] then 0.0 else Durations(reports[..|reports| - 1]) + reports[|reports| - 1].duration
  }

  /** The total is the clips less the transitions. */
  lemma {:induction false} TotalIsClipsLessTransitions(clips: seq<real>, specs: seq<Spec>, k: nat)
    requires Fits(clips, specs) && k < |clips|
    ensures LengthTo(clips, specs, k) == Sum(clips[..k + 1]) - Durations(Reports(clips, specs, k))
  {
    assert clips[..k + 1][..k] == clips[..k];
    if k > 0 {
      TotalIsClipsLessTransitions(clips, specs, k - 1);
      assert Reports(clips, specs, k)[..|Reports(clips, specs, k)| - 1] == Reports(clips, specs, k - 1);
    } else {
      assert Sum(clips[..0]) == 0.0;
    }
  }

  predicate Clamped(clips: seq<real>, specs: seq<Spec>, k: nat)
    requires Fits(clips, specs) && 0 < k < |clips|
  {
    LengthTo(clips, specs, k - 1) < DurationAt(clips, specs, k)
  }

  /** An offset is clamped exactly when less than the shortest transition is there. */
  lemma ClampedExactly(clips: seq<real>, specs: seq<Spec>, k: nat)
    requires Fits(clips, specs) && 0 < k < |clips|
    ensures Clamped(clips, specs, k) <==> LengthTo(clips, specs, k - 1) < SHORTEST
  {
    assert Sane(specs[k - 1]);
  }

  /** A transition keeps its own length exactly when a third of the shorter side allows it. */
  lemma FullLengthExactly(clips: seq<real>, specs: seq<Spec>, k: nat)
    requires Fits(clips, specs) && 0 < k < |clips|
    ensures DurationAt(clips, specs, k) == specs[k - 1].duration
         <==> 3.0 * specs[k - 1].duration <= Min(LengthTo(clips, specs, k - 1), clips[k])
  {
    assert Sane(specs[k - 1]);
  }

  // ----- What the filters produce -----

  /** The length of the cross-faded picture. */
  function VideoTo(clips: seq<real>, specs: seq<Spec>, k: nat): real
    requires Fits(clips, specs) && k < |clips|
  {
    if k == 0 then clips[0] else OffsetAt(clips, specs, k) + clips[k]
  }

  /** The length of the cross-faded sound. */
  function AudioTo(clips: seq<real>, specs: seq<Spec>, k: nat): real
    requires Fits(clips, specs) && k < |clips|
  {
    if k == 0 then clips[0] else AudioTo(clips, specs, k - 1) + clips[k] - DurationAt(clips, specs, k)
  }

  lemma {:induction false} SoundAsCounted(clips: seq<real>, specs: seq<Spec>, k: nat)
    requires Fits(clips, specs) && k < |clips|
    ensures AudioTo(clips, specs, k) == LengthTo(clips, specs, k)
  {
    if k > 0 {
      SoundAsCounted(clips, specs, k - 1);
    }
  }

  /** Picture and sound have the same length after a step exactly when its offset was not
      clamped. */
  lemma InStepExactly(clips: seq<real>, specs: seq<Spec>, k: nat)
    requires Fits(clips, specs) && 0 < k < |clips|
    ensures VideoTo(clips, specs, k) == AudioTo(clips, specs, k) <==> !Clamped(clips, specs, k)
  {
    SoundAsCounted(clips, specs, k);
  }

  // ----- Clips of at least a second -----

  predicate Long(clips: seq<real>) {
    forall i :: 0 <= i < |clips| ==> clips[i] >= 1.0
  }

  lemma {:induction false} LongStaysLong(clips: seq<real>, specs: seq<Spec>, k: nat)
    requires Fits(clips, specs) && k < |clips| && Long(clips)
    ensures LengthTo(clips, specs, k) >= 1.0
    ensures k > 0 ==> DurationAt(clips, specs, k) == specs[k - 1].duration && !Clamped(clips, specs, k)
  {
    if k > 0 {
      LongStaysLong(clips, specs, k - 1);
      assert Sane(specs[k - 1]);
      FullLengthExactly(clips, specs, k);
    }
  }

  function SpecDurations(specs: seq<Spec>): real {
    if specs == [] then 0.0 else SpecDurations(specs[..|specs| - 1]) + specs[|specs| - 1].duration
  }

  lemma {:induction false} LongDurations(clips: seq<real>, specs: seq<Spec>, k: nat)
    requires Fits(clips, specs) && k < |clips| && Long(clips)
    ensures Durations(Reports(clips, specs, k)) == SpecDurations(specs[..k])
  {
    if k > 0 {
      LongDurations(clips, specs, k - 1);
      LongStaysLong(clips, specs, k);
      assert specs[..k][..k - 1] == specs[..k - 1];
      assert Reports(clips, specs, k)[..|Reports(clips, specs, k)| - 1] == Reports(clips, specs, k - 1);
    }
  }

  /** The finished film is the clips less the transitions at their full length, and picture
      and sound are in step after every transition. */
  lemma LongClipsComposeExactly(clips: seq<real>, specs: seq<Spec>, k: nat)
    requires Fits(clips, specs) && k < |clips| && Long(clips)
    ensures LengthTo(clips, specs, k) == Sum(clips[..k + 1]) - SpecDurations(specs[..k])
    ensures VideoTo(clips, specs, k) == AudioTo(clips, specs, k) == LengthTo(clips, specs, k)
  {
    TotalIsClipsLessTransitions(clips, specs, k);
    LongDurations(clips, specs, k);
    SoundAsCounted(clips, specs, k);
    if k > 0 {
      LongStaysLong(clips, specs, k);
      InStepExactly(clips, specs, k);
    }
  }

  /** A transition is over before the next begins, so offsets strictly increase. */
  lemma TransitionsStayApart(clips: seq<real>, specs: seq<Spec>, k: nat)
    requires Fits(clips, specs) && 0 < k && k + 1 < |clips| && Long(clips)
    ensures OffsetAt(clips, specs, k) + DurationAt(clips, specs, k) < OffsetAt(clips, specs, k + 1)
  {
    LongStaysLong(clips, specs, k - 1);
    LongStaysLong(clips, specs, k);
    LongStaysLong(clips, specs, k + 1);
    assert Sane(specs[k - 1]) && Sane(specs[k]);
  }

  lemma {:induction false} OffsetsIncrease(clips: seq<real>, specs: seq<Spec>, j: nat, k: nat)
    requires Fits(clips, specs) && 0 < j < k < |clips| && Long(clips)
    ensures OffsetAt(clips, specs, j) < OffsetAt(clips, specs, k)
    decreases k
  {
    TransitionsStayApart(clips, specs, k - 1);
    LongStaysLong(clips, specs, k - 1);
    assert Sane(specs[k - 2]);
    if j < k - 1 {
      OffsetsIncrease(clips, specs, j, k - 1);
    }
  }
}
