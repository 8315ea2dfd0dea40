/** The dispatch loop of chat() and the record of gateways that reject response formats
    (app/hiagent.py).

    A dispatch's answer is an input: the k-th dispatch gets `answer(k)`.  Whether an error
    text names an unsupported response format is part of the failure. */
module ChatRetry {
  import opened Wrappers
  import opened PythonText

  /** A provider:model pair. */
  type Key = string

  /** `Empty` is a format dictionary without entries, which the code takes for none. */
  datatype Format = Absent | Empty | Schema(name: string) | JsonObject | OtherFormat(name: string)

  datatype Kind = OutputTruncated | OutputMissing | OtherKind
  datatype Failure = Failure(kind: Kind, replaySafe: bool, formatRejected: bool)

  /** Why a reply without text came back. */
  datatype Cause = NothingDelivered | OnlyReasoning | Unexplained
  datatype Answer = Reply(text: string, cause: Cause) | Failed(failure: Failure)

  datatype Attempt = Attempt(format: Format, maxTokens: int, lowThinking: bool)
  datatype ChatError = FormatRequired | Provider(failure: Failure)

  const FORMAT_REPLAYS: nat := 2
  const STREAK_THRESHOLD: nat := 3

  function Failing(cause: Cause): Failure {
    match cause
    case NothingDelivered => Failure(OutputMissing, true, false)
    case OnlyReasoning => Failure(OutputMissing, false, false)
    case Unexplained => Failure(OtherKind, false, false)
  }

  /** What an answer amounts to: text that is not blank, or a failure. */
  function Outcome(a: Answer): Result<string, Failure> {
    match a
    case Reply(text, cause) => if Blank(text) then Err(Failing(cause)) else Ok(text)
    case Failed(failure) => Err(failure)
  }

  // ----- The record of rejections -----

  datatype Event = SchemaRejected(key: Key) | SchemaDelivered(key: Key) | FormatRejected(key: Key)

  datatype Record = Record(streaks: map<Key, nat>, noSchema: set<Key>, noFormat: set<Key>)

  function StreakOf(r: Record, key: Key): nat {
    if key in r.streaks then r.streaks[key] else 0
  }

  function Noted(r: Record, e: Event): Record {
    match e
    case SchemaRejected(key) =>
      var streak := StreakOf(r, key) + 1;
      r.(streaks := r.streaks[key := streak],
         noSchema := if streak >= STREAK_THRESHOLD then r.noSchema + {key} else r.noSchema)
    case SchemaDelivered(key) => r.(streaks := r.streaks - {key})
    case FormatRejected(key) => r.(noFormat := r.noFormat + {key})
  }

  /** The record after the first `n` events of a history, by whichever calls. */
  function RecordOf(history: seq<Event>, n: nat): Record
    requires n <= |history|
  {
    if n == 0 then Record(map[], {}, {}) else Noted(RecordOf(history, n - 1), history[n - 1])
  }

  /** Rejections of a pair since its last delivery. */
  function Streak(history: seq<Event>, key: Key, n: nat): nat
    requires n <= |history|
  {
    if n == 0 then 0
    else if history[n - 1] == SchemaRejected(key) then Streak(history, key, n - 1) + 1
    else if history[n - 1] == SchemaDelivered(key) then 0
    else Streak(history, key, n - 1)
  }

  predicate NoDelivery(history: seq<Event>, key: Key, a: nat, b: nat)
    requires b <= |history|
  {
    forall m :: a <= m < b ==> history[m] != SchemaDelivered(key)
  }

  /** Three rejections with no delivery between. */
  predicate ThreeAt(history: seq<Event>, key: Key, i: nat, j: nat, k: nat) {
    && i < j < k < |history|
    && history[i] == SchemaRejected(key) && history[j] == SchemaRejected(key) && history[k] == SchemaRejected(key)
    && NoDelivery(history, key, i, k)
  }

  lemma {:induction false} StreakIsRecorded(history: seq<Event>, key: Key, n: nat)
    requires n <= |history|
    ensures StreakOf(RecordOf(history, n), key) == Streak(history, key, n)
  {
    if n > 0 {
      StreakIsRecorded(history, key, n - 1);
    }
  }

  /** A streak ends in a rejection, before which the streak is one shorter. */
  lemma {:induction false} LastRejection(history: seq<Event>, key: Key, n: nat) returns (m: nat)
    requires n <= |history| && Streak(history, key, n) > 0
    ensures m < n && history[m] == SchemaRejected(key) && NoDelivery(history, key, m, n)
    ensures Streak(history, key, m) == Streak(history, key, n) - 1
  {
    if history[n - 1] == SchemaRejected(key) {
      m := n - 1;
    } else {
      m := LastRejection(history, key, n - 1);
    }
  }

  lemma {:induction false} StreakLasts(history: seq<Event>, key: Key, m: nat, n: nat)
    requires m <= n <= |history| && NoDelivery(history, key, m, n)
    ensures Streak(history, key, n) >= Streak(history, key, m)
  {
    if m < n {
      StreakLasts(history, key, m, n - 1);
    }
  }

  lemma {:induction false} MarkedStays(history: seq<Event>, key: Key, m: nat, n: nat)
    requires m <= n <= |history| && key in RecordOf(history, m).noSchema
    ensures key in RecordOf(history, n).noSchema
  {
    if m < n {
      MarkedStays(history, key, m, n - 1);
    }
  }

  lemma {:induction false} MarkedWhen(history: seq<Event>, key: Key, n: nat) returns (m: nat)
    requires n <= |history| && key in RecordOf(history, n).noSchema
    ensures m < n && history[m] == SchemaRejected(key) && Streak(history, key, m + 1) >= STREAK_THRESHOLD
  {
    if key in RecordOf(history, n - 1).noSchema {
      m := MarkedWhen(history, key, n - 1);
    } else {
      m := n - 1;
      StreakIsRecorded(history, key, n - 1);
    }
  }

  lemma ThreeMark(history: seq<Event>, key: Key, i: nat, j: nat, k: nat)
    requires ThreeAt(history, key, i, j, k)
    ensures key in RecordOf(history, |history|).noSchema
  {
    StreakLasts(history, key, i + 1, j);
    StreakLasts(history, key, j + 1, k);
    StreakIsRecorded(history, key, k);
    assert key in RecordOf(history, k + 1).noSchema;
    MarkedStays(history, key, k + 1, |history|);
  }

  /** A pair is marked as unable to take a schema exactly when three of its rejections
      occurred with no delivery between. */
  lemma MarkedExactly(history: seq<Event>, key: Key)
    ensures key in RecordOf(history, |history|).noSchema
      <==> exists i: nat, j: nat, k: nat :: ThreeAt(history, key, i, j, k)
  {
    if key in RecordOf(history, |history|).noSchema {
      var k := MarkedWhen(history, key, |history|);
      var j := LastRejection(history, key, k);
      var i := LastRejection(history, key, j);
      assert ThreeAt(history, key, i, j, k);
    }
    if i: nat, j: nat, k: nat :| ThreeAt(history, key, i, j, k) {
      ThreeMark(history, key, i, j, k);
    }
  }

  // ----- One round of the loop -----

  /** The local variables of the loop. */
  datatype Loop = Loop(
    format: Format, maxTokens: int, lowThinking: bool,
    escalated: bool, undelivered: bool, fellBack: bool, replays: nat)

  datatype Decision = Again(loop: Loop, note: Option<Event>) | GiveUp(note: Option<Event>)

  function Rejection(key: Key, f: Format): Event {
    if f.Schema? then SchemaRejected(key) else FormatRejected(key)
  }

  function Handle(l: Loop, key: Key, required: bool, limit: int, f: Failure): Decision {
    if f.kind == OutputTruncated && !l.escalated && l.maxTokens < limit then
      Again(l.(escalated := true, maxTokens := limit), None)
    else if f.kind == OutputMissing && !f.replaySafe && !l.fellBack then
      Again(l.(fellBack := true, lowThinking := true), None)
    else if f.kind == OutputMissing && f.replaySafe && !l.undelivered then
      Again(l.(undelivered := true), None)
    else if l.format != Absent && f.formatRejected then
      if required then
        if l.replays < FORMAT_REPLAYS then Again(l.(replays := l.replays + 1), Some(Rejection(key, l.format)))
        else GiveUp(Some(Rejection(key, l.format)))
      else if l.format.Schema? then Again(l.(format := JsonObject), Some(SchemaRejected(key)))
      else Again(l.(format := Absent), Some(FormatRejected(key)))
    else GiveUp(None)
  }

  /** How strong a format is on the ladder schema, object, none. */
  function Rank(f: Format): nat {
    match f
    case Schema(_) => 2
    case JsonObject => 1
    case OtherFormat(_) => 1
    case _ => 0
  }

  /** Replays the loop still has. */
  function Budget(l: Loop, required: bool): nat {
    (if l.escalated then 0 else 1) + (if l.undelivered then 0 else 1) + (if l.fellBack then 0 else 1)
    + (if required then (if l.replays < FORMAT_REPLAYS then FORMAT_REPLAYS - l.replays else 0) else Rank(l.format))
  }

  lemma RoundsRunOut(l: Loop, key: Key, required: bool, limit: int, f: Failure)
    ensures var d := Handle(l, key, required, limit, f);
            d.Again? && l.format != Empty ==> Budget(d.loop, required) < Budget(l, required) && d.loop.format != Empty
  {
  }

  /** The format the first dispatch carries. */
  function FirstFormat(r: Record, key: Key, format: Format, required: bool): Format {
    if format in {Absent, Empty} then Absent
    else if required then format
    else if key in r.noFormat then Absent
    else if format.Schema? && key in r.noSchema then JsonObject
    else format
  }

  lemma {:induction false} TurnedDownOnce(history: seq<Event>, key: Key, n: nat)
    requires n <= |history|
    ensures key in RecordOf(history, n).noFormat <==> FormatRejected(key) in history[..n]
  {
    if n > 0 {
      TurnedDownOnce(history, key, n - 1);
      assert history[..n] == history[..n - 1] + [history[n - 1]];
    }
  }

  /** A required format is always sent.  Any other is not sent at all once a format was turned
      down for the pair, and a schema is sent as a JSON object exactly when three of the pair's
      schemas were rejected with no delivery between. */
  lemma FirstFormatExact(history: seq<Event>, key: Key, format: Format, required: bool)
    ensures FirstFormat(RecordOf(history, |history|), key, format, required)
              == if format == Absent || format == Empty then Absent
                 else if required then format
                 else if FormatRejected(key) in history then Absent
                 else if format.Schema? && exists i: nat, j: nat, k: nat :: ThreeAt(history, key, i, j, k)
                 then JsonObject
                 else format
  {
    TurnedDownOnce(history, key, |history|);
    assert history[..|history|] == history;
    MarkedExactly(history, key);
  }

  /** One of the formats the ladder leads to from `from`. */
  predicate OnLadder(from: Format, f: Format) {
    f == Absent || f == from || (from.Schema? && f == JsonObject)
  }

  // ----- What a call did -----

  /** Formats only weaken, or never change. */
  predicate FormatsFit(sent: seq<Attempt>, format: Format, required: bool) {
    && (required && format !in {Absent, Empty} ==> forall i :: 0 <= i < |sent| ==> sent[i].format == format)
    && (forall i :: 0 <= i < |sent| ==> OnLadder(format, sent[i].format))
    && (forall i, j :: 0 <= i < j < |sent| ==> Rank(sent[j].format) <= Rank(sent[i].format))
  }

  /** The token limit is raised at most once, to the model's; thinking is only turned down. */
  predicate LimitsFit(sent: seq<Attempt>, maxTokens: int, limit: int) {
    && (forall i :: 0 <= i < |sent| ==> sent[i].maxTokens in {maxTokens, limit})
    && (forall i, j :: 0 <= i < j < |sent| ==> sent[i].maxTokens <= sent[j].maxTokens || maxTokens > limit)
    && (forall i, j :: 0 <= i < j < |sent| && sent[i].lowThinking ==> sent[j].lowThinking)
  }

  predicate Sent(sent: seq<Attempt>, l: Loop, format: Format, required: bool, maxTokens: int, limit: int) {
    && FormatsFit(sent, format, required) && LimitsFit(sent, maxTokens, limit)
    && l.format != Empty && OnLadder(format, l.format)
    && (required && format !in {Absent, Empty} ==> l.format == format)
    && (l.maxTokens == if l.escalated then limit else maxTokens) && (l.escalated ==> maxTokens < limit)
    && (forall i :: 0 <= i < |sent| ==>
          Rank(l.format) <= Rank(sent[i].format) && (sent[i].maxTokens <= l.maxTokens)
          && (sent[i].lowThinking ==> l.lowThinking))
  }

  lemma SentOnce(sent: seq<Attempt>, l: Loop, format: Format, required: bool, maxTokens: int, limit: int)
    requires Sent(sent, l, format, required, maxTokens, limit)
    ensures Sent(sent + [Attempt(l.format, l.maxTokens, l.lowThinking)], l, format, required, maxTokens, limit)
  {
  }

  lemma Handled(sent: seq<Attempt>, l: Loop, key: Key, format: Format, required: bool, maxTokens: int, limit: int,
                f: Failure)
    requires Sent(sent, l, format, required, maxTokens, limit) && Handle(l, key, required, limit, f).Again?
    requires required ==> format !in {Absent, Empty} || l.format == Absent
    ensures Sent(sent, Handle(l, key, required, limit, f).loop, format, required, maxTokens, limit)
  {
  }

  datatype Turn = Finished(result: Result<string, ChatError>) | Round(loop: Loop)

  function TurnOf(l: Loop, key: Key, required: bool, limit: int, outcome: Result<string, Failure>): Turn {
    match outcome
    case Ok(text) => Finished(Ok(text))
    case Err(f) =>
      var d := Handle(l, key, required, limit, f);
      if d.Again? then Round(d.loop) else Finished(Err(Provider(f)))
  }

  function NoteOf(l: Loop, key: Key, required: bool, limit: int, outcome: Result<string, Failure>): seq<Event> {
    match outcome
    case Ok(_) => if l.format.Schema? then [SchemaDelivered(key)] else []
    case Err(f) =>
      var note := Handle(l, key, required, limit, f).note;
      if note.Some? then [note.value] else []
  }

  predicate AllFailed(answer: nat -> Answer, n: int) {
    forall i: nat :: i < n ==> Outcome(answer(i)).Err?
  }

  // ----- Why each dispatch was made -----

  /** What the code does about an answer, said by the dispatches and answers before it. */
  datatype Reason = Delivered | Truncated | Overthought | Undelivered | Weakened | Insisted | Final

  predicate Missing(a: Answer, replaySafe: bool) {
    Outcome(a).Err? && Outcome(a).error.kind == OutputMissing && Outcome(a).error.replaySafe == replaySafe
  }

  predicate FirstMissing(answer: nat -> Answer, i: nat, replaySafe: bool) {
    Missing(answer(i), replaySafe) && forall j: nat :: j < i ==> !Missing(answer(j), replaySafe)
  }

  /** Dispatch `i` was cut off although the model could have gone on. */
  predicate CutOff(a: Attempt, limit: int, answer: Answer) {
    Outcome(answer).Err? && Outcome(answer).error.kind == OutputTruncated && a.maxTokens < limit
  }

  /** The gateway turned the format of dispatch `i` down, and that was its only trouble. */
  predicate TurnedDown(trace: seq<Attempt>, limit: int, answer: nat -> Answer, i: nat)
    requires i < |trace|
  {
    && Outcome(answer(i)).Err? && Outcome(answer(i)).error.formatRejected && trace[i].format != Absent
    && !CutOff(trace[i], limit, answer(i)) && !FirstMissing(answer, i, false) && !FirstMissing(answer, i, true)
  }

  function TurnedDownBefore(trace: seq<Attempt>, limit: int, answer: nat -> Answer, n: nat): nat
    requires n <= |trace|
  {
    if n == 0 then 0
    else TurnedDownBefore(trace, limit, answer, n - 1) + if TurnedDown(trace, limit, answer, n - 1) then 1 else 0
  }

  function ReasonAt(trace: seq<Attempt>, required: bool, limit: int, answer: nat -> Answer, i: nat): Reason
    requires i < |trace|
  {
    if Outcome(answer(i)).Ok? then Delivered
    else if CutOff(trace[i], limit, answer(i)) then Truncated
    else if FirstMissing(answer, i, false) then Overthought
    else if FirstMissing(answer, i, true) then Undelivered
    else if !TurnedDown(trace, limit, answer, i) then Final
    else if !required then Weakened
    else if TurnedDownBefore(trace, limit, answer, i) < FORMAT_REPLAYS then Insisted
    else Final
  }

  /** The dispatch that follows: a longer limit, less thinking, a weaker format, or the same. */
  function Following(a: Attempt, reason: Reason, limit: int): Attempt {
    match reason
    case Truncated => a.(maxTokens := limit)
    case Overthought => a.(lowThinking := true)
    case Weakened => a.(format := if a.format.Schema? then JsonObject else Absent)
    case _ => a
  }

  /** Dispatch `k` has its reason in the one before. */
  predicate FollowsAt(trace: seq<Attempt>, required: bool, limit: int, answer: nat -> Answer, k: nat)
    requires 0 < k < |trace|
  {
    var reason := ReasonAt(trace, required, limit, answer, k - 1);
    reason !in {Delivered, Final} && trace[k] == Following(trace[k - 1], reason, limit)
  }

  predicate Reasoned(trace: seq<Attempt>, required: bool, limit: int, answer: nat -> Answer) {
    forall k: nat :: 0 < k < |trace| ==> FollowsAt(trace, required, limit, answer, k)
  }

  /** What is noted of the first `n` dispatches: the formats turned down and the schemas delivered. */
  function NotedOf(trace: seq<Attempt>, key: Key, limit: int, answer: nat -> Answer, n: nat): seq<Event>
    requires n <= |trace|
  {
    if n == 0 then []
    else
      var last := trace[n - 1];
      NotedOf(trace, key, limit, answer, n - 1)
      + (if TurnedDown(trace, limit, answer, n - 1)
         then [if last.format.Schema? then SchemaRejected(key) else FormatRejected(key)]
         else if Outcome(answer(n - 1)).Ok? && last.format.Schema? then [SchemaDelivered(key)]
         else [])
  }

  function AttemptOf(l: Loop): Attempt {
    Attempt(l.format, l.maxTokens, l.lowThinking)
  }

  /** The loop's variables say what the dispatches and answers so far say. */
  predicate Remembers(l: Loop, trace: seq<Attempt>, required: bool, limit: int, answer: nat -> Answer, n: nat)
    requires n <= |trace|
  {
    && (l.escalated ==> l.maxTokens == limit)
    && (l.fellBack <==> exists j: nat :: j < n && Missing(answer(j), false))
    && (l.undelivered <==> exists j: nat :: j < n && Missing(answer(j), true))
    && (required ==> l.replays == TurnedDownBefore(trace, limit, answer, n))
  }

  /** A round of the code is a round by reasons. */
  lemma RoundHasReason(l: Loop, trace: seq<Attempt>, key: Key, required: bool, limit: int, answer: nat -> Answer,
                       n: nat)
    requires n == |trace| - 1 && trace[n] == AttemptOf(l) && Remembers(l, trace, required, limit, answer, n)
    requires Outcome(answer(n)).Err?
    ensures var d, reason := Handle(l, key, required, limit, Outcome(answer(n)).error),
                             ReasonAt(trace, required, limit, answer, n);
            && (d.Again? <==> reason != Final)
            && (d.Again? ==> AttemptOf(d.loop) == Following(trace[n], reason, limit)
                             && Remembers(d.loop, trace, required, limit, answer, n + 1))
            && (if d.note.Some? then [d.note.value] else [])
                 == if TurnedDown(trace, limit, answer, n)
                    then [if trace[n].format.Schema? then SchemaRejected(key) else FormatRejected(key)] else []
  {
    assert Missing(answer(n), false) ==> exists j: nat :: j < n + 1 && Missing(answer(j), false);
    assert Missing(answer(n), true) ==> exists j: nat :: j < n + 1 && Missing(answer(j), true);
  }

  lemma {:induction false} CountedAlike(trace: seq<Attempt>, a: Attempt, key: Key, limit: int, answer: nat -> Answer,
                                        n: nat)
    requires n <= |trace|
    ensures TurnedDownBefore(trace + [a], limit, answer, n) == TurnedDownBefore(trace, limit, answer, n)
    ensures NotedOf(trace + [a], key, limit, answer, n) == NotedOf(trace, key, limit, answer, n)
  {
    if n > 0 {
      CountedAlike(trace, a, key, limit, answer, n - 1);
      assert (trace + [a])[n - 1] == trace[n - 1];
    }
  }

  lemma ReasonedOn(trace: seq<Attempt>, a: Attempt, key: Key, required: bool, limit: int, answer: nat -> Answer)
    requires trace != [] && Reasoned(trace, required, limit, answer)
    requires var reason := ReasonAt(trace, required, limit, answer, |trace| - 1);
             reason !in {Delivered, Final} && a == Following(trace[|trace| - 1], reason, limit)
    ensures Reasoned(trace + [a], required, limit, answer)
  {
    var longer := trace + [a];
    forall k: nat | 0 < k < |longer| ensures FollowsAt(longer, required, limit, answer, k) {
      CountedAlike(trace, a, key, limit, answer, k - 1);
      assert k < |trace| ==> FollowsAt(trace, required, limit, answer, k) && longer[k] == trace[k];
      assert longer[k - 1] == trace[k - 1];
      assert ReasonAt(longer, required, limit, answer, k - 1) == ReasonAt(trace, required, limit, answer, k - 1);
    }
  }

  /** What a call is given, and what every dispatch is answered. */
  datatype Call = Call(key: Key, format: Format, required: bool, maxTokens: int, limit: int, answer: nat -> Answer)

  /** Before a dispatch: the dispatches made, and the next, have their reasons. */
  ghost predicate Traced(l: Loop, sent: seq<Attempt>, first: Attempt, c: Call, notes: seq<Event>) {
    var trace := sent + [AttemptOf(l)];
    && trace[0] == first && Reasoned(trace, c.required, c.limit, c.answer) && AllFailed(c.answer, |sent|)
    && Remembers(l, trace, c.required, c.limit, c.answer, |sent|)
    && notes == NotedOf(trace, c.key, c.limit, c.answer, |sent|)
  }

  /** And they fit what was asked for. */
  ghost predicate Fitting(l: Loop, sent: seq<Attempt>, c: Call) {
    && Sent(sent, l, c.format, c.required, c.maxTokens, c.limit) && |sent| + Budget(l, c.required) <= 5
    && (c.required && c.format in {Absent, Empty} ==> l.format == Absent)
  }

  function FirstLoop(r: Record, c: Call, lowThinking: bool): Loop {
    Loop(FirstFormat(r, c.key, c.format, c.required), c.maxTokens, lowThinking, false, false, false, 0)
  }

  lemma Begins(r: Record, c: Call, lowThinking: bool)
    ensures var l := FirstLoop(r, c, lowThinking); Traced(l, [], AttemptOf(l), c, []) && Fitting(l, [], c)
  {
    var l := FirstLoop(r, c, lowThinking);
    assert [] + [AttemptOf(l)] == [AttemptOf(l)];
  }

  function TurnAt(l: Loop, c: Call, n: nat): Turn {
    TurnOf(l, c.key, c.required, c.limit, Outcome(c.answer(n)))
  }

  function NoteAt(l: Loop, c: Call, n: nat): seq<Event> {
    NoteOf(l, c.key, c.required, c.limit, Outcome(c.answer(n)))
  }

  lemma Noting(l: Loop, sent: seq<Attempt>, first: Attempt, c: Call, notes: seq<Event>)
    requires Traced(l, sent, first, c, notes)
    ensures NotedOf(sent + [AttemptOf(l)], c.key, c.limit, c.answer, |sent| + 1) == notes + NoteAt(l, c, |sent|)
  {
    if Outcome(c.answer(|sent|)).Err? {
      RoundHasReason(l, sent + [AttemptOf(l)], c.key, c.required, c.limit, c.answer, |sent|);
    }
  }

  lemma RemembersOn(l: Loop, trace: seq<Attempt>, a: Attempt, required: bool, limit: int, answer: nat -> Answer)
    requires Remembers(l, trace, required, limit, answer, |trace|)
    ensures Remembers(l, trace + [a], required, limit, answer, |trace|)
  {
    CountedAlike(trace, a, "", limit, answer, |trace|);
  }

  lemma TracedOn(l: Loop, sent: seq<Attempt>, first: Attempt, c: Call, notes: seq<Event>)
    requires Traced(l, sent, first, c, notes) && TurnAt(l, c, |sent|).Round?
    ensures Traced(TurnAt(l, c, |sent|).loop, sent + [AttemptOf(l)], first, c, notes + NoteAt(l, c, |sent|))
  {
    var trace, l' := sent + [AttemptOf(l)], TurnAt(l, c, |sent|).loop;
    Noting(l, sent, first, c, notes);
    RoundHasReason(l, trace, c.key, c.required, c.limit, c.answer, |sent|);
    ReasonedOn(trace, AttemptOf(l'), c.key, c.required, c.limit, c.answer);
    CountedAlike(trace, AttemptOf(l'), c.key, c.limit, c.answer, |trace|);
    RemembersOn(l', trace, AttemptOf(l'), c.required, c.limit, c.answer);
    assert (trace + [AttemptOf(l')])[0] == trace[0];
  }

  lemma FittingOn(l: Loop, sent: seq<Attempt>, c: Call)
    requires Fitting(l, sent, c) && TurnAt(l, c, |sent|).Round?
    ensures Fitting(TurnAt(l, c, |sent|).loop, sent + [AttemptOf(l)], c)
    ensures Budget(TurnAt(l, c, |sent|).loop, c.required) < Budget(l, c.required)
  {
    var failure := Outcome(c.answer(|sent|)).error;
    SentOnce(sent, l, c.format, c.required, c.maxTokens, c.limit);
    Handled(sent + [AttemptOf(l)], l, c.key, c.format, c.required, c.maxTokens, c.limit, failure);
    RoundsRunOut(l, c.key, c.required, c.limit, failure);
  }

  /** What a call that came to its end has to show. */
  ghost predicate Ended(sent: seq<Attempt>, first: Attempt, c: Call, notes: seq<Event>, r: Result<string, ChatError>) {
    && 1 <= |sent| <= 6 && sent[0] == first
    && FormatsFit(sent, c.format, c.required) && LimitsFit(sent, c.maxTokens, c.limit)
    && Reasoned(sent, c.required, c.limit, c.answer) && AllFailed(c.answer, |sent| - 1)
    && ReasonAt(sent, c.required, c.limit, c.answer, |sent| - 1) == (if r.Ok? then Delivered else Final)
    && notes == NotedOf(sent, c.key, c.limit, c.answer, |sent|)
    && (match r
        case Ok(text) => Outcome(c.answer(|sent| - 1)) == Ok(text) && !Blank(text)
        case Err(e) => e.Provider? && Outcome(c.answer(|sent| - 1)) == Err(e.failure))
  }

  lemma ComesToItsEnd(l: Loop, sent: seq<Attempt>, first: Attempt, c: Call, notes: seq<Event>)
    requires Traced(l, sent, first, c, notes) && Fitting(l, sent, c) && TurnAt(l, c, |sent|).Finished?
    ensures Ended(sent + [AttemptOf(l)], first, c, notes + NoteAt(l, c, |sent|), TurnAt(l, c, |sent|).result)
  {
    Noting(l, sent, first, c, notes);
    SentOnce(sent, l, c.format, c.required, c.maxTokens, c.limit);
    if Outcome(c.answer(|sent|)).Err? {
      RoundHasReason(l, sent + [AttemptOf(l)], c.key, c.required, c.limit, c.answer, |sent|);
    }
  }

  /** A blank reply is never a format turned down.  The first with nothing delivered is repeated,
      the first with nothing but reasoning is repeated with less thinking, and any other is
      final. */
  lemma BlankReplies(trace: seq<Attempt>, required: bool, limit: int, answer: nat -> Answer, n: nat)
    requires n < |trace| && answer(n).Reply? && Blank(answer(n).text)
    ensures !TurnedDown(trace, limit, answer, n)
    ensures ReasonAt(trace, required, limit, answer, n)
              == match answer(n).cause
                 case NothingDelivered => if exists j: nat :: j < n && Missing(answer(j), true) then Final else Undelivered
                 case OnlyReasoning => if exists j: nat :: j < n && Missing(answer(j), false) then Final else Overthought
                 case Unexplained => Final
  {
  }

  lemma NotedBehind(before: seq<Event>, notes: seq<Event>, note: seq<Event>)
    ensures before + notes + note == before + (notes + note)
    ensures before <= before + (notes + note) && (before + (notes + note))[|before|..] == notes + note
  {
  }

  // ----- The code -----

  class Chats {
    var streaks: map<Key, nat>
    var noSchema: set<Key>
    var noFormat: set<Key>
    ghost var history: seq<Event>

    function State(): Record reads this {
      Record(streaks, noSchema, noFormat)
    }

    ghost predicate Valid() reads this {
      State() == RecordOf(history, |history|)
    }

    constructor ()
      ensures Valid() && history == []
    {
      streaks, noSchema, noFormat, history := map[], {}, {}, [];
    }

    lemma HistoryGrows(before: seq<Event>, e: Event)
      ensures RecordOf(before + [e], |before| + 1) == Noted(RecordOf(before, |before|), e)
    {
      PrefixRecord(before, e, |before|);
    }

    lemma {:induction false} PrefixRecord(before: seq<Event>, e: Event, n: nat)
      requires n <= |before|
      ensures RecordOf(before + [e], n) == RecordOf(before, n)
    {
      if n > 0 {
        PrefixRecord(before, e, n - 1);
      }
    }

    /** _remember_json_schema_unsupported. */
    method RememberSchemaRejected(key: Key)
      requires Valid()
      modifies this
      ensures Valid() && history == old(history) + [SchemaRejected(key)]
    {
      HistoryGrows(history, SchemaRejected(key));
      var streak := (if key in streaks then streaks[key] else 0) + 1;
      streaks := streaks[key := streak];
      if streak >= STREAK_THRESHOLD {
        noSchema := noSchema + {key};
      }
      history := history + [SchemaRejected(key)];
    }

    /** _forget_json_schema_reject_streak. */
    method ForgetStreak(key: Key)
      requires Valid()
      modifies this
      ensures Valid() && history == old(history) + [SchemaDelivered(key)]
    {
      HistoryGrows(history, SchemaDelivered(key));
      streaks := streaks - {key};
      history := history + [SchemaDelivered(key)];
    }

    method RememberFormatRejected(key: Key)
      requires Valid()
      modifies this
      ensures Valid() && history == old(history) + [FormatRejected(key)]
    {
      HistoryGrows(history, FormatRejected(key));
      noFormat := noFormat + {key};
      history := history + [FormatRejected(key)];
    }

    method Note(note: Option<Event>)
      requires Valid()
      modifies this
      ensures Valid() && history == old(history) + if note.Some? then [note.value] else []
    {
      if note.Some? {
        match note.value {
          case SchemaRejected(key) => RememberSchemaRejected(key);
          case SchemaDelivered(key) => ForgetStreak(key);
          case FormatRejected(key) => RememberFormatRejected(key);
        }
      }
    }

    /** What the loop does with the answer to dispatch `n`: return, raise or go round again. */
    method Settle(l: Loop, c: Call, n: nat) returns (t: Turn)
      requires Valid()
      modifies this
      ensures Valid() && t == TurnAt(l, c, n) && history == old(history) + NoteAt(l, c, n)
    {
      var outcome := Outcome(c.answer(n));
      if outcome.Ok? {
        Note(if l.format.Schema? then Some(SchemaDelivered(c.key)) else None);
        return Finished(Ok(outcome.value));
      }
      var decision := Handle(l, c.key, c.required, c.limit, outcome.error);
      Note(decision.note);
      if decision.GiveUp? {
        return Finished(Err(Provider(outcome.error)));
      }
      return Round(decision.loop);
    }

    /** chat(). `sent` lists the dispatches. */
    method Chat(c: Call, lowThinking: bool) returns (r: Result<string, ChatError>, sent: seq<Attempt>)
      requires Valid()
      modifies this
      ensures Valid() && old(history) <= history
      ensures c.required && c.format == Absent ==>
                r == Err(FormatRequired) && sent == [] && history == old(history)
      ensures !(c.required && c.format == Absent) ==>
                Ended(sent, AttemptOf(FirstLoop(old(State()), c, lowThinking)), c, history[|old(history)|..], r)
    {
      sent := [];
      if c.required && c.format == Absent {
        return Err(FormatRequired), [];
      }
      var l := FirstLoop(State(), c, lowThinking);
      ghost var first, notes: seq<Event> := AttemptOf(l), [];
      Begins(State(), c, lowThinking);
      while true
        invariant Valid() && history == old(history) + notes
        invariant Traced(l, sent, first, c, notes) && Fitting(l, sent, c)
        decreases Budget(l, c.required)
      {
        var turn := Settle(l, c, |sent|);
        NotedBehind(old(history), notes, NoteAt(l, c, |sent|));
        if turn.Finished? {
          ComesToItsEnd(l, sent, first, c, notes);
          return turn.result, sent + [AttemptOf(l)];
        }
        TracedOn(l, sent, first, c, notes);
        FittingOn(l, sent, c);
        notes := notes + NoteAt(l, c, |sent|);
        sent := sent + [AttemptOf(l)];
        l := turn.loop;
      }
    }
  }
}
