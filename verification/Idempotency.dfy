/** Idempotency keys across restarts: claims in memory, task records in a durable table, and
    the calls in flight, with one start of the backend per key. */
module Idempotency {
  import opened Common

  /** A record of the durable table; stamp is its updated_at_ns, which grows with every write. */
  datatype Row = Row(key: string, status: Status, stamp: nat)

  /** A call past the idempotency check: its record not yet written, written, itself waiting in
      the queue, or its backend started. A call waits at most once. */
  datatype Phase = Claimed | Admitted | Waiting | Started

  datatype Call = Call(id: string, key: string, phase: Phase)

  datatype State = State(
    claims: map<string, string>, rows: map<string, Row>, clock: nat, calls: map<nat, Call>,
    started: seq<string>)

  datatype Step =
    | Submit(id: string, key: string, wellFormed: bool, slot: nat)
    | Receive(slot: nat)
    | Enqueue(slot: nat)
    | Start(slot: nat)
    | SetStatus(slot: nat, status: Status)
    | Finish(slot: nat, status: Status)
    | Vanish(slot: nat)
    | Restart

  /** Proceed executes the request; Repeat returns a stored terminal result; Duplicate
      rejects it. */
  datatype Reply = Proceed | Repeat(existing: string, status: Status) | Duplicate(existing: string)

  // ---------------------------------------------------------------- the check

  ghost predicate IsLatest(rows: map<string, Row>, key: string, id: string) {
    && id in rows && rows[id].key == key
    && forall other :: other in rows && rows[other].key == key ==> rows[other].stamp <= rows[id].stamp
  }

  /** The newest record with that key. */
  ghost function Latest(rows: map<string, Row>, key: string): Option<string> {
    if exists id :: IsLatest(rows, key, id) then
      var id :| IsLatest(rows, key, id);
      Some(id)
    else None
  }

  function Existing(rows: map<string, Row>, id: string): Reply {
    if id in rows && Terminal(rows[id].status) then Repeat(id, rows[id].status) else Duplicate(id)
  }

  ghost function Decide(s: State, id: string, key: string): Reply {
    if key == "" then Proceed
    else if key in s.claims then Existing(s.rows, s.claims[key])
    else
      match Latest(s.rows, key)
      case None => Proceed
      case Some(existing) =>
        if existing == id && s.rows[existing].status == Queued then Proceed
        else Existing(s.rows, existing)
  }

  // ---------------------------------------------------------------- the transitions

  function Write(s: State, id: string, key: string, status: Status): State {
    s.(rows := s.rows[id := Row(key, status, s.clock)], clock := s.clock + 1)
  }

  ghost predicate Enabled(s: State, step: Step) {
    match step
    case Submit(id, _, _, slot) => id != "" && slot !in s.calls
    case Receive(slot) => slot in s.calls && s.calls[slot].phase == Claimed
    case Enqueue(slot) => slot in s.calls && s.calls[slot].phase == Admitted
    case Start(slot) => slot in s.calls && s.calls[slot].phase in {Admitted, Waiting}
    case SetStatus(slot, status) => slot in s.calls && s.calls[slot].phase == Started && status in {Paused, InProgress}
    case Finish(slot, status) => slot in s.calls && s.calls[slot].phase != Claimed && Terminal(status)
    case Vanish(slot) => slot in s.calls
    case Restart => true
  }

  /** A malformed request is recorded as REJECTED before its key is looked at. A restart
      keeps the table alone; recovery then submits the QUEUED records like any request. */
  ghost function Next(s: State, step: Step): State
    requires Enabled(s, step)
  {
    match step
    case Submit(id, key, wellFormed, slot) =>
      if !wellFormed then Write(s, id, key, Rejected)
      else if Decide(s, id, key) != Proceed then s
      else s.(claims := if key == "" then s.claims else s.claims[key := id],
              calls := s.calls[slot := Call(id, key, Claimed)])
    case Receive(slot) =>
      var c := s.calls[slot];
      Write(s, c.id, c.key, Received).(calls := s.calls[slot := c.(phase := Admitted)])
    case Enqueue(slot) =>
      var c := s.calls[slot];
      Write(s, c.id, c.key, Queued).(calls := s.calls[slot := c.(phase := Waiting)])
    case Start(slot) =>
      var c := s.calls[slot];
      Write(s, c.id, c.key, InProgress).(calls := s.calls[slot := c.(phase := Started)], started := s.started + [c.key])
    case SetStatus(slot, status) => Write(s, s.calls[slot].id, s.calls[slot].key, status)
    case Finish(slot, status) => Write(s, s.calls[slot].id, s.calls[slot].key, status).(calls := s.calls - {slot})
    case Vanish(slot) => s.(calls := s.calls - {slot})
    case Restart => s.(claims := map[], calls := map[])
  }

  const INITIAL := State(map[], map[], 0, map[], [])

  /** A run from an empty table in which every submitted request is one of allowed. */
  ghost predicate IsRun(states: seq<State>, steps: seq<Step>, allowed: set<(string, string)>) {
    && |states| == |steps| + 1 && states[0] == INITIAL
    && forall i :: 0 <= i < |steps| ==> StepTaken(states, steps, allowed, i)
  }

  ghost predicate StepTaken(states: seq<State>, steps: seq<Step>, allowed: set<(string, string)>, i: nat)
    requires i < |steps| && i + 1 < |states|
  {
    && Enabled(states[i], steps[i]) && states[i + 1] == Next(states[i], steps[i])
    && (steps[i].Submit? ==> (steps[i].id, steps[i].key) in allowed)
  }

  function Count(keys: seq<string>, key: string): nat {
    if keys == [] then 0 else Count(keys[..|keys| - 1], key) + if keys[|keys| - 1] == key then 1 else 0
  }

  /** No task id comes with two different keys. */
  ghost predicate OneKeyPerId(allowed: set<(string, string)>) {
    forall p, q :: p in allowed && q in allowed && p.0 == q.0 ==> p.1 == q.1
  }

  // ---------------------------------------------------------------- the invariant

  ghost predicate RowsFit(s: State, allowed: set<(string, string)>) {
    && (forall id :: id in s.rows ==> (id, s.rows[id].key) in allowed && s.rows[id].stamp < s.clock)
    && (forall i, j :: i in s.rows && j in s.rows && i != j ==> s.rows[i].stamp != s.rows[j].stamp)
  }

  ghost predicate CallsFit(s: State, allowed: set<(string, string)>) {
    && (forall k :: k in s.calls ==> (s.calls[k].id, s.calls[k].key) in allowed)
    && (forall k :: k in s.calls && s.calls[k].key != "" ==>
          s.calls[k].key in s.claims && s.claims[s.calls[k].key] == s.calls[k].id)
    && (forall i, j :: i in s.calls && j in s.calls && i != j && s.calls[i].key == s.calls[j].key ==>
        s.calls[i].key == "")
    && (forall key :: key in s.claims ==> (s.claims[key], key) in allowed)
  }

  /** The newest record with that key exists and is no longer QUEUED. */
  ghost predicate Spent(rows: map<string, Row>, key: string) {
    exists id :: IsLatest(rows, key, id) && rows[id].status != Queued
  }

  ghost predicate KeysFit(s: State) {
    forall key :: key != "" ==>
      && Count(s.started, key) <= 1
      && (Count(s.started, key) > 0 ==> Spent(s.rows, key))
      && (Count(s.started, key) > 0 ==> forall k :: k in s.calls && s.calls[k].key == key ==>
          s.calls[k].phase == Started)
  }

  ghost predicate Inv(s: State, allowed: set<(string, string)>) {
    RowsFit(s, allowed) && CallsFit(s, allowed) && KeysFit(s)
  }

  lemma {:induction false} LatestIsUnique(rows: map<string, Row>, key: string, id: string)
    requires IsLatest(rows, key, id)
    requires forall i, j :: i in rows && j in rows && i != j ==> rows[i].stamp != rows[j].stamp
    ensures Latest(rows, key) == Some(id)
  {
    var other := Latest(rows, key).value;
    assert IsLatest(rows, key, other);
  }

  lemma {:induction false} WriteFits(s: State, allowed: set<(string, string)>, id: string, key: string, status: Status)
    requires RowsFit(s, allowed) && (id, key) in allowed
    ensures RowsFit(Write(s, id, key, status), allowed)
  {
  }

  /** A write keeps a key spent unless it queues a record of that key. */
  lemma {:induction false} WriteKeepsSpent(s: State, allowed: set<(string, string)>, id: string, key: string,
                                           status: Status, spent: string)
    requires RowsFit(s, allowed) && OneKeyPerId(allowed) && (id, key) in allowed
    requires Spent(s.rows, spent) || (key == spent && status != Queued)
    requires key != spent || status != Queued
    ensures Spent(Write(s, id, key, status).rows, spent)
  {
    var rows := Write(s, id, key, status).rows;
    if key == spent {
      assert IsLatest(rows, spent, id);
    } else {
      var former :| IsLatest(s.rows, spent, former) && s.rows[former].status != Queued;
      assert (id in s.rows ==> (id, s.rows[id].key) in allowed);
      assert IsLatest(rows, spent, former);
    }
  }

  /** A started key never proceeds again. */
  lemma {:induction false} SpentIsRefused(s: State, allowed: set<(string, string)>, id: string, key: string)
    requires RowsFit(s, allowed) && key != "" && Spent(s.rows, key)
    ensures Decide(s, id, key) != Proceed
  {
    if key !in s.claims {
      var latest :| IsLatest(s.rows, key, latest) && s.rows[latest].status != Queued;
      LatestIsUnique(s.rows, key, latest);
    }
  }

  lemma {:induction false} CountSnoc(keys: seq<string>, k: string, key: string)
    ensures Count(keys + [k], key) == Count(keys, key) + if k == key then 1 else 0
  {
    assert (keys + [k])[..|keys|] == keys;
  }

  lemma {:induction false} RecordStep(s: State, allowed: set<(string, string)>, id: string, key: string, status: Status)
    requires Inv(s, allowed) && OneKeyPerId(allowed) && (id, key) in allowed
    requires status != Queued || (key != "" ==> Count(s.started, key) == 0)
    ensures Inv(Write(s, id, key, status), allowed)
  {
    hide IsLatest, Count;
    var t := Write(s, id, key, status);
    WriteFits(s, allowed, id, key, status);
    forall k | k != "" && Count(t.started, k) > 0 ensures Spent(t.rows, k) {
      WriteKeepsSpent(s, allowed, id, key, status, k);
    }
  }

  lemma {:induction false} ProceedsUnclaimed(s: State, id: string, key: string)
    requires Decide(s, id, key) == Proceed && key != ""
    ensures key !in s.claims
  {
  }

  lemma {:induction false} ClaimStep(s: State, allowed: set<(string, string)>, id: string, key: string, slot: nat)
    requires Inv(s, allowed) && (id, key) in allowed && slot !in s.calls
    requires key != "" ==> key !in s.claims && Count(s.started, key) == 0
    ensures Inv(s.(claims := if key == "" then s.claims else s.claims[key := id],
                   calls := s.calls[slot := Call(id, key, Claimed)]), allowed)
  {
    hide Count, Spent;
  }

  lemma {:induction false} SubmitStep(s: State, allowed: set<(string, string)>, step: Step)
    requires Inv(s, allowed) && OneKeyPerId(allowed) && step.Submit? && Enabled(s, step)
             && (step.id, step.key) in allowed
    ensures Inv(Next(s, step), allowed)
  {
    hide Count, Inv, Decide, OneKeyPerId;
    if !step.wellFormed {
      RecordStep(s, allowed, step.id, step.key, Rejected);
    } else if Decide(s, step.id, step.key) == Proceed {
      if step.key != "" {
        ProceedsUnclaimed(s, step.id, step.key);
        StartedIsRefused(s, allowed, step.id, step.key);
      }
      ClaimStep(s, allowed, step.id, step.key, step.slot);
    }
  }

  lemma {:induction false} StartedIsRefused(s: State, allowed: set<(string, string)>, id: string, key: string)
    requires Inv(s, allowed) && key != ""
    ensures Count(s.started, key) > 0 ==> Decide(s, id, key) != Proceed
  {
    hide Decide, Spent, Count;
    if Count(s.started, key) > 0 {
      SpentIsRefused(s, allowed, id, key);
    }
  }

  lemma {:induction false} StartStep(s: State, allowed: set<(string, string)>, slot: nat)
    requires Inv(s, allowed) && OneKeyPerId(allowed) && Enabled(s, Start(slot))
    ensures Inv(Next(s, Start(slot)), allowed)
  {
    hide Count, Spent, RowsFit, CallsFit;
    var c := s.calls[slot];
    var t := Next(s, Start(slot));
    StartKeepsCalls(s, allowed, slot);
    WriteFits(s, allowed, c.id, c.key, InProgress);
    SameRows(Write(s, c.id, c.key, InProgress), t, allowed);
    forall key | key != ""
      ensures Count(t.started, key) <= 1 && (Count(t.started, key) > 0 ==> Spent(t.rows, key))
    {
      CountSnoc(s.started, c.key, key);
      if key == c.key || Count(s.started, key) > 0 {
        WriteKeepsSpent(s, allowed, c.id, c.key, InProgress, key);
      }
    }
    forall key, k | key != "" && Count(t.started, key) > 0 && k in t.calls && t.calls[k].key == key
      ensures t.calls[k].phase == Started
    {
      CountSnoc(s.started, c.key, key);
    }
  }

  lemma {:induction false} StartKeepsCalls(s: State, allowed: set<(string, string)>, slot: nat)
    requires Inv(s, allowed) && Enabled(s, Start(slot))
    ensures CallsFit(Next(s, Start(slot)), allowed)
    ensures (s.calls[slot].id, s.calls[slot].key) in allowed
    ensures forall k :: k in s.calls && k != slot && s.calls[k].key == s.calls[slot].key ==> s.calls[k].key == ""
    ensures s.calls[slot].key != "" ==> Count(s.started, s.calls[slot].key) == 0
  {
    hide Count, Spent, RowsFit;
  }

  lemma {:induction false} SameRows(s: State, t: State, allowed: set<(string, string)>)
    requires RowsFit(s, allowed) && t.rows == s.rows && t.clock == s.clock
    ensures RowsFit(t, allowed)
  {
  }

  lemma {:induction false} PhaseStep(s: State, allowed: set<(string, string)>, slot: nat, phase: Phase)
    requires Inv(s, allowed) && slot in s.calls && s.calls[slot].phase in {Claimed, Admitted}
    ensures Inv(s.(calls := s.calls[slot := s.calls[slot].(phase := phase)]), allowed)
  {
    hide Count, Spent;
  }

  lemma {:induction false} LeaveStep(s: State, allowed: set<(string, string)>, slot: nat)
    requires Inv(s, allowed)
    ensures Inv(s.(calls := s.calls - {slot}), allowed)
    ensures Inv(s.(claims := map[], calls := map[]), allowed)
  {
    hide Count, Spent;
  }

  lemma {:induction false} CallIsAllowed(s: State, allowed: set<(string, string)>, slot: nat)
    requires Inv(s, allowed) && slot in s.calls
    ensures (s.calls[slot].id, s.calls[slot].key) in allowed
    ensures s.calls[slot].key != "" && s.calls[slot].phase != Started ==> Count(s.started, s.calls[slot].key) == 0
  {
    hide Count, Spent;
  }

  lemma {:induction false} StepKeepsInv(s: State, allowed: set<(string, string)>, step: Step)
    requires Inv(s, allowed) && OneKeyPerId(allowed) && Enabled(s, step)
    requires step.Submit? ==> (step.id, step.key) in allowed
    ensures Inv(Next(s, step), allowed)
  {
    hide Count, Inv, Decide, OneKeyPerId;
    if !step.Submit? && !step.Restart? {
      CallIsAllowed(s, allowed, step.slot);
    }
    match step
    case Submit(_, _, _, _) => SubmitStep(s, allowed, step);
    case Receive(slot) =>
      RecordStep(s, allowed, s.calls[slot].id, s.calls[slot].key, Received);
      PhaseStep(Write(s, s.calls[slot].id, s.calls[slot].key, Received), allowed, slot, Admitted);
    case Enqueue(slot) =>
      RecordStep(s, allowed, s.calls[slot].id, s.calls[slot].key, Queued);
      PhaseStep(Write(s, s.calls[slot].id, s.calls[slot].key, Queued), allowed, slot, Waiting);
    case Start(slot) => StartStep(s, allowed, slot);
    case SetStatus(slot, status) =>
      RecordStep(s, allowed, s.calls[slot].id, s.calls[slot].key, status);
    case Finish(slot, status) =>
      RecordStep(s, allowed, s.calls[slot].id, s.calls[slot].key, status);
      LeaveStep(Write(s, s.calls[slot].id, s.calls[slot].key, status), allowed, slot);
    case Vanish(slot) => LeaveStep(s, allowed, slot);
    case Restart => LeaveStep(s, allowed, 0);
  }

  // ---------------------------------------------------------------- over whole runs

  lemma {:induction false} RunKeepsInv(states: seq<State>, steps: seq<Step>, allowed: set<(string, string)>, i: nat)
    requires IsRun(states, steps, allowed) && OneKeyPerId(allowed) && i < |states|
    ensures Inv(states[i], allowed)
  {
    hide Enabled, Next, Inv;
    if i == 0 {
      InitialInv(allowed);
    } else {
      RunKeepsInv(states, steps, allowed, i - 1);
      assert StepTaken(states, steps, allowed, i - 1);
      StepKeepsInv(states[i - 1], allowed, steps[i - 1]);
    }
  }

  lemma {:induction false} InitialInv(allowed: set<(string, string)>)
    ensures Inv(INITIAL, allowed)
  {
  }

  ghost predicate StartsOnce(s: State) {
    forall key :: key != "" ==> Count(s.started, key) <= 1
  }

  ghost predicate Moves(s: State, step: Step, t: State) {
    Enabled(s, step) && t == Next(s, step)
  }

  /** A request runs to its end, and its id comes again under another key. */
  lemma {:induction false} TwoKeysUntilCrash(id: string, key: string, other: string) returns (s: seq<State>)
    requires id != "" && key != "" && key != other
    ensures |s| == 7 && s[0] == INITIAL
    ensures Moves(s[0], Submit(id, key, true, 0), s[1]) && Moves(s[1], Receive(0), s[2])
    ensures Moves(s[2], Start(0), s[3]) && Moves(s[3], Finish(0, Done), s[4])
    ensures Moves(s[4], Submit(id, other, true, 0), s[5]) && Moves(s[5], Receive(0), s[6])
    ensures s[6].rows == map[id := Row(other, Received, 3)] && s[6].clock == 4 && s[6].started == [key]
  {
    var claims := if other == "" then map[key := id] else map[key := id][other := id];
    s := [INITIAL,
          State(map[key := id], map[], 0, map[0 := Call(id, key, Claimed)], []),
          State(map[key := id], map[id := Row(key, Received, 0)], 1, map[0 := Call(id, key, Admitted)], []),
          State(map[key := id], map[id := Row(key, InProgress, 1)], 2, map[0 := Call(id, key, Started)], [key]),
          State(map[key := id], map[id := Row(key, Done, 2)], 3, map[], [key]),
          State(claims, map[id := Row(key, Done, 2)], 3, map[0 := Call(id, other, Claimed)], [key]),
          State(claims, map[id := Row(other, Received, 3)], 4, map[0 := Call(id, other, Admitted)], [key])];
  }

  /** After the restart nothing remembers the first key. */
  lemma {:induction false} TwoKeysAfterCrash(crashed: State, id: string, key: string, other: string)
    returns (s: seq<State>)
    requires id != "" && key != "" && key != other
    requires crashed.rows == map[id := Row(other, Received, 3)] && crashed.clock == 4 && crashed.started == [key]
    ensures |s| == 4
    ensures Moves(crashed, Restart, s[0]) && Moves(s[0], Submit(id, key, true, 0), s[1])
    ensures Moves(s[1], Receive(0), s[2]) && Moves(s[2], Start(0), s[3])
    ensures s[3].started == [key, key]
  {
    s := [State(map[], crashed.rows, 4, map[], [key]),
          State(map[key := id], crashed.rows, 4, map[0 := Call(id, key, Claimed)], [key]),
          State(map[key := id], map[id := Row(key, Received, 4)], 5, map[0 := Call(id, key, Admitted)], [key]),
          State(map[key := id], map[id := Row(key, InProgress, 5)], 6, map[0 := Call(id, key, Started)], [key, key])];
  }

  /** A task id submitted under two keys: the second record overwrites the first, so after a
      restart the first key starts again. */
  lemma {:induction false} SecondKeyForgetsFirst(allowed: set<(string, string)>, id: string, key: string, other: string)
    returns (states: seq<State>, steps: seq<Step>)
    requires (id, key) in allowed && (id, other) in allowed && id != "" && key != "" && key != other
    ensures IsRun(states, steps, allowed) && Count(states[|steps|].started, key) == 2
  {
    hide Enabled, Next, Count;
    var before := TwoKeysUntilCrash(id, key, other);
    var after := TwoKeysAfterCrash(before[6], id, key, other);
    states := before + after;
    steps := [Submit(id, key, true, 0), Receive(0), Start(0), Finish(0, Done), Submit(id, other, true, 0), Receive(0),
              Restart, Submit(id, key, true, 0), Receive(0), Start(0)];
    forall i | 0 <= i < |steps| ensures StepTaken(states, steps, allowed, i) {
      assert Moves(states[i], steps[i], states[i + 1]);
    }
    TwoStarts(key);
  }

  lemma {:induction false} TwoStarts(key: string)
    ensures Count([key, key], key) == 2
  {
    CountSnoc([], key, key);
    CountSnoc([key], key, key);
    assert [] + [key] == [key] && [key] + [key] == [key, key];
  }

  /** At most one start per key, across every run and every restart, exactly when no task id
      is ever submitted with two keys. */
  lemma {:induction false} StartsOnceExactly(allowed: set<(string, string)>)
    requires forall p :: p in allowed ==> p.0 != ""
    ensures OneKeyPerId(allowed) <==>
            forall states, steps :: IsRun(states, steps, allowed) ==> StartsOnce(states[|steps|])
  {
    hide StepTaken, Count;
    if OneKeyPerId(allowed) {
      forall states, steps | IsRun(states, steps, allowed) ensures StartsOnce(states[|steps|]) {
        RunKeepsInv(states, steps, allowed, |steps|);
      }
    } else {
      var p, q :| p in allowed && q in allowed && p.0 == q.0 && p.1 != q.1;
      var key, other := if p.1 != "" then p.1 else q.1, if p.1 != "" then q.1 else p.1;
      assert (p.0, key) in allowed && (p.0, other) in allowed by {
        assert p == (p.0, p.1) && q == (q.0, q.1);
      }
      var states, steps := SecondKeyForgetsFirst(allowed, p.0, key, other);
      assert !StartsOnce(states[|steps|]);
    }
  }

  // ---------------------------------------------------------------- what a repeated request gets

  /** A request that does not proceed is answered with the stored terminal result of a task
      submitted under its key, or rejected as long as there is none: of the task that claimed
      the key since the restart, or else of the newest record. It always proceeds without a key,
      and never once its key has been claimed or started. */
  lemma {:induction false} RepeatIsAnswered(s: State, allowed: set<(string, string)>, id: string, key: string)
    requires Inv(s, allowed) && OneKeyPerId(allowed)
    ensures match Decide(s, id, key)
            case Proceed => key == "" || (key !in s.claims && Count(s.started, key) == 0)
            case Repeat(existing, status) =>
              && key != "" && Answers(s, key, existing) && (existing, key) in allowed && existing in s.rows
              && s.rows[existing].key == key && s.rows[existing].status == status
              && status in {Done, Error, Canceled, Skipped, Rejected}
            case Duplicate(existing) =>
              && key != "" && Answers(s, key, existing) && (existing, key) in allowed
              && (existing in s.rows ==> s.rows[existing].status !in {Done, Error, Canceled, Skipped, Rejected})
    ensures key == "" ==> Decide(s, id, key) == Proceed
  {
    hide Count;
    if key != "" && key in s.claims {
      var existing := s.claims[key];
      assert existing in s.rows ==> (existing, s.rows[existing].key) in allowed;
    } else if key != "" {
      if latest :| IsLatest(s.rows, key, latest) {
        LatestIsUnique(s.rows, key, latest);
      }
    }
  }

  /** The task whose record answers a request with the key. */
  ghost predicate Answers(s: State, key: string, existing: string) {
    if key in s.claims then s.claims[key] == existing else IsLatest(s.rows, key, existing)
  }

  /** After a restart a request proceeds exactly when its key has no record or its own
      QUEUED record is the newest with that key. */
  lemma {:induction false} ResumesExactly(s: State, allowed: set<(string, string)>, id: string, key: string)
    requires RowsFit(s, allowed) && key != "" && key !in s.claims
    ensures Decide(s, id, key) == Proceed <==>
              || (forall other :: other in s.rows ==> s.rows[other].key != key)
              || (IsLatest(s.rows, key, id) && s.rows[id].status == Queued)
  {
    if IsLatest(s.rows, key, id) {
      LatestIsUnique(s.rows, key, id);
    } else if exists other :: other in s.rows && s.rows[other].key == key {
      var best := LatestExists(s.rows, s.rows.Keys, key);
      LatestIsUnique(s.rows, key, best);
    }
  }

  lemma {:induction false} LatestExists(rows: map<string, Row>, ids: set<string>, key: string) returns (best: string)
    requires ids <= rows.Keys && exists id :: id in ids && rows[id].key == key
    ensures best in ids && rows[best].key == key
    ensures forall other :: other in ids && rows[other].key == key ==> rows[other].stamp <= rows[best].stamp
    decreases |ids|
  {
    var id :| id in ids && rows[id].key == key;
    var rest := ids - {id};
    best := id;
    if exists other :: other in rest && rows[other].key == key {
      var next := LatestExists(rows, rest, key);
      best := if rows[id].stamp <= rows[next].stamp then next else id;
    }
    assert forall other :: other in ids && rows[other].key == key ==> other == id || other in rest;
  }

  /** The key is spent and no call carries it. */
  ghost predicate Dormant(s: State, key: string) {
    Spent(s.rows, key) && forall k :: k in s.calls ==> s.calls[k].key != key
  }

  lemma {:induction false} DormantStep(s: State, allowed: set<(string, string)>, step: Step, key: string)
    requires Inv(s, allowed) && OneKeyPerId(allowed) && key != "" && Dormant(s, key) && Enabled(s, step)
    requires step.Submit? ==> (step.id, step.key) in allowed
    ensures Dormant(Next(s, step), key) && Count(Next(s, step).started, key) == Count(s.started, key)
  {
    hide Count, Decide, Spent, OneKeyPerId, RowsFit, KeysFit;
    match step
    case Submit(id, k, wellFormed, _) =>
      if !wellFormed {
        WriteKeepsSpent(s, allowed, id, k, Rejected, key);
      } else {
        SpentIsRefused(s, allowed, id, key);
      }
    case Receive(slot) => WriteKeepsSpent(s, allowed, s.calls[slot].id, s.calls[slot].key, Received, key);
    case Enqueue(slot) => WriteKeepsSpent(s, allowed, s.calls[slot].id, s.calls[slot].key, Queued, key);
    case Start(slot) =>
      WriteKeepsSpent(s, allowed, s.calls[slot].id, s.calls[slot].key, InProgress, key);
      CountSnoc(s.started, s.calls[slot].key, key);
    case SetStatus(slot, status) =>
      WriteKeepsSpent(s, allowed, s.calls[slot].id, s.calls[slot].key, status, key);
    case Finish(slot, status) => WriteKeepsSpent(s, allowed, s.calls[slot].id, s.calls[slot].key, status, key);
    case Vanish(_) =>
    case Restart =>
  }

  /** Any continuation of a state, restarts included. */
  ghost predicate Continues(s: State, states: seq<State>, steps: seq<Step>, allowed: set<(string, string)>) {
    && |states| == |steps| + 1 && states[0] == s
    && forall i :: 0 <= i < |steps| ==> StepTaken(states, steps, allowed, i)
  }

  /** No later request with a dormant key proceeds, and the backend never starts for it. */
  lemma {:induction false} DormantForever(s: State, states: seq<State>, steps: seq<Step>,
                                          allowed: set<(string, string)>, key: string, i: nat)
    requires Continues(s, states, steps, allowed) && OneKeyPerId(allowed) && i < |states|
    requires Inv(s, allowed) && key != "" && Dormant(s, key)
    ensures Inv(states[i], allowed) && Dormant(states[i], key) && Count(states[i].started, key) == Count(s.started, key)
    ensures forall id :: Decide(states[i], id, key) != Proceed
  {
    hide Enabled, Next, Inv, Dormant, Count, Decide;
    if i > 0 {
      DormantForever(s, states, steps, allowed, key, i - 1);
      assert StepTaken(states, steps, allowed, i - 1);
      StepKeepsInv(states[i - 1], allowed, steps[i - 1]);
      DormantStep(states[i - 1], allowed, steps[i - 1], key);
    }
    forall id ensures Decide(states[i], id, key) != Proceed {
      DormantIsRefused(states[i], allowed, id, key);
    }
  }

  lemma {:induction false} DormantIsRefused(s: State, allowed: set<(string, string)>, id: string, key: string)
    requires Inv(s, allowed) && key != "" && Dormant(s, key)
    ensures Decide(s, id, key) != Proceed
  {
    SpentIsRefused(s, allowed, id, key);
  }

  /** A malformed request shadows a queued record of its key, or overwrites it when it comes
      under the same id: after a restart the queued request is answered with the rejection,
      and in no continuation does a request with that key proceed or its backend start. */
  lemma {:induction false} MalformedShadowsQueued(s: State, allowed: set<(string, string)>, id: string, key: string,
                                                  other: string, slot: nat, states: seq<State>, steps: seq<Step>,
                                                  i: nat)
    requires Inv(s, allowed) && OneKeyPerId(allowed)
    requires key != "" && other != "" && (other, key) in allowed && slot !in s.calls
    requires IsLatest(s.rows, key, id) && s.rows[id].status == Queued
    requires Continues(Next(Next(s, Submit(other, key, false, slot)), Restart), states, steps, allowed) && i < |states|
    ensures Decide(states[0], id, key) == Repeat(other, Rejected)
    ensures states[0].rows[id].status == if id == other then Rejected else Queued
    ensures (forall any :: Decide(states[i], any, key) != Proceed)
            && Count(states[i].started, key) == Count(s.started, key)
  {
    hide Count, Inv;
    var t := Next(s, Submit(other, key, false, slot));
    StepKeepsInv(s, allowed, Submit(other, key, false, slot));
    StepKeepsInv(t, allowed, Restart);
    RejectionIsLatest(s, allowed, key, other);
    DormantForever(Next(t, Restart), states, steps, allowed, key, i);
  }

  lemma {:induction false} RejectionIsLatest(s: State, allowed: set<(string, string)>, key: string, other: string)
    requires Inv(s, allowed) && (other, key) in allowed
    ensures var t := Write(s, other, key, Rejected);
            IsLatest(t.rows, key, other) && Latest(t.rows, key) == Some(other)
  {
    var t := Write(s, other, key, Rejected);
    WriteFits(s, allowed, other, key, Rejected);
    assert IsLatest(t.rows, key, other);
    LatestIsUnique(t.rows, key, other);
  }

  // ---------------------------------------------------------------- what resumes after a restart

  /** What the step writes into the table. */
  datatype Record = Record(id: string, key: string, status: Status)

  function CallRecord(s: State, slot: nat, status: Status): Option<Record> {
    if slot in s.calls then Some(Record(s.calls[slot].id, s.calls[slot].key, status)) else None
  }

  function Written(s: State, step: Step): Option<Record> {
    match step
    case Submit(id, key, wellFormed, _) => if wellFormed then None else Some(Record(id, key, Rejected))
    case Receive(slot) => CallRecord(s, slot, Received)
    case Enqueue(slot) => CallRecord(s, slot, Queued)
    case Start(slot) => CallRecord(s, slot, InProgress)
    case SetStatus(slot, status) => CallRecord(s, slot, status)
    case Finish(slot, status) => CallRecord(s, slot, status)
    case Vanish(_) => None
    case Restart => None
  }

  predicate Records(s: State, step: Step, key: string) {
    Written(s, step).Some? && Written(s, step).value.key == key
  }

  /** The i-th step is the last of the first n to record the key. */
  ghost predicate LastRecorded(states: seq<State>, steps: seq<Step>, key: string, i: nat, n: nat)
    requires n <= |steps| <= |states|
  {
    && i < n && Records(states[i], steps[i], key)
    && forall j :: i < j < n ==> !Records(states[j], steps[j], key)
  }

  /** The newest record of the key stays so, unchanged, and none of that key appears. */
  ghost predicate KeepsRecords(before: map<string, Row>, after: map<string, Row>, key: string) {
    && (forall id :: IsLatest(before, key, id) ==> IsLatest(after, key, id) && after[id] == before[id])
    && (forall id :: id in after && after[id].key == key ==> id in before && before[id].key == key)
  }

  lemma {:induction false} WriteRecords(s: State, allowed: set<(string, string)>, r: Record, key: string)
    requires RowsFit(s, allowed) && OneKeyPerId(allowed) && (r.id, r.key) in allowed
    ensures var rows := Write(s, r.id, r.key, r.status).rows;
            if r.key == key then IsLatest(rows, key, r.id) && rows[r.id].status == r.status
            else KeepsRecords(s.rows, rows, key)
  {
    assert r.id in s.rows ==> (r.id, s.rows[r.id].key) in allowed;
  }

  lemma {:induction false} NextRows(s: State, step: Step)
    requires Enabled(s, step)
    ensures Next(s, step).rows == match Written(s, step)
                                  case None => s.rows
                                  case Some(r) => Write(s, r.id, r.key, r.status).rows
  {
    hide Decide;
  }

  /** The step records the key, or leaves its newest record as it is. */
  lemma {:induction false} StepRecords(s: State, allowed: set<(string, string)>, step: Step, key: string)
    requires Inv(s, allowed) && OneKeyPerId(allowed) && Enabled(s, step)
    requires step.Submit? ==> (step.id, step.key) in allowed
    ensures var rows := Next(s, step).rows;
            if Records(s, step, key) then
              var r := Written(s, step).value;
              IsLatest(rows, key, r.id) && rows[r.id].status == r.status
            else KeepsRecords(s.rows, rows, key)
  {
    hide KeysFit, RowsFit, Next, IsLatest, Write;
    NextRows(s, step);
    if Written(s, step).Some? {
      WriteRecords(s, allowed, Written(s, step).value, key);
    }
  }

  lemma {:induction false} SameLast(states: seq<State>, steps: seq<Step>, key: string, before: nat, n: nat)
    requires n == before + 1 <= |steps| <= |states| && !Records(states[before], steps[before], key)
    ensures forall i: nat :: LastRecorded(states, steps, key, i, n) <==> LastRecorded(states, steps, key, i, before)
  {
    hide Records;
  }

  /** The newest record of a key is what the last step to record it wrote. */
  lemma {:induction false} LatestIsLastRecorded(states: seq<State>, steps: seq<Step>, allowed: set<(string, string)>,
                                                key: string, n: nat)
    requires IsRun(states, steps, allowed) && OneKeyPerId(allowed) && n <= |steps|
    ensures (exists i: nat :: LastRecorded(states, steps, key, i, n))
         || ((forall id :: id in states[n].rows ==> states[n].rows[id].key != key)
             && forall i :: 0 <= i < n ==> !Records(states[i], steps[i], key))
    ensures forall i: nat :: LastRecorded(states, steps, key, i, n) ==>
              var r := Written(states[i], steps[i]).value;
              IsLatest(states[n].rows, key, r.id) && states[n].rows[r.id].status == r.status
  {
    hide Enabled, Next, IsLatest, Inv, Written, OneKeyPerId;
    if n > 0 {
      LatestIsLastRecorded(states, steps, allowed, key, n - 1);
      assert StepTaken(states, steps, allowed, n - 1);
      RunKeepsInv(states, steps, allowed, n - 1);
      StepRecords(states[n - 1], allowed, steps[n - 1], key);
      if Records(states[n - 1], steps[n - 1], key) {
        assert LastRecorded(states, steps, key, n - 1, n);
      } else {
        SameLast(states, steps, key, n - 1, n);
      }
    }
  }

  /** Over whole runs, restarts included: a request proceeds after the next restart if and
      only if no step recorded its key, or the last that did was its own queueing. */
  lemma {:induction false} ProceedsByLastRecord(states: seq<State>, steps: seq<Step>, allowed: set<(string, string)>,
                                                id: string, key: string)
    requires IsRun(states, steps, allowed) && OneKeyPerId(allowed) && key != ""
    ensures Decide(Next(states[|steps|], Restart), id, key) == Proceed <==>
              || (forall i :: 0 <= i < |steps| ==> !Records(states[i], steps[i], key))
              || (exists i: nat ::
                    LastRecorded(states, steps, key, i, |steps|)
                    && Written(states[i], steps[i]) == Some(Record(id, key, Queued)))
  {
    hide Decide, StepTaken, Written, OneKeyPerId, CallsFit, KeysFit;
    var last := states[|steps|];
    RunKeepsInv(states, steps, allowed, |steps|);
    LatestIsLastRecorded(states, steps, allowed, key, |steps|);
    ResumesExactly(Next(last, Restart), allowed, id, key);
    if i: nat :| LastRecorded(states, steps, key, i, |steps|) {
      var r := Written(states[i], steps[i]).value;
      LatestIsUnique(last.rows, key, r.id);
      if IsLatest(last.rows, key, id) {
        LatestIsUnique(last.rows, key, id);
      }
      forall j: nat | LastRecorded(states, steps, key, j, |steps|) ensures j == i {
        assert !(i < j) && !(j < i);
      }
    }
  }

  /** A malformed request with that key is recorded. */
  predicate Shadows(step: Step, key: string) {
    step.Submit? && !step.wellFormed && step.key == key
  }

  /** The key is claimed, and the calls that carry it are past being queued. */
  ghost predicate Held(s: State, key: string) {
    key in s.claims && forall k :: k in s.calls && s.calls[k].key == key ==> s.calls[k].phase in {Waiting, Started}
  }

  lemma {:induction false} HeldStep(s: State, allowed: set<(string, string)>, step: Step, id: string, key: string)
    requires Inv(s, allowed) && OneKeyPerId(allowed) && key != "" && Held(s, key) && Enabled(s, step) && !step.Restart?
    requires step.Submit? ==> (step.id, step.key) in allowed
    ensures Held(Next(s, step), key)
    ensures Spent(s.rows, key) || Shadows(step, key) ==> Spent(Next(s, step).rows, key)
    ensures IsLatest(s.rows, key, id) && s.claims[key] == id && !Shadows(step, key) ==>
              IsLatest(Next(s, step).rows, key, id)
    ensures Next(s, step).claims[key] == s.claims[key]
  {
    hide KeysFit, Decide, Count, IsLatest, RowsFit, OneKeyPerId;
    StepRecords(s, allowed, step, key);
    if step.Submit? && step.wellFormed && step.key == key {
      ClaimedIsRefused(s, step.id, key);
    }
    if Records(s, step, key) {
      assert Written(s, step).value.status != Queued;
    }
  }

  lemma {:induction false} ClaimedIsRefused(s: State, id: string, key: string)
    requires key != "" && key in s.claims
    ensures Decide(s, id, key) != Proceed
  {
  }

  lemma {:induction false} HeldRun(s: State, states: seq<State>, steps: seq<Step>, allowed: set<(string, string)>,
                                   id: string, key: string, n: nat)
    requires Continues(s, states, steps, allowed) && OneKeyPerId(allowed) && n < |states|
    requires Inv(s, allowed) && key != "" && Held(s, key) && s.claims[key] == id && IsLatest(s.rows, key, id)
    requires forall i :: 0 <= i < |steps| ==> !steps[i].Restart?
    ensures Inv(states[n], allowed) && Held(states[n], key) && states[n].claims[key] == id && id in states[n].rows
    ensures if exists i :: 0 <= i < n && Shadows(steps[i], key) then Spent(states[n].rows, key)
            else IsLatest(states[n].rows, key, id)
  {
    hide Enabled, Next, Inv, Spent, Shadows, Held, Written, OneKeyPerId;
    if n > 0 {
      HeldRun(s, states, steps, allowed, id, key, n - 1);
      assert StepTaken(states, steps, allowed, n - 1);
      StepKeepsInv(states[n - 1], allowed, steps[n - 1]);
      HeldStep(states[n - 1], allowed, steps[n - 1], id, key);
      NextRows(states[n - 1], steps[n - 1]);
    }
  }

  lemma {:induction false} QueueHolds(s: State, allowed: set<(string, string)>, slot: nat)
    requires Inv(s, allowed) && OneKeyPerId(allowed) && Enabled(s, Enqueue(slot)) && s.calls[slot].key != ""
    ensures var c, t := s.calls[slot], Next(s, Enqueue(slot));
            Held(t, c.key) && t.claims[c.key] == c.id && IsLatest(t.rows, c.key, c.id)
  {
    hide KeysFit, IsLatest, OneKeyPerId;
    StepRecords(s, allowed, Enqueue(slot), s.calls[slot].key);
  }

  /** A call that was queued resumes at the next restart if and only if its record is still
      QUEUED and no malformed request with its key was recorded since. */
  lemma {:induction false} QueuedResumesExactly(s: State, allowed: set<(string, string)>, slot: nat, states: seq<State>,
                                                steps: seq<Step>)
    requires Inv(s, allowed) && OneKeyPerId(allowed) && Enabled(s, Enqueue(slot)) && s.calls[slot].key != ""
    requires Continues(Next(s, Enqueue(slot)), states, steps, allowed)
    requires forall i :: 0 <= i < |steps| ==> !steps[i].Restart?
    ensures var c, last := s.calls[slot], states[|steps|];
            && c.id in last.rows
            && (Decide(Next(last, Restart), c.id, c.key) == Proceed <==>
                  last.rows[c.id].status == Queued && forall i :: 0 <= i < |steps| ==> !Shadows(steps[i], c.key))
  {
    hide Decide, StepTaken, Count, OneKeyPerId, KeysFit, CallsFit;
    var c, t, last := s.calls[slot], Next(s, Enqueue(slot)), states[|steps|];
    StepKeepsInv(s, allowed, Enqueue(slot));
    QueueHolds(s, allowed, slot);
    HeldRun(t, states, steps, allowed, c.id, c.key, |steps|);
    ResumesExactly(Next(last, Restart), allowed, c.id, c.key);
  }

  /** A resuming request that a crash stops after its RECEIVED record and before it is queued
      again never resumes: in no continuation does a request with its key proceed or its
      backend start. */
  lemma {:induction false} CrashedResumptionIsLost(s: State, allowed: set<(string, string)>, id: string, key: string,
                                                   slot: nat, states: seq<State>, steps: seq<Step>, i: nat)
    requires Inv(s, allowed) && OneKeyPerId(allowed) && s.claims == map[] && s.calls == map[] && id != "" && key != ""
    requires IsLatest(s.rows, key, id) && s.rows[id].status == Queued
    requires var resumed := Next(s, Submit(id, key, true, slot));
             && Enabled(resumed, Receive(slot))
             && Continues(Next(Next(resumed, Receive(slot)), Restart), states, steps, allowed)
    requires i < |states|
    ensures (forall any :: Decide(states[i], any, key) != Proceed)
            && Count(states[i].started, key) == Count(s.started, key)
  {
    hide Count, Inv, OneKeyPerId;
    var resumed := Next(s, Submit(id, key, true, slot));
    assert (id, key) in allowed && Decide(s, id, key) == Proceed by {
      LatestIsAllowed(s, allowed, id, key);
    }
    StepKeepsInv(s, allowed, Submit(id, key, true, slot));
    var received := Next(resumed, Receive(slot));
    StepKeepsInv(resumed, allowed, Receive(slot));
    StepKeepsInv(received, allowed, Restart);
    StepRecords(resumed, allowed, Receive(slot), key);
    DormantForever(Next(received, Restart), states, steps, allowed, key, i);
  }

  lemma {:induction false} LatestIsAllowed(s: State, allowed: set<(string, string)>, id: string, key: string)
    requires Inv(s, allowed) && key != "" && key !in s.claims && IsLatest(s.rows, key, id)
             && s.rows[id].status == Queued
    ensures (id, key) in allowed && Decide(s, id, key) == Proceed
  {
    hide CallsFit, KeysFit;
    ResumesExactly(s, allowed, id, key);
  }

  // ---------------------------------------------------------------- the check in place

  class IdempotencyGate {
    var claims: map<string, string>
    var rows: map<string, Row>
    var clock: nat

    ghost function View(): State
      reads this
    {
      State(claims, rows, clock, map[], [])
    }

    ghost predicate Stamped()
      reads this
    {
      && (forall id :: id in rows ==> rows[id].stamp < clock)
      && (forall i, j :: i in rows && j in rows && i != j ==> rows[i].stamp != rows[j].stamp)
    }

    constructor (stored: map<string, Row>, clock: nat)
      requires forall id :: id in stored ==> stored[id].stamp < clock
      requires forall i, j :: i in stored && j in stored && i != j ==> stored[i].stamp != stored[j].stamp
      ensures Stamped() && View() == State(map[], stored, clock, map[], [])
    {
      claims, rows, this.clock := map[], stored, clock;
    }

    method WriteTaskRecord(id: string, key: string, status: Status)
      requires Stamped()
      modifies `rows, `clock
      ensures Stamped() && View() == Write(old(View()), id, key, status)
    {
      rows := rows[id := Row(key, status, clock)];
      clock := clock + 1;
    }

    method TaskRecordByKey(key: string) returns (found: Option<string>)
      requires Stamped()
      ensures found == Latest(rows, key)
    {
      found := None;
      var rest := rows.Keys;
      while rest != {}
        invariant rest <= rows.Keys
        invariant found.None? ==> forall id :: id in rows && id !in rest ==> rows[id].key != key
        invariant found.Some? ==>
                    && found.value in rows && rows[found.value].key == key
                    && forall id :: id in rows && id !in rest && rows[id].key == key ==>
                       rows[id].stamp <= rows[found.value].stamp
        decreases |rest|
      {
        var id :| id in rest;
        rest := rest - {id};
        if rows[id].key == key && (found.None? || rows[id].stamp > rows[found.value].stamp) {
          found := Some(id);
        }
      }
      if found.Some? {
        assert IsLatest(rows, key, found.value);
        LatestIsUnique(rows, key, found.value);
      }
    }

    method ClaimOrGet(id: string, key: string) returns (reply: Reply)
      requires Stamped() && id != ""
      modifies `claims
      ensures reply == Decide(old(View()), id, key)
      ensures claims == if reply == Proceed && key != "" then old(claims)[key := id] else old(claims)
    {
      if key == "" {
        return Proceed;
      }
      var existing := if key in claims then Some(claims[key]) else None;
      if existing.None? {
        existing := TaskRecordByKey(key);
        if existing.Some? {
          if existing.value == id && rows[id].status == Queued {
            claims := claims[key := id];
            return Proceed;
          }
          if Terminal(rows[existing.value].status) {
            return Repeat(existing.value, rows[existing.value].status);
          }
        }
      }
      if existing.None? {
        claims := claims[key := id];
        return Proceed;
      }
      if existing.value in rows && Terminal(rows[existing.value].status) {
        return Repeat(existing.value, rows[existing.value].status);
      }
      reply := Duplicate(existing.value);
    }
  }
}
