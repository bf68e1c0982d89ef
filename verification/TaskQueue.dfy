/** Tasks waiting to be admitted: the queue under its condition lock, one step per pass of a
    waiter through its loop. */
module TaskQueue {
  import opened Common

  datatype Entry = Entry(id: string, priority: int, index: nat, readyAt: int)

  type Queue = map<string, Entry>

  /** The order among ready entries: higher priority, then first come. */
  predicate Before(a: Entry, b: Entry) {
    a.priority > b.priority || (a.priority == b.priority && a.index < b.index)
  }

  /** The head at a time: ready, and no ready entry comes before it. */
  ghost predicate IsHead(q: Queue, e: Entry, now: int) {
    && e.id in q && q[e.id] == e && e.readyAt <= now
    && forall id :: id in q && q[id].readyAt <= now ==> !Before(q[id], e)
  }

  /** Entries stand under their own id, with indices handed out once. */
  ghost predicate WellFormed(q: Queue, sequence: nat) {
    && (forall id :: id in q ==> q[id].id == id && q[id].index <= sequence)
    && (forall a, b :: a in q && b in q && a != b ==> q[a].index != q[b].index)
  }

  lemma {:induction false} HeadIsUnique(q: Queue, sequence: nat, a: Entry, b: Entry, now: int)
    requires WellFormed(q, sequence) && IsHead(q, a, now) && IsHead(q, b, now)
    ensures a == b
  {
    assert !Before(q[a.id], b) && !Before(q[b.id], a);
  }

  /** While anything is ready there is a head. */
  lemma {:induction false} HeadExists(q: Queue, sequence: nat, ids: set<string>, now: int) returns (head: Entry)
    requires WellFormed(q, sequence) && ids <= q.Keys && exists id :: id in ids && q[id].readyAt <= now
    ensures head.id in ids && q[head.id] == head && head.readyAt <= now
    ensures forall id :: id in ids && q[id].readyAt <= now ==> !Before(q[id], head)
    decreases |ids|
  {
    var id :| id in ids && q[id].readyAt <= now;
    head := q[id];
    var rest := ids - {id};
    if exists other :: other in rest && q[other].readyAt <= now {
      var next := HeadExists(q, sequence, rest, now);
      head := if Before(q[id], next) then q[id] else next;
    }
    assert forall other :: other in ids && q[other].readyAt <= now ==> other == id || other in rest;
  }

  // ---------------------------------------------------------------- one pass of a waiter

  datatype Exit = Waiting | Admitted | Withdrawn | Expired

  /** What a waiter finds when it holds the lock: cancel first, then deadline, then its turn. */
  ghost predicate PollResult(q: Queue, e: Entry, now: int, cancelRequested: bool, expired: bool, allowed: bool,
                             exit: Exit) {
    exit == if cancelRequested then Withdrawn
            else if expired then Expired
            else if e.readyAt <= now && allowed && HeadId(q, e, now) then Admitted
            else Waiting
  }

  /** The source compares task ids, not entries. */
  ghost predicate HeadId(q: Queue, e: Entry, now: int) {
    exists head :: IsHead(q, head, now) && head.id == e.id
  }

  // ---------------------------------------------------------------- steps and runs

  /** The queue, and every waiter inside the loop with the entry it put in, which may by now
      have been replaced or taken away. */
  datatype State = State(entries: Queue, sequence: nat, waiters: set<Entry>)

  datatype Step =
    | Join(id: string, priority: int, readyAt: int)
    | Turn(entry: Entry, now: int, cancelRequested: bool, expired: bool, allowed: bool, exit: Exit)

  predicate HasRoom(q: Queue, maxSize: nat) {
    maxSize > 0 ==> |q| < maxSize
  }

  /** A full queue turns a newcomer away; otherwise its entry takes the place under its id,
      whoever holds it. A waiter that leaves takes away whatever stands under its id. */
  ghost predicate Steps(s: State, step: Step, t: State, maxSize: nat) {
    match step
    case Join(id, priority, readyAt) =>
      var e := Entry(id, priority, s.sequence + 1, readyAt);
      t == if HasRoom(s.entries, maxSize) then State(s.entries[id := e], s.sequence + 1, s.waiters + {e}) else s
    case Turn(e, now, cancelRequested, expired, allowed, exit) =>
      && e in s.waiters
      && PollResult(s.entries, e, now, cancelRequested, expired, allowed, exit)
      && t == if exit == Waiting then s else State(s.entries - {e.id}, s.sequence, s.waiters - {e})
  }

  ghost predicate IsRun(states: seq<State>, steps: seq<Step>, maxSize: nat) {
    && |states| == |steps| + 1 && states[0] == State(map[], 0, {})
    && forall i :: 0 <= i < |steps| ==> StepAt(states, steps, maxSize, i)
  }

  ghost predicate StepAt(states: seq<State>, steps: seq<Step>, maxSize: nat, i: nat)
    requires i < |steps| && i + 1 < |states|
  {
    Steps(states[i], steps[i], states[i + 1], maxSize)
  }

  /** The queue within its size, every entry put in by somebody still waiting. */
  ghost predicate Fits(s: State, maxSize: nat) {
    && WellFormed(s.entries, s.sequence)
    && (maxSize > 0 ==> |s.entries| <= maxSize)
    && (forall id :: id in s.entries ==> s.entries[id] in s.waiters)
    && (forall e :: e in s.waiters ==> e.index <= s.sequence)
    && (forall a, b :: a in s.waiters && b in s.waiters && a != b ==> a.index != b.index)
  }

  lemma {:induction false} JoinWellFormed(q: Queue, sequence: nat, e: Entry)
    requires WellFormed(q, sequence) && e.index == sequence + 1
    ensures WellFormed(q[e.id := e], sequence + 1) && |q[e.id := e]| <= |q| + 1
  {
    assert q[e.id := e].Keys == q.Keys + {e.id};
  }

  lemma {:induction false} JoinFits(s: State, e: Entry, maxSize: nat)
    requires Fits(s, maxSize) && HasRoom(s.entries, maxSize) && e.index == s.sequence + 1
    ensures Fits(State(s.entries[e.id := e], s.sequence + 1, s.waiters + {e}), maxSize)
  {
    hide WellFormed;
    JoinWellFormed(s.entries, s.sequence, e);
  }

  lemma {:induction false} LeaveFits(s: State, e: Entry, maxSize: nat)
    requires Fits(s, maxSize)
    ensures Fits(State(s.entries - {e.id}, s.sequence, s.waiters - {e}), maxSize)
  {
    assert (s.entries - {e.id}).Keys == s.entries.Keys - {e.id};
  }

  lemma {:induction false} StepFits(s: State, step: Step, t: State, maxSize: nat)
    requires Fits(s, maxSize) && Steps(s, step, t, maxSize)
    ensures Fits(t, maxSize)
  {
    hide Fits, PollResult;
    if step.Join? {
      if HasRoom(s.entries, maxSize) {
        JoinFits(s, Entry(step.id, step.priority, s.sequence + 1, step.readyAt), maxSize);
      }
    } else if step.exit != Waiting {
      LeaveFits(s, step.entry, maxSize);
    }
  }

  lemma {:induction false} RunFits(states: seq<State>, steps: seq<Step>, maxSize: nat, i: nat)
    requires IsRun(states, steps, maxSize) && i < |states|
    ensures Fits(states[i], maxSize)
  {
    hide Fits, Steps;
    if i == 0 {
      EmptyFits(maxSize);
    } else {
      RunFits(states, steps, maxSize, i - 1);
      assert StepAt(states, steps, maxSize, i - 1);
      StepFits(states[i - 1], steps[i - 1], states[i], maxSize);
    }
  }

  lemma {:induction false} EmptyFits(maxSize: nat)
    ensures Fits(State(map[], 0, {}), maxSize)
  {
  }

  // ---------------------------------------------------------------- keeping one's place

  /** The entry under e's id is e's own. */
  predicate InPlace(s: State, e: Entry) {
    e.id in s.entries && s.entries[e.id] == e
  }

  /** The step is this entry's own way out. */
  ghost predicate Leaves(step: Step, e: Entry) {
    step.Turn? && step.entry == e && step.exit != Waiting
  }

  /** Every waiter in place stays there, or leaves by its own exit. */
  ghost predicate KeepsPlace(s: State, step: Step, t: State) {
    forall e :: e in s.waiters && InPlace(s, e) ==> InPlace(t, e) || Leaves(step, e)
  }

  /** A request joins, with room, under an id that is waiting. */
  predicate Overwrites(s: State, step: Step, maxSize: nat) {
    step.Join? && HasRoom(s.entries, maxSize) && step.id in s.entries
  }

  /** A waiter leaves and takes away somebody else's entry. */
  predicate Usurps(s: State, step: Step) {
    step.Turn? && step.exit != Waiting && step.entry.id in s.entries && s.entries[step.entry.id] != step.entry
  }

  lemma {:induction false} KeepsPlaceExactly(s: State, step: Step, t: State, maxSize: nat)
    requires Fits(s, maxSize) && Steps(s, step, t, maxSize)
    ensures KeepsPlace(s, step, t) <==> !Overwrites(s, step, maxSize) && !Usurps(s, step)
  {
    hide PollResult;
    if Overwrites(s, step, maxSize) {
      var e := s.entries[step.id];
      assert e in s.waiters && InPlace(s, e) && t.entries[step.id].index == s.sequence + 1;
    } else if Usurps(s, step) {
      var e := s.entries[step.entry.id];
      assert e in s.waiters && InPlace(s, e) && !InPlace(t, e);
    }
  }

  ghost predicate EveryStepKeepsPlace(states: seq<State>, steps: seq<Step>, n: nat)
    requires |states| == |steps| + 1 && n <= |steps|
  {
    forall i :: 0 <= i < n ==> KeepsPlace(states[i], steps[i], states[i + 1])
  }

  ghost predicate NeverOverwrites(states: seq<State>, steps: seq<Step>, maxSize: nat, n: nat)
    requires |states| == |steps| + 1 && n <= |steps|
  {
    forall i :: 0 <= i < n ==> !Overwrites(states[i], steps[i], maxSize)
  }

  ghost predicate AllInPlace(s: State) {
    forall e :: e in s.waiters ==> InPlace(s, e)
  }

  lemma {:induction false} InPlaceStep(s: State, step: Step, t: State, maxSize: nat)
    requires Fits(s, maxSize) && Steps(s, step, t, maxSize) && AllInPlace(s) && !Overwrites(s, step, maxSize)
    ensures AllInPlace(t) && !Usurps(s, step)
  {
    hide PollResult, WellFormed;
    if step.Turn? {
      assert InPlace(s, step.entry);
    }
  }

  lemma {:induction false} AllStayInPlace(states: seq<State>, steps: seq<Step>, maxSize: nat, n: nat)
    requires IsRun(states, steps, maxSize) && n <= |steps| && NeverOverwrites(states, steps, maxSize, n)
    ensures AllInPlace(states[n])
  {
    hide Steps, Fits, AllInPlace;
    if n == 0 {
      NobodyInPlace();
    } else {
      AllStayInPlace(states, steps, maxSize, n - 1);
      RunFits(states, steps, maxSize, n - 1);
      assert StepAt(states, steps, maxSize, n - 1);
      InPlaceStep(states[n - 1], steps[n - 1], states[n], maxSize);
    }
  }

  lemma {:induction false} NobodyInPlace()
    ensures AllInPlace(State(map[], 0, {}))
  {
  }

  /** Over a run everybody keeps the place it took, or leaves by its own exit, if and only if
      no request ever joins, with room, under an id that is waiting. */
  lemma {:induction false} RunKeepsPlacesExactly(states: seq<State>, steps: seq<Step>, maxSize: nat)
    requires IsRun(states, steps, maxSize)
    ensures EveryStepKeepsPlace(states, steps, |steps|) <==> NeverOverwrites(states, steps, maxSize, |steps|)
  {
    hide Steps, Fits, KeepsPlace, AllInPlace, Overwrites;
    forall i | 0 <= i < |steps|
      ensures KeepsPlace(states[i], steps[i], states[i + 1])
         <==> !Overwrites(states[i], steps[i], maxSize) && !Usurps(states[i], steps[i])
    {
      RunFits(states, steps, maxSize, i);
      assert StepAt(states, steps, maxSize, i);
      KeepsPlaceExactly(states[i], steps[i], states[i + 1], maxSize);
    }
    if NeverOverwrites(states, steps, maxSize, |steps|) {
      forall i | 0 <= i < |steps| ensures KeepsPlace(states[i], steps[i], states[i + 1]) {
        RunFits(states, steps, maxSize, i);
        assert StepAt(states, steps, maxSize, i);
        AllStayInPlace(states, steps, maxSize, i);
        InPlaceStep(states[i], steps[i], states[i + 1], maxSize);
      }
    }
    if EveryStepKeepsPlace(states, steps, |steps|) {
      forall i | 0 <= i < |steps| ensures !Overwrites(states[i], steps[i], maxSize) {
        assert KeepsPlace(states[i], steps[i], states[i + 1]);
      }
    }
  }

  /** A waiter's entry stays until its own exit while no step overwrites or usurps it. */
  lemma {:induction false} StaysUntilExit(states: seq<State>, steps: seq<Step>, maxSize: nat, e: Entry, i: nat, k: nat)
    requires IsRun(states, steps, maxSize) && NeverOverwrites(states, steps, maxSize, |steps|) && i <= k < |states|
    requires e in states[i].waiters
    requires forall j :: i <= j < k ==> !Leaves(steps[j], e)
    ensures e in states[k].waiters && InPlace(states[k], e)
    decreases k
  {
    hide PollResult, Overwrites;
    if i < k {
      StaysUntilExit(states, steps, maxSize, e, i, k - 1);
      assert StepAt(states, steps, maxSize, k - 1);
    }
    AllStayInPlace(states, steps, maxSize, k);
  }

  /** No overtaking: whoever is admitted, every request that was waiting, had not left and was
      ready does not come before it. */
  lemma {:induction false} NoOvertaking(states: seq<State>, steps: seq<Step>, maxSize: nat, e: Entry, i: nat, k: nat)
    requires IsRun(states, steps, maxSize) && NeverOverwrites(states, steps, maxSize, |steps|) && i <= k < |steps|
    requires e in states[i].waiters
    requires forall j :: i <= j < k ==> !Leaves(steps[j], e)
    requires steps[k].Turn? && steps[k].exit == Admitted && e.readyAt <= steps[k].now
    ensures !Before(e, steps[k].entry) && steps[k].entry.readyAt <= steps[k].now
  {
    hide Overwrites;
    StaysUntilExit(states, steps, maxSize, e, i, k);
    AllStayInPlace(states, steps, maxSize, k);
    assert StepAt(states, steps, maxSize, k);
    assert InPlace(states[k], steps[k].entry);
    HeadByIdIsHead(states[k].entries, steps[k].entry, steps[k].now);
    assert IsHead(states[k].entries, steps[k].entry, steps[k].now);
    assert !Before(states[k].entries[e.id], steps[k].entry);
  }

  /** With its own entry in the queue, being head by id and being the head are the same. */
  lemma {:induction false} HeadByIdIsHead(q: Queue, e: Entry, now: int)
    requires e.id in q && q[e.id] == e
    ensures HeadId(q, e, now) <==> IsHead(q, e, now)
  {
  }

  // ---------------------------------------------------------------- what a request is promised

  /** The waiter that came in at step i. */
  ghost predicate CameIn(states: seq<State>, i: nat, e: Entry) {
    i + 1 < |states| && e in states[i + 1].waiters && e !in states[i].waiters
  }

  /** A request that finds room waits under what it asked for, behind all that came before. */
  lemma {:induction false} JoinWaits(states: seq<State>, steps: seq<Step>, maxSize: nat, i: nat) returns (e: Entry)
    requires IsRun(states, steps, maxSize) && i < |steps| && steps[i].Join?
    requires maxSize == 0 || |states[i].entries| < maxSize
    ensures CameIn(states, i, e) && InPlace(states[i + 1], e) && forall f :: CameIn(states, i, f) ==> f == e
    ensures e.id == steps[i].id && e.priority == steps[i].priority && e.readyAt == steps[i].readyAt
    ensures forall f :: f in states[i].waiters ==> f.index < e.index
  {
    assert StepAt(states, steps, maxSize, i);
    RunFits(states, steps, maxSize, i);
    e := Entry(steps[i].id, steps[i].priority, states[i].sequence + 1, steps[i].readyAt);
  }

  /** A full queue turns the request away: nobody comes in. */
  lemma {:induction false} FullTurnsAway(states: seq<State>, steps: seq<Step>, maxSize: nat, i: nat, e: Entry)
    requires IsRun(states, steps, maxSize) && i < |steps| && CameIn(states, i, e)
    ensures steps[i].Join? && (maxSize == 0 || |states[i].entries| < maxSize)
    ensures e.id == steps[i].id && e.priority == steps[i].priority && e.readyAt == steps[i].readyAt
  {
    assert StepAt(states, steps, maxSize, i);
    RunFits(states, steps, maxSize, i);
  }

  /** Every waiter came in by a request. */
  lemma {:induction false} EveryWaiterCameIn(states: seq<State>, steps: seq<Step>, maxSize: nat, e: Entry, k: nat)
    returns (i: nat)
    requires IsRun(states, steps, maxSize) && k < |states| && e in states[k].waiters
    ensures i < k && CameIn(states, i, e) && steps[i].Join? && (maxSize == 0 || |states[i].entries| < maxSize)
  {
    hide Steps;
    if k > 0 && e in states[k - 1].waiters {
      i := EveryWaiterCameIn(states, steps, maxSize, e, k - 1);
    } else {
      assert k > 0;
      i := k - 1;
      FullTurnsAway(states, steps, maxSize, i, e);
    }
  }

  /** How a waiter leaves: canceled before all, expired before admitted, and admitted only when
      the policy allows it at a time not before the one its request asked for. */
  lemma {:induction false} AdmittedWhenDue(states: seq<State>, steps: seq<Step>, maxSize: nat, i: nat, k: nat)
    requires IsRun(states, steps, maxSize) && i < |steps| && k < |steps|
    requires steps[k].Turn? && CameIn(states, i, steps[k].entry)
    ensures steps[i].Join?
    ensures steps[k].exit == Withdrawn <==> steps[k].cancelRequested
    ensures steps[k].exit == Expired <==> steps[k].expired && !steps[k].cancelRequested
    ensures steps[k].exit == Admitted ==>
              steps[i].readyAt <= steps[k].now && steps[k].allowed && !steps[k].cancelRequested && !steps[k].expired
  {
    hide IsHead, HeadId;
    FullTurnsAway(states, steps, maxSize, i, steps[k].entry);
    assert StepAt(states, steps, maxSize, k);
  }

  lemma {:induction false} IndexBound(states: seq<State>, steps: seq<Step>, maxSize: nat, e: Entry, i: nat, j: nat)
    requires IsRun(states, steps, maxSize) && i <= j < |states| && e in states[i].waiters
    ensures e.index <= states[j].sequence
    decreases j
  {
    RunFits(states, steps, maxSize, j);
    if i < j {
      IndexBound(states, steps, maxSize, e, i, j - 1);
      assert StepAt(states, steps, maxSize, j - 1);
    }
  }

  /** Indices follow the order of joining. */
  lemma {:induction false} LaterIndex(states: seq<State>, steps: seq<Step>, maxSize: nat, i: nat, j: nat, e: Entry,
                                      f: Entry)
    requires IsRun(states, steps, maxSize) && i < j < |steps| && CameIn(states, i, e) && CameIn(states, j, f)
    ensures e.index < f.index
  {
    hide PollResult;
    IndexBound(states, steps, maxSize, e, i + 1, j);
    RunFits(states, steps, maxSize, j);
    assert StepAt(states, steps, maxSize, j);
  }

  /** No overtaking, of the requests: when the one that joined at step j is admitted, every one
      that joined at some step i, is due and has not left has no higher priority, and with the
      same priority did not join earlier. */
  lemma {:induction false} NoRequestOvertakes(states: seq<State>, steps: seq<Step>, maxSize: nat, i: nat, j: nat,
                                              k: nat, e: Entry)
    requires IsRun(states, steps, maxSize) && NeverOverwrites(states, steps, maxSize, |steps|)
    requires i < k < |steps| && j < |steps| && CameIn(states, i, e) && steps[k].Turn?
             && CameIn(states, j, steps[k].entry)
    requires forall l :: i < l < k ==> !Leaves(steps[l], e)
    ensures steps[i].Join? && steps[j].Join?
    ensures steps[k].exit == Admitted && steps[i].readyAt <= steps[k].now ==>
              steps[j].priority > steps[i].priority || (steps[j].priority == steps[i].priority && j <= i)
  {
    hide Steps, PollResult, Overwrites;
    FullTurnsAway(states, steps, maxSize, i, e);
    FullTurnsAway(states, steps, maxSize, j, steps[k].entry);
    if steps[k].exit == Admitted && steps[i].readyAt <= steps[k].now {
      NoOvertaking(states, steps, maxSize, e, i + 1, k);
      if i < j {
        LaterIndex(states, steps, maxSize, i, j, e, steps[k].entry);
      }
    }
  }

  /** The request of step i is due, waiting, and not one that the request of step j goes before. */
  ghost predicate GoesFirst(states: seq<State>, steps: seq<Step>, i: nat, e: Entry, j: nat, k: nat)
    requires |states| == |steps| + 1 && i < |steps| && j < |steps| && k < |steps|
  {
    && CameIn(states, i, e) && steps[i].Join? && steps[j].Join? && steps[k].Turn? && e in states[k].waiters
    && steps[i].readyAt <= steps[k].now
    && (steps[i].priority > steps[j].priority || (steps[i].priority == steps[j].priority && i < j))
  }

  /** In such a run a request is admitted at its turn if and only if it is not canceled or
      expired, the policy allows it, it is due, and no request that is waiting and due goes
      first. */
  lemma {:induction false} AdmittedExactly(states: seq<State>, steps: seq<Step>, maxSize: nat, j: nat, k: nat)
    requires IsRun(states, steps, maxSize) && NeverOverwrites(states, steps, maxSize, |steps|)
    requires j < k < |steps| && steps[k].Turn? && CameIn(states, j, steps[k].entry)
    ensures steps[j].Join?
    ensures steps[k].exit == Admitted <==>
              && !steps[k].cancelRequested && !steps[k].expired && steps[k].allowed && steps[j].readyAt <= steps[k].now
              && forall i: nat, e :: i < |steps| ==> !GoesFirst(states, steps, i, e, j, k)
  {
    hide Steps, Overwrites, HeadId;
    var f, now := steps[k].entry, steps[k].now;
    FullTurnsAway(states, steps, maxSize, j, f);
    assert Steps(states[k], steps[k], states[k + 1], maxSize) by {
      assert StepAt(states, steps, maxSize, k);
    }
    TurnIs(states[k], steps[k], states[k + 1], maxSize);
    AllStayInPlace(states, steps, maxSize, k);
    HeadByIdIsHead(states[k].entries, f, now);
    forall i: nat, e | i < |steps| && GoesFirst(states, steps, i, e, j, k)
      ensures InPlace(states[k], e) && e.readyAt <= now && Before(e, f)
    {
      FullTurnsAway(states, steps, maxSize, i, e);
      if i < j {
        LaterIndex(states, steps, maxSize, i, j, e, f);
      }
    }
    forall id | id in states[k].entries && states[k].entries[id].readyAt <= now && Before(states[k].entries[id], f)
      ensures exists i: nat, e :: i < |steps| && GoesFirst(states, steps, i, e, j, k)
    {
      RunFits(states, steps, maxSize, k);
      var e := states[k].entries[id];
      var i := EveryWaiterCameIn(states, steps, maxSize, e, k);
      FullTurnsAway(states, steps, maxSize, i, e);
      if j < i {
        LaterIndex(states, steps, maxSize, j, i, f, e);
      } else if i == j {
        var g := JoinWaits(states, steps, maxSize, i);
      }
      assert GoesFirst(states, steps, i, e, j, k);
    }
  }

  lemma {:induction false} TurnIs(s: State, step: Step, t: State, maxSize: nat)
    requires step.Turn? && Steps(s, step, t, maxSize)
    ensures step.entry in s.waiters
    ensures step.exit == Admitted <==>
              && !step.cancelRequested && !step.expired && step.allowed && step.entry.readyAt <= step.now
              && HeadId(s.entries, step.entry, step.now)
  {
    hide HeadId;
  }

  // ---------------------------------------------------------------- waiters that lost their entry

  /** A waiter whose entry was replaced or taken away is admitted at a turn exactly when it is
      ready and allowed, and another waiter's entry under its id is the head. */
  lemma {:induction false} DisplacedAdmittedExactly(s: State, e: Entry, maxSize: nat, now: int, allowed: bool)
    requires Fits(s, maxSize) && e in s.waiters && !InPlace(s, e)
    ensures PollResult(s.entries, e, now, false, false, allowed, Admitted) <==>
            && allowed && e.readyAt <= now
            && exists other :: other in s.waiters && other != e && other.id == e.id && IsHead(s.entries, other, now)
  {
    if HeadId(s.entries, e, now) {
      var head :| IsHead(s.entries, head, now) && head.id == e.id;
      assert s.entries[head.id] in s.waiters;
    }
  }

  /** With nothing under its id it waits on, until a request joins under that id. */
  lemma {:induction false} StrandedUntilJoin(states: seq<State>, steps: seq<Step>, maxSize: nat, e: Entry, i: nat,
                                             k: nat)
    requires IsRun(states, steps, maxSize) && i <= k < |states|
    requires e.id !in states[i].entries
    requires forall j :: i <= j < k && steps[j].Join? ==> steps[j].id != e.id
    ensures e.id !in states[k].entries
    ensures forall now, allowed :: !PollResult(states[k].entries, e, now, false, false, allowed, Admitted)
    decreases k
  {
    if i < k {
      StrandedUntilJoin(states, steps, maxSize, e, i, k - 1);
      hide PollResult, HeadId, IsHead;
      assert StepAt(states, steps, maxSize, k - 1);
    }
    NoHeadUnder(states[k].entries, e);
  }

  lemma {:induction false} NoHeadUnder(q: Queue, e: Entry)
    requires e.id !in q
    ensures forall now, allowed :: !PollResult(q, e, now, false, false, allowed, Admitted)
  {
  }

  /** Three requests under one id: the second replaces the first, the first is admitted and
      takes the second's entry away, the second waits on stranded, the third joins, and the
      second is admitted with the third's entry, leaving the third stranded. */
  lemma {:induction false} ThirdRequestFreesStranded(id: string, priority: int)
    returns (states: seq<State>, steps: seq<Step>)
    ensures IsRun(states, steps, 0) && |steps| == 6
    ensures id !in states[3].entries && states[3].waiters == {Entry(id, priority, 2, 0)}
    ensures steps[5].Turn? && steps[5].entry == Entry(id, priority, 2, 0) && steps[5].exit == Admitted
    ensures states[6].waiters == {Entry(id, priority, 3, 0)} && id !in states[6].entries
  {
    hide PollResult;
    var e1, e2, e3 := Entry(id, priority, 1, 0), Entry(id, priority, 2, 0), Entry(id, priority, 3, 0);
    var s1, s2 := State(map[id := e1], 1, {e1}), State(map[id := e2], 2, {e1, e2});
    var s3, s4 := State(map[], 2, {e2}), State(map[id := e3], 3, {e2, e3});
    var s0, s5, join := State(map[], 0, {}), State(map[], 3, {e3}), Join(id, priority, 0);
    var out1, wait2, out2 := Turn(e1, 0, false, false, true, Admitted), Turn(e2, 0, false, false, true, Waiting),
                             Turn(e2, 0, false, false, true, Admitted);
    states, steps := [s0, s1, s2, s3, s3, s4, s5], [join, join, out1, wait2, join, out2];
    OneUnder(id, e2, e1);
    OneUnder(id, e3, e2);
    NoHeadUnder(map[], e2);
    WaitsUnder(map[], e2);
    assert s0.entries[id := e1] == s1.entries && s1.entries[id := e2] == s2.entries
           && s3.entries[id := e3] == s4.entries;
    assert s2.entries - {id} == s3.entries && s4.entries - {id} == s5.entries;
    assert s2.waiters - {e1} == s3.waiters && s4.waiters - {e2} == s5.waiters;
    assert Steps(s0, join, s1, 0) && Steps(s1, join, s2, 0) && Steps(s2, out1, s3, 0);
    assert Steps(s3, wait2, s3, 0) && Steps(s3, join, s4, 0) && Steps(s4, out2, s5, 0);
    assert StepAt(states, steps, 0, 0) && StepAt(states, steps, 0, 1) && StepAt(states, steps, 0, 2);
    assert StepAt(states, steps, 0, 3) && StepAt(states, steps, 0, 4) && StepAt(states, steps, 0, 5);
  }

  lemma {:induction false} OneUnder(id: string, head: Entry, e: Entry)
    requires head.id == id == e.id && head.readyAt == 0 == e.readyAt
    ensures PollResult(map[id := head], e, 0, false, false, true, Admitted)
  {
    assert IsHead(map[id := head], head, 0);
  }

  lemma {:induction false} WaitsUnder(q: Queue, e: Entry)
    requires e.id !in q
    ensures PollResult(q, e, 0, false, false, true, Waiting)
  {
  }

  // ---------------------------------------------------------------- the queue in place

  class WaitQueue {
    const maxSize: nat
    var entries: Queue
    var sequence: nat
    /** The requests inside the waiting loop. */
    ghost var waiters: set<Entry>

    ghost function View(): State
      reads this
    {
      State(entries, sequence, waiters)
    }

    ghost predicate Valid()
      reads this
    {
      Fits(View(), maxSize)
    }

    constructor (maxSize: int)
      ensures Valid() && View() == State(map[], 0, {}) && this.maxSize == Max(0, maxSize)
    {
      this.maxSize := Max(0, maxSize);
      entries, sequence, waiters := map[], 0, {};
    }

    /** None means the queue is full. An entry already waiting under the id is overwritten:
        only active tasks are checked for duplicate ids. */
    method Enqueue(id: string, priority: int, readyAt: int) returns (entry: Option<Entry>)
      requires Valid()
      modifies this
      ensures Valid() && Steps(old(View()), Join(id, priority, readyAt), View(), maxSize)
      ensures entry == if maxSize == 0 || |old(entries)| < maxSize
                       then Some(Entry(id, priority, old(sequence) + 1, readyAt)) else None
    {
      hide Fits;
      if maxSize > 0 && |entries| >= maxSize {
        return None;
      }
      ghost var before := View();
      sequence := sequence + 1;
      var added := Entry(id, priority, sequence, readyAt);
      JoinFits(before, added, maxSize);
      entries := entries[id := added];
      waiters := waiters + {added};
      entry := Some(added);
    }

    method IsQueueHead(e: Entry, now: int) returns (head: bool)
      requires Valid()
      ensures head <==> HeadId(entries, e, now)
    {
      var best: Option<Entry> := None;
      var rest := entries.Keys;
      while rest != {}
        invariant rest <= entries.Keys
        invariant best.None? ==> forall id :: id in entries && id !in rest ==> entries[id].readyAt > now
        invariant best.Some? ==>
                    && best.value.id in entries && entries[best.value.id] == best.value && best.value.readyAt <= now
                    && forall id :: id in entries && id !in rest && entries[id].readyAt <= now ==>
                       !Before(entries[id], best.value)
        decreases |rest|
      {
        var id :| id in rest;
        rest := rest - {id};
        if entries[id].readyAt <= now && (best.None? || Before(entries[id], best.value)) {
          best := Some(entries[id]);
        }
      }
      head := best.Some? && best.value.id == e.id;
      if best.Some? {
        assert IsHead(entries, best.value, now);
        if h :| IsHead(entries, h, now) && h.id == e.id {
          HeadIsUnique(entries, sequence, best.value, h, now);
        }
      }
    }

    method Poll(e: Entry, now: int, cancelRequested: bool, expired: bool, allowed: bool) returns (exit: Exit)
      requires Valid() && e in waiters
      modifies this`entries, this`waiters
      ensures Valid() && Steps(old(View()), Turn(e, now, cancelRequested, expired, allowed, exit), View(), maxSize)
    {
      hide IsHead, HeadId, Fits, WellFormed;
      exit := Waiting;
      if cancelRequested {
        exit := Withdrawn;
      } else if expired {
        exit := Expired;
      } else {
        var head := IsQueueHead(e, now);
        if e.readyAt <= now && allowed && head {
          exit := Admitted;
        }
      }
      assert PollResult(entries, e, now, cancelRequested, expired, allowed, exit);
      if exit != Waiting {
        Leave(e);
      }
    }

    method Leave(e: Entry)
      requires Valid()
      modifies this`entries, this`waiters
      ensures Valid() && View() == State(old(entries) - {e.id}, sequence, old(waiters) - {e})
    {
      hide Fits;
      LeaveFits(View(), e, maxSize);
      entries := entries - {e.id};
      waiters := waiters - {e};
    }
  }

  // ---------------------------------------------------------------- the documented order

  /** The order docs/architecture.md gives, and queue positions report. */
  predicate DocumentedBefore(a: Entry, b: Entry) {
    a.readyAt < b.readyAt || (a.readyAt == b.readyAt && Before(a, b))
  }

  ghost predicate FirstReady(s: set<Entry>, e: Entry, now: int, before: (Entry, Entry) -> bool) {
    e in s && e.readyAt <= now && forall other :: other in s && other.readyAt <= now ==> !before(other, e)
  }

  /** Both orders name the same head of every part of a queue at every time exactly when
      entries that become ready earlier come first anyway. */
  lemma {:induction false} DocumentedOrderAgreesExactly(all: set<Entry>)
    requires forall a, b :: a in all && b in all && a != b ==> a.index != b.index
    ensures (forall s: set<Entry>, e, now :: s <= all ==>
             (FirstReady(s, e, now, Before) <==> FirstReady(s, e, now, DocumentedBefore)))
       <==> (forall a, b :: a in all && b in all && a.readyAt < b.readyAt ==> Before(a, b))
  {
    if a, b :| a in all && b in all && a.readyAt < b.readyAt && !Before(a, b) {
      assert Before(b, a);
      assert FirstReady({a, b}, b, b.readyAt, Before);
      assert DocumentedBefore(a, b) && !FirstReady({a, b}, b, b.readyAt, DocumentedBefore);
    } else {
      forall s: set<Entry>, e, now | s <= all
        ensures FirstReady(s, e, now, Before) <==> FirstReady(s, e, now, DocumentedBefore)
      {
        if e in s {
          forall other | other in s ensures Before(other, e) <==> DocumentedBefore(other, e) {
          }
        }
      }
    }
  }
}
