/**
 The rules of a mission run: ready waves over the dependency graph, with retries, skips,
 aborts, failures, cancellations and a deadline. Child executions and the clock are
 an arbitrary world here; the executor supplies them.
 */
module MissionExecution {
  import opened Common
  import opened MissionGraph

  datatype SubtaskResult = SubtaskResult(
    subtaskId: string,
    taskId: string,
    taskName: string,
    status: Status,
    skipped: bool,
    attempts: nat,
    errorCode: string)

  datatype ChildResult = ChildResult(taskId: string, status: Status, errorCode: string)

  /** Escaped stands for an exception that leaves the child's own handlers. */
  datatype Child = Replied(result: ChildResult) | Escaped

  /** child(id, n) is what the n-th child execution of the mission comes to when it is
      requested under that task id; late(w) is what the deadline check says after w waves. */
  datatype World = World(child: (string, nat) -> Child, late: nat -> bool)

  /** The event announcing a subtask, with its 1-based payload index and its wave. */
  datatype SubtaskStart = SubtaskStart(subtaskId: string, index: nat, wave: nat)

  datatype EventKind = MissionCompleted | MissionFailed | MissionCanceled | MissionTimeout

  datatype TerminalEvent = TerminalEvent(kind: EventKind, completed: int, blocked: set<string>)

  datatype Exit = Finished | SubtaskFailed | DeadlineElapsed | NoRunnable

  datatype Outcome = Outcome(
    exit: Exit,
    status: Status,
    errorCode: string,
    results: seq<SubtaskResult>,
    waves: nat,
    event: Option<TerminalEvent>)

  // ---------------------------------------------------------------- one subtask

  lemma {:induction false} DigitCharInjective(d: nat, e: nat)
    requires d < 10 && e < 10 && DigitChar(d) == DigitChar(e)
    ensures d == e
  {
  }

  lemma {:induction false} DigitsInjective(m: nat, n: nat)
    requires Digits(m) == Digits(n)
    ensures m == n
  {
    var a, b := Digits(m), Digits(n);
    assert a[|a| - 1] == DigitChar(m % 10) && b[|b| - 1] == DigitChar(n % 10);
    DigitCharInjective(m % 10, n % 10);
    if m >= 10 && n >= 10 {
      assert Digits(m / 10) == a[..|a| - 1] == b[..|b| - 1] == Digits(n / 10);
      DigitsInjective(m / 10, n / 10);
    }
  }

  function AttemptTaskId(subtask: Subtask, attempt: nat): string {
    if attempt == 1 then subtask.taskId else subtask.taskId + "/attempt-" + Digits(attempt)
  }

  /** No two attempts of a subtask share a task id, so none is refused as a duplicate
      of another. */
  lemma {:induction false} AttemptIdsDistinct(subtask: Subtask, a: nat, b: nat)
    requires a != b
    ensures AttemptTaskId(subtask, a) != AttemptTaskId(subtask, b)
  {
    var prefix := subtask.taskId + "/attempt-";
    if a != 1 && b != 1 {
      assert (prefix + Digits(a))[|prefix|..] == Digits(a);
      assert (prefix + Digits(b))[|prefix|..] == Digits(b);
      if Digits(a) == Digits(b) {
        DigitsInjective(a, b);
      }
    } else {
      assert |prefix| > |subtask.taskId|;
    }
  }

  /** The first attempt goes under the subtask's own task id, every later one under that id and
      the attempt's number. */
  lemma {:induction false} AttemptIdsNumbered(subtask: Subtask, k: nat)
    ensures AttemptTaskId(subtask, 1) == subtask.taskId
    ensures k >= 2 ==>
              exists d :: AllDigits(d) && NumberOf(d) == k
                && AttemptTaskId(subtask, k) == subtask.taskId + "/attempt-" + d
  {
    DigitsRead(k);
    assert AllDigits(Digits(k)) && NumberOf(Digits(k)) == k;
  }

  predicate ShouldRetry(subtask: Subtask, attempt: nat, result: ChildResult) {
    if attempt >= subtask.maxAttempts then false
    else if result.status == Canceled then false
    else if subtask.retryErrorCodes == [] then true
    else result.errorCode in subtask.retryErrorCodes
  }

  /** What attempt k comes to when the mission has already made `call` child executions. */
  function AttemptOf(s: Subtask, world: World, call: nat, k: nat): Child
    requires k >= 1
  {
    world.child(AttemptTaskId(s, k), call + k - 1)
  }

  /** What a subtask result must be when the mission has already made `call` child
      executions: every attempt but the last failed and was retried; the last one
      succeeded or may not be retried. */
  ghost predicate IsSubtaskRun(s: Subtask, world: World, call: nat, r: SubtaskResult) {
    && r.subtaskId == s.subtaskId
    && r.taskName == s.taskName
    && match s.condition
       case Skip => r.taskId == s.taskId && r.status == Skipped && r.skipped && r.attempts == 0
         && r.errorCode == NO_ERROR
       case Abort => r.taskId == s.taskId && r.status == Error && !r.skipped && r.attempts == 0
         && r.errorCode == POLICY_REJECTED
       case _ =>
         && 1 <= r.attempts <= s.maxAttempts
         && (forall k :: 1 <= k < r.attempts ==> Retried(s, world, call, k))
         && AttemptOf(s, world, call, r.attempts).Replied? && !Retried(s, world, call, r.attempts)
         && var last := AttemptOf(s, world, call, r.attempts).result;
         && r.skipped == (last.status != Done && s.allowSkipping)
         && r.status == (if r.skipped then Skipped else last.status)
         && r.taskId == (if last.status == Done then AttemptTaskId(s, r.attempts) else last.taskId)
         && r.errorCode == (if last.status == Done then NO_ERROR else last.errorCode)
  }

  ghost predicate Retried(s: Subtask, world: World, call: nat, k: nat) {
    && k >= 1 && AttemptOf(s, world, call, k).Replied?
    && AttemptOf(s, world, call, k).result.status != Done && ShouldRetry(s, k, AttemptOf(s, world, call, k).result)
  }

  /** The specification of a run leaves no freedom. */
  lemma {:induction false} SubtaskRunIsUnique(s: Subtask, world: World, call: nat, r1: SubtaskResult, r2: SubtaskResult)
    requires IsSubtaskRun(s, world, call, r1) && IsSubtaskRun(s, world, call, r2)
    ensures r1 == r2
  {
    if !s.condition.Skip? && !s.condition.Abort? {
      assert r1.attempts < r2.attempts ==> Retried(s, world, call, r1.attempts);
      assert r2.attempts < r1.attempts ==> Retried(s, world, call, r2.attempts);
    }
  }

  /** Nothing is left to try: success, cancellation, the last attempt, or an error code that
      is not listed (an empty list lists every code). */
  predicate Settles(s: Subtask, k: nat, c: ChildResult) {
    c.status == Done || c.status == Canceled || k >= s.maxAttempts
      || (s.retryErrorCodes != [] && c.errorCode !in s.retryErrorCodes)
  }

  /** The attempts made are the fewest after which nothing is left to try. */
  lemma {:induction false} AttemptsMade(s: Subtask, world: World, call: nat, r: SubtaskResult)
    requires IsSubtaskRun(s, world, call, r) && !s.condition.Skip? && !s.condition.Abort?
    ensures 1 <= r.attempts <= s.maxAttempts
    ensures AttemptOf(s, world, call, r.attempts).Replied?
            && Settles(s, r.attempts, AttemptOf(s, world, call, r.attempts).result)
    ensures forall k :: 1 <= k < r.attempts ==>
              AttemptOf(s, world, call, k).Replied? && !Settles(s, k, AttemptOf(s, world, call, k).result)
  {
    forall k | 1 <= k < r.attempts
      ensures AttemptOf(s, world, call, k).Replied? && !Settles(s, k, AttemptOf(s, world, call, k).result)
    {
      assert Retried(s, world, call, k);
    }
  }

  function ConditionResult(s: Subtask): SubtaskResult {
    if s.condition.Skip?
    then SubtaskResult(s.subtaskId, s.taskId, s.taskName, Skipped, true, 0, NO_ERROR)
    else SubtaskResult(s.subtaskId, s.taskId, s.taskName, Error, false, 0, POLICY_REJECTED)
  }

  lemma {:induction false} RunNamesItsSubtask(s: Subtask, world: World, call: nat, r: SubtaskResult)
    requires IsSubtaskRun(s, world, call, r)
    ensures r.subtaskId == s.subtaskId
  {
  }

  /** The result after an attempt that is not tried again. */
  function SettledResult(s: Subtask, attempt: nat, last: ChildResult): SubtaskResult {
    if last.status == Done
    then SubtaskResult(s.subtaskId, AttemptTaskId(s, attempt), s.taskName, Done, false, attempt, NO_ERROR)
    else SubtaskResult(s.subtaskId, last.taskId, s.taskName, if s.allowSkipping then Skipped else last.status,
                       s.allowSkipping, attempt, last.errorCode)
  }

  /** The attempts from the given one on; None when one of them escapes. */
  function Attempts(s: Subtask, world: World, call: nat, attempt: nat): Option<SubtaskResult>
    requires 1 <= attempt <= s.maxAttempts
    decreases s.maxAttempts - attempt
  {
    match AttemptOf(s, world, call, attempt)
    case Escaped => None
    case Replied(last) =>
      if last.status != Done && ShouldRetry(s, attempt, last) then Attempts(s, world, call, attempt + 1)
      else Some(SettledResult(s, attempt, last))
  }

  /** A condition decides a subtask without running it, or lets it run. */
  function SubtaskRun(s: Subtask, world: World, call: nat): Option<SubtaskResult>
    requires s.maxAttempts >= 1
  {
    if s.condition == Skip || s.condition == Abort then Some(ConditionResult(s)) else Attempts(s, world, call, 1)
  }

  lemma {:induction false} SettledMeets(s: Subtask, world: World, call: nat, attempt: nat)
    requires 1 <= attempt <= s.maxAttempts && !s.condition.Skip? && !s.condition.Abort?
    requires forall k :: 1 <= k < attempt ==> Retried(s, world, call, k)
    requires AttemptOf(s, world, call, attempt).Replied? && !Retried(s, world, call, attempt)
    ensures IsSubtaskRun(s, world, call, SettledResult(s, attempt, AttemptOf(s, world, call, attempt).result))
  {
    hide AttemptTaskId, Retried, AttemptOf;
  }

  /** Attempt k escapes, and every one from the given attempt to it was made and tried again. */
  ghost predicate EscapesAt(s: Subtask, world: World, call: nat, attempt: nat, k: nat) {
    && 1 <= attempt <= k <= s.maxAttempts && AttemptOf(s, world, call, k).Escaped?
    && forall j :: attempt <= j < k ==> Retried(s, world, call, j)
  }

  /** The attempts give no result exactly when one that is made escapes, and otherwise the one
      their specification allows. */
  lemma {:induction false} AttemptsMeet(s: Subtask, world: World, call: nat, attempt: nat)
    requires 1 <= attempt <= s.maxAttempts && !s.condition.Skip? && !s.condition.Abort?
    requires forall k :: 1 <= k < attempt ==> Retried(s, world, call, k)
    ensures Attempts(s, world, call, attempt).None? <==> exists k: nat :: EscapesAt(s, world, call, attempt, k)
    ensures Attempts(s, world, call, attempt).Some? ==>
              IsSubtaskRun(s, world, call, Attempts(s, world, call, attempt).value)
    decreases s.maxAttempts - attempt
  {
    hide IsSubtaskRun, SettledResult, AttemptOf;
    match AttemptOf(s, world, call, attempt)
    case Escaped => assert EscapesAt(s, world, call, attempt, attempt);
    case Replied(last) =>
      if last.status != Done && ShouldRetry(s, attempt, last) {
        var next := attempt + 1;
        AttemptsMeet(s, world, call, next);
        if k: nat :| EscapesAt(s, world, call, next, k) {
          assert EscapesAt(s, world, call, attempt, k);
        }
        if k: nat :| EscapesAt(s, world, call, attempt, k) {
          assert EscapesAt(s, world, call, next, k);
        }
      } else {
        SettledMeets(s, world, call, attempt);
      }
  }

  /** The subtask is run and one of the attempts it makes escapes. */
  ghost predicate SubtaskEscapes(s: Subtask, world: World, call: nat) {
    !s.condition.Skip? && !s.condition.Abort? && exists k: nat :: EscapesAt(s, world, call, 1, k)
  }

  /** Running a subtask meets its specification, unless an attempt it makes escapes. */
  lemma {:induction false} SubtaskRunMeets(s: Subtask, world: World, call: nat)
    requires s.maxAttempts >= 1
    ensures SubtaskRun(s, world, call).None? <==> SubtaskEscapes(s, world, call)
    ensures SubtaskRun(s, world, call).Some? ==> IsSubtaskRun(s, world, call, SubtaskRun(s, world, call).value)
  {
    if !s.condition.Skip? && !s.condition.Abort? {
      AttemptsMeet(s, world, call, 1);
    }
  }

  // ---------------------------------------------------------------- waves

  predicate DependencySatisfied(d: string, results: map<string, SubtaskResult>) {
    d in results && (results[d].status == Done || results[d].status == Skipped)
  }

  predicate IsReady(s: Subtask, remaining: set<string>, results: map<string, SubtaskResult>) {
    s.subtaskId in remaining && forall d :: d in s.dependsOn ==> DependencySatisfied(d, results)
  }

  /** Payload positions of the subtasks that can run now, in payload order. */
  function ReadyPositions(subtasks: seq<Subtask>, remaining: set<string>, results: map<string, SubtaskResult>)
    : (ready: seq<nat>)
    ensures forall p: nat :: p in ready <==> p < |subtasks| && IsReady(subtasks[p], remaining, results)
    ensures forall i, j :: 0 <= i < j < |ready| ==> ready[i] < ready[j]
  {
    if subtasks == [] then []
    else
      var n := |subtasks| - 1;
      assert forall p :: 0 <= p < n ==> subtasks[..n][p] == subtasks[p];
      var before := ReadyPositions(subtasks[..n], remaining, results);
      assert forall i :: 0 <= i < |before| ==> before[i] in before;
      before + (if IsReady(subtasks[n], remaining, results) then [n] else [])
  }

  /** 1-based payload index of an id, 0 when absent. */
  function SubtaskIndex(subtasks: seq<Subtask>, id: string): (index: nat)
    ensures index <= |subtasks|
    ensures index > 0 ==> subtasks[index - 1].subtaskId == id
    ensures forall i :: 0 <= i < index - 1 ==> subtasks[i].subtaskId != id
    ensures index == 0 ==> id !in Ids(subtasks)
  {
    if subtasks == [] then 0
    else if subtasks[0].subtaskId == id then 1
    else
      var rest := SubtaskIndex(subtasks[1..], id);
      assert forall i :: 0 < i < |subtasks| ==> subtasks[i] == subtasks[1..][i - 1];
      if rest == 0 then 0 else rest + 1
  }

  function PendingResult(s: Subtask, status: Status, errorCode: string): SubtaskResult {
    SubtaskResult(s.subtaskId, s.taskId, s.taskName, status, false, 0, errorCode)
  }

  /** Results for the subtasks that will not run, in payload order. */
  function PendingResults(subtasks: seq<Subtask>, remaining: set<string>, status: Status, errorCode: string)
    : seq<SubtaskResult>
  {
    if subtasks == [] then []
    else
      var n := |subtasks| - 1;
      PendingResults(subtasks[..n], remaining, status, errorCode)
      + (if subtasks[n].subtaskId in remaining then [PendingResult(subtasks[n], status, errorCode)] else [])
  }

  function ResultIds(results: seq<SubtaskResult>): (ids: seq<string>)
    ensures |ids| == |results|
    ensures forall i :: 0 <= i < |ids| ==> ids[i] == results[i].subtaskId
  {
    seq(|results|, i requires 0 <= i < |results| => results[i].subtaskId)
  }

  lemma {:induction false} PendingResultsCover(subtasks: seq<Subtask>, remaining: set<string>, status: Status,
                                               errorCode: string)
    requires UniqueIds(subtasks)
    ensures var ids := ResultIds(PendingResults(subtasks, remaining, status, errorCode));
            Distinct(ids) && Elements(ids) == Ids(subtasks) * remaining
  {
    if subtasks != [] {
      var n := |subtasks| - 1;
      PendingResultsCover(subtasks[..n], remaining, status, errorCode);
      var before := PendingResults(subtasks[..n], remaining, status, errorCode);
      var all := PendingResults(subtasks, remaining, status, errorCode);
      assert Ids(subtasks) == Ids(subtasks[..n]) + {subtasks[n].subtaskId};
      if subtasks[n].subtaskId in remaining {
        var ids := ResultIds(before);
        assert ResultIds(all) == ids + [subtasks[n].subtaskId];
        assert forall i :: 0 <= i < |ids| ==> ids[i] in Elements(ids);
        assert Elements(ResultIds(all)) == Elements(ids) + {subtasks[n].subtaskId};
      } else {
        assert all == before;
      }
    }
  }

  /** The places of the subtasks in left, in payload order. */
  ghost predicate Places(subtasks: seq<Subtask>, left: set<string>, places: seq<nat>) {
    && (forall p: nat :: p in places <==> p < |subtasks| && subtasks[p].subtaskId in left)
    && (forall i, j :: 0 <= i < j < |places| ==> places[i] < places[j])
  }

  /** The results name the subtasks at those places, as not run. */
  ghost predicate NotRun(subtasks: seq<Subtask>, places: seq<nat>, results: seq<SubtaskResult>, status: Status,
                         errorCode: string) {
    && |results| == |places|
    && forall i :: 0 <= i < |places| ==>
         && places[i] < |subtasks|
         && var s, r := subtasks[places[i]], results[i];
            && r.subtaskId == s.subtaskId && r.taskId == s.taskId && r.taskName == s.taskName
            && r.status == status && r.errorCode == errorCode && r.attempts == 0 && !r.skipped
  }

  /** Whoever will not run is reported in payload order, under its own names, with the status and
      code given, no attempt and not as skipped. */
  lemma {:induction false} PendingResultsAre(subtasks: seq<Subtask>, left: set<string>, status: Status,
                                             errorCode: string)
    ensures exists places: seq<nat> ::
              && Places(subtasks, left, places)
              && NotRun(subtasks, places, PendingResults(subtasks, left, status, errorCode), status, errorCode)
  {
    hide NotRun, Places;
    if subtasks == [] {
      NobodyPending(left, status, errorCode);
    } else {
      var n := |subtasks| - 1;
      var before := PendingResults(subtasks[..n], left, status, errorCode);
      PendingResultsAre(subtasks[..n], left, status, errorCode);
      var places: seq<nat> :| Places(subtasks[..n], left, places)
        && NotRun(subtasks[..n], places, before, status, errorCode);
      PlacesExtend(subtasks, left, places);
      NotRunExtends(subtasks, left, places, before, status, errorCode);
      assert PendingResults(subtasks, left, status, errorCode)
          == before + (if subtasks[n].subtaskId in left then [PendingResult(subtasks[n], status, errorCode)] else []);
      assert before + [] == before && places + [] == places;
    }
  }

  lemma {:induction false} NobodyPending(left: set<string>, status: Status, errorCode: string)
    ensures Places([], left, []) && NotRun([], [], PendingResults([], left, status, errorCode), status, errorCode)
  {
  }

  lemma {:induction false} PlacesExtend(subtasks: seq<Subtask>, left: set<string>, places: seq<nat>)
    requires subtasks != [] && Places(subtasks[..|subtasks| - 1], left, places)
    ensures var n := |subtasks| - 1;
            Places(subtasks, left, if subtasks[n].subtaskId in left then places + [n] else places)
  {
    var n := |subtasks| - 1;
    var all := places + (if subtasks[n].subtaskId in left then [n] else []);
    forall p: nat ensures p in all <==> p < |subtasks| && subtasks[p].subtaskId in left {
      assert p in places <==> p < n && subtasks[..n][p].subtaskId in left;
    }
    assert forall i :: 0 <= i < |places| ==> places[i] in places;
  }

  lemma {:induction false} NotRunExtends(subtasks: seq<Subtask>, left: set<string>, places: seq<nat>,
                                         before: seq<SubtaskResult>, status: Status, errorCode: string)
    requires subtasks != [] && NotRun(subtasks[..|subtasks| - 1], places, before, status, errorCode)
    ensures var n := |subtasks| - 1;
            && NotRun(subtasks, places, before, status, errorCode)
            && NotRun(subtasks, places + [n], before + [PendingResult(subtasks[n], status, errorCode)], status,
                      errorCode)
  {
    forall i | 0 <= i < |places| ensures subtasks[..|subtasks| - 1][places[i]] == subtasks[places[i]] {
    }
  }

  /** Child executions made by the first n results. */
  function CallsBefore(results: seq<SubtaskResult>, n: nat): nat
    requires n <= |results|
  {
    if n == 0 then 0 else CallsBefore(results, n - 1) + results[n - 1].attempts
  }

  lemma {:induction false} CallsBeforeExtends(results: seq<SubtaskResult>, more: seq<SubtaskResult>, n: nat)
    requires n <= |results|
    ensures CallsBefore(results + more, n) == CallsBefore(results, n)
  {
    if n > 0 {
      CallsBeforeExtends(results, more, n - 1);
    }
  }

  predicate Continues(r: SubtaskResult) {
    r.status == Done || r.skipped
  }

  // ---------------------------------------------------------------- what a mission has done so far

  ghost predicate Names(subtasks: seq<Subtask>, start: SubtaskStart) {
    1 <= start.index <= |subtasks| && subtasks[start.index - 1].subtaskId == start.subtaskId
  }

  ghost function SubtaskOf(subtasks: seq<Subtask>, start: SubtaskStart): Subtask
    requires Names(subtasks, start)
  {
    subtasks[start.index - 1]
  }

  /** Entry j of the history is a dependency of entry i from an earlier wave. */
  ghost predicate Provides(subtasks: seq<Subtask>, started: seq<SubtaskStart>, j: nat, i: nat, d: string) {
    j < i < |started| && started[j].subtaskId == d && started[j].wave < started[i].wave
  }

  ghost predicate Supported(subtasks: seq<Subtask>, started: seq<SubtaskStart>, i: nat)
    requires i < |started| && Names(subtasks, started[i])
  {
    && started[i].wave >= 1
    && (forall d :: d in SubtaskOf(subtasks, started[i]).dependsOn ==>
          exists j: nat :: Provides(subtasks, started, j, i, d))
    && (started[i].wave > 1 ==>
          exists j: nat, d: string :: d in SubtaskOf(subtasks, started[i]).dependsOn
                         && Provides(subtasks, started, j, i, d)
                         && started[j].wave == started[i].wave - 1)
  }

  ghost predicate InOrder(a: SubtaskStart, b: SubtaskStart) {
    a.wave < b.wave || (a.wave == b.wave && a.index < b.index)
  }

  ghost predicate RanAt(subtasks: seq<Subtask>, world: World, started: seq<SubtaskStart>, results: seq<SubtaskResult>,
                        i: nat)
    requires i < |started| && i < |results| && Names(subtasks, started[i])
  {
    IsSubtaskRun(SubtaskOf(subtasks, started[i]), world, CallsBefore(results, i), results[i])
  }

  ghost predicate History(subtasks: seq<Subtask>, world: World, started: seq<SubtaskStart>,
                          results: seq<SubtaskResult>) {
    && |started| <= |results|
    && (forall i :: 0 <= i < |started| ==> Names(subtasks, started[i]))
    && (forall i {:trigger Supported(subtasks, started, i)} :: 0 <= i < |started| ==> Supported(subtasks, started, i))
    && (forall i, j :: 0 <= i < j < |started| ==> InOrder(started[i], started[j]))
    && (forall i {:trigger RanAt(subtasks, world, started, results, i)} :: 0 <= i < |started| ==>
          RanAt(subtasks, world, started, results, i))
  }

  lemma {:induction false} HistoryExtends(subtasks: seq<Subtask>, world: World, started: seq<SubtaskStart>,
                                          results: seq<SubtaskResult>, start: SubtaskStart, r: SubtaskResult)
    requires History(subtasks, world, started, results) && |started| == |results|
    requires Names(subtasks, start)
    requires Supported(subtasks, started + [start], |started|)
    requires started != [] ==> InOrder(started[|started| - 1], start)
    requires IsSubtaskRun(SubtaskOf(subtasks, start), world, CallsBefore(results, |results|), r)
    ensures History(subtasks, world, started + [start], results + [r])
    ensures CallsBefore(results + [r], |results| + 1) == CallsBefore(results, |results|) + r.attempts
  {
    hide Supported, RanAt, InOrder, Names, IsSubtaskRun;
    CallsBeforeExtends(results, [r], |results|);
    SupportsExtend(subtasks, started, start);
    RunsExtend(subtasks, world, started, results, start, r);
    OrderExtends(started, start);
  }

  lemma {:induction false} SupportsExtend(subtasks: seq<Subtask>, started: seq<SubtaskStart>, start: SubtaskStart)
    requires AllSupported(subtasks, started) && Names(subtasks, start)
             && Supported(subtasks, started + [start], |started|)
    ensures AllSupported(subtasks, started + [start])
  {
    hide Supported, Names;
    var started' := started + [start];
    forall i | 0 <= i < |started'| ensures Names(subtasks, started'[i]) && Supported(subtasks, started', i) {
      if i < |started| {
        assert Supported(subtasks, started, i);
        SupportExtends(subtasks, started, start, i);
      }
    }
  }

  lemma {:induction false} RunsExtend(subtasks: seq<Subtask>, world: World, started: seq<SubtaskStart>,
                                      results: seq<SubtaskResult>, start: SubtaskStart, r: SubtaskResult)
    requires History(subtasks, world, started, results) && |started| == |results| && Names(subtasks, start)
    requires IsSubtaskRun(SubtaskOf(subtasks, start), world, CallsBefore(results, |results|), r)
    ensures forall i {:trigger RanAt(subtasks, world, started + [start], results + [r], i)} :: 0 <= i <= |started| ==>
              Names(subtasks, (started + [start])[i]) && RanAt(subtasks, world, started + [start], results + [r], i)
  {
    hide Supported, InOrder, Names, IsSubtaskRun;
    var started', results' := started + [start], results + [r];
    forall i | 0 <= i < |started'|
      ensures Names(subtasks, started'[i]) && RanAt(subtasks, world, started', results', i) {
      CallsBeforeExtends(results, [r], i);
      if i < |started| {
        assert RanAt(subtasks, world, started, results, i);
      }
    }
  }

  lemma {:induction false} OrderExtends(started: seq<SubtaskStart>, start: SubtaskStart)
    requires forall i, j :: 0 <= i < j < |started| ==> InOrder(started[i], started[j])
    requires started != [] ==> InOrder(started[|started| - 1], start)
    ensures forall i, j :: 0 <= i < j < |started + [start]| ==> InOrder((started + [start])[i], (started + [start])[j])
  {
    var started' := started + [start];
    forall i, j | 0 <= i < j < |started'| ensures InOrder(started'[i], started'[j]) {
      if j == |started| && i < |started| - 1 {
        assert InOrder(started[i], started[|started| - 1]);
      }
    }
  }

  lemma {:induction false} SupportExtends(subtasks: seq<Subtask>, started: seq<SubtaskStart>, start: SubtaskStart,
                                          i: nat)
    requires i < |started| && Names(subtasks, started[i]) && Supported(subtasks, started, i)
    ensures Supported(subtasks, started + [start], i)
  {
    var started' := started + [start];
    assert started'[i] == started[i];
    forall d | d in SubtaskOf(subtasks, started'[i]).dependsOn
      ensures exists j: nat :: Provides(subtasks, started', j, i, d)
    {
      var j: nat :| Provides(subtasks, started, j, i, d);
      assert Provides(subtasks, started', j, i, d);
    }
    if started'[i].wave > 1 {
      var j: nat, d: string :| d in SubtaskOf(subtasks, started[i]).dependsOn
                  && Provides(subtasks, started, j, i, d)
                  && started[j].wave == started[i].wave - 1;
      assert Provides(subtasks, started', j, i, d);
    }
  }

  /** A pending tail does not change what the history says. */
  lemma {:induction false} HistoryIgnoresTail(subtasks: seq<Subtask>, world: World, started: seq<SubtaskStart>,
                           results: seq<SubtaskResult>, tail: seq<SubtaskResult>)
    requires History(subtasks, world, started, results)
    ensures History(subtasks, world, started, results + tail)
  {
    forall i | 0 <= i < |started| ensures RanAt(subtasks, world, started, results + tail, i) {
      CallsBeforeExtends(results, tail, i);
      assert RanAt(subtasks, world, started, results, i);
    }
  }

  // ---------------------------------------------------------------- depth

  /** The longest dependency chain from id has n subtasks. */
  ghost predicate IsDepth(g: Graph, id: string, n: nat) {
    && (exists p :: IsPath(g, p) && p[0] == id && |p| == n)
    && (forall p :: IsPath(g, p) && p[0] == id ==> |p| <= n)
  }

  ghost predicate AllSupported(subtasks: seq<Subtask>, started: seq<SubtaskStart>) {
    && (forall i :: 0 <= i < |started| ==> Names(subtasks, started[i]))
    && (forall i {:trigger Supported(subtasks, started, i)} :: 0 <= i < |started| ==> Supported(subtasks, started, i))
  }

  lemma {:induction false} PathTail(g: Graph, p: seq<string>)
    requires IsPath(g, p) && |p| > 1
    ensures IsPath(g, p[1..]) && Edge(g, p[0], p[1])
  {
    forall k | 0 <= k < |p[1..]| - 1 ensures Edge(g, p[1..][k], p[1..][k + 1]) {
      assert Edge(g, p[k + 1], p[k + 2]);
    }
  }

  lemma {:induction false} PathCons(g: Graph, id: string, p: seq<string>)
    requires IsPath(g, p) && Edge(g, id, p[0])
    ensures IsPath(g, [id] + p)
  {
    forall k | 0 <= k < |[id] + p| - 1 ensures Edge(g, ([id] + p)[k], ([id] + p)[k + 1]) {
      if k > 0 {
        assert Edge(g, p[k - 1], p[k]);
      }
    }
  }

  lemma {:induction false} PreviousWave(subtasks: seq<Subtask>, started: seq<SubtaskStart>, i: nat) returns (j: nat)
    requires UniqueIds(subtasks) && i < |started| && Names(subtasks, started[i]) && Supported(subtasks, started, i)
    requires started[i].wave > 1
    ensures j < i && started[j].wave == started[i].wave - 1
    ensures Edge(ById(subtasks), started[i].subtaskId, started[j].subtaskId)
  {
    hide UniqueIds, ById, Edge;
    var k: nat, d: string :| d in SubtaskOf(subtasks, started[i]).dependsOn
                && Provides(subtasks, started, k, i, d)
                && started[k].wave == started[i].wave - 1;
    j := k;
    DependencyIsEdge(subtasks, started[i], d);
  }

  lemma {:induction false} DependencyIsEdge(subtasks: seq<Subtask>, start: SubtaskStart, d: string)
    requires UniqueIds(subtasks) && Names(subtasks, start) && d in SubtaskOf(subtasks, start).dependsOn
    ensures Edge(ById(subtasks), start.subtaskId, d)
  {
    hide UniqueIds, ById;
    ByIdSelects(subtasks, start.index - 1);
  }

  lemma {:induction false} ChainOfWaveLength(subtasks: seq<Subtask>, started: seq<SubtaskStart>, i: nat)
    returns (p: seq<string>)
    requires UniqueIds(subtasks) && i < |started| && AllSupported(subtasks, started)
    ensures IsPath(ById(subtasks), p) && p[0] == started[i].subtaskId && |p| == started[i].wave
    decreases i
  {
    assert Supported(subtasks, started, i);
    if started[i].wave == 1 {
      p := [started[i].subtaskId];
    } else {
      var j := PreviousWave(subtasks, started, i);
      var rest := ChainOfWaveLength(subtasks, started, j);
      PathCons(ById(subtasks), started[i].subtaskId, rest);
      p := [started[i].subtaskId] + rest;
    }
  }

  lemma {:induction false} NoChainBeyondWave(subtasks: seq<Subtask>, started: seq<SubtaskStart>, i: nat, p: seq<string>)
    requires UniqueIds(subtasks) && i < |started| && AllSupported(subtasks, started)
    requires IsPath(ById(subtasks), p) && p[0] == started[i].subtaskId
    ensures |p| <= started[i].wave
    decreases i
  {
    assert Supported(subtasks, started, i);
    if |p| > 1 {
      ByIdSelects(subtasks, started[i].index - 1);
      PathTail(ById(subtasks), p);
      hide UniqueIds, Supported;
      var j := ProviderOf(subtasks, started, i, p[1]);
      NoChainBeyondWave(subtasks, started, j, p[1..]);
    }
  }

  /** The wave announced for a subtask is its dependency depth, however the mission ends. */
  lemma {:induction false} WaveIsDepth(subtasks: seq<Subtask>, started: seq<SubtaskStart>, i: nat)
    requires UniqueIds(subtasks) && AllSupported(subtasks, started) && i < |started|
    ensures IsDepth(ById(subtasks), started[i].subtaskId, started[i].wave)
  {
    var chain := ChainOfWaveLength(subtasks, started, i);
    forall p | IsPath(ById(subtasks), p) && p[0] == started[i].subtaskId ensures |p| <= started[i].wave {
      NoChainBeyondWave(subtasks, started, i, p);
    }
  }

  // ---------------------------------------------------------------- progress

  ghost predicate WaitsInside(g: Graph, x: string, stuck: set<string>) {
    x in g && exists d :: d in g[x] && d in stuck
  }

  /** A non-empty set of subtasks each waiting for another of the set holds a cycle. */
  lemma {:induction false} StuckSetHasCycle(g: Graph, stuck: set<string>, p: seq<string>)
    requires IsPath(g, p) && Elements(p) <= stuck
    requires forall x :: x in stuck ==> WaitsInside(g, x, stuck)
    ensures !Acyclic(g)
    decreases |stuck| + 1 - |p|
  {
    if i, j :| 0 <= i < j < |p| && p[i] == p[j] {
      var loop := p[i..j + 1];
      forall k | 0 <= k < |loop| - 1 ensures Edge(g, loop[k], loop[k + 1]) {
        assert Edge(g, p[i + k], p[i + k + 1]);
      }
      assert IsPath(g, loop);
      assert OnCycle(g, p[i]);
    } else {
      DistinctLength(p);
      SubsetSize(Elements(p), stuck);
      var last := p[|p| - 1];
      assert last in Elements(p);
      assert WaitsInside(g, last, stuck);
      var d :| d in g[last] && d in stuck;
      var q := p + [d];
      forall k | 0 <= k < |q| - 1 ensures Edge(g, q[k], q[k + 1]) {
        if k < |p| - 1 {
          assert Edge(g, p[k], p[k + 1]);
        }
      }
      StuckSetHasCycle(g, stuck, q);
    }
  }

  lemma {:induction false} DistinctLength(p: seq<string>)
    requires Distinct(p)
    ensures |Elements(p)| == |p|
  {
    if p != [] {
      var q := p[..|p| - 1];
      DistinctLength(q);
      assert Elements(p) == Elements(q) + {p[|p| - 1]};
    }
  }

  lemma {:induction false} SubsetSize(a: set<string>, b: set<string>)
    requires a <= b
    ensures |a| <= |b|
  {
    assert b == a + (b - a);
  }

  lemma {:induction false} WaitsFor(subtasks: seq<Subtask>, remaining: set<string>, results: map<string, SubtaskResult>,
                                    x: string)
    returns (d: string)
    requires UniqueIds(subtasks) && KnownDependencies(subtasks) && x in remaining && remaining <= Ids(subtasks)
    requires results.Keys == Ids(subtasks) - remaining
    requires forall d :: d in results ==> DependencySatisfied(d, results)
    requires ReadyPositions(subtasks, remaining, results) == []
    ensures Edge(ById(subtasks), x, d) && d in remaining
  {
    var p :| 0 <= p < |subtasks| && subtasks[p].subtaskId == x;
    ByIdSelects(subtasks, p);
    assert p !in ReadyPositions(subtasks, remaining, results);
    d :| d in subtasks[p].dependsOn && !DependencySatisfied(d, results);
    assert d in Ids(subtasks);
  }

  /** When every remaining subtask waits for something unfinished, the payload was not
      acceptable to the graph check. */
  lemma {:induction false} NoReadyMeansInvalid(subtasks: seq<Subtask>, remaining: set<string>, results: map<string,
                                               SubtaskResult>)
    requires UniqueIds(subtasks) && remaining <= Ids(subtasks) && remaining != {}
    requires results.Keys == Ids(subtasks) - remaining
    requires forall d :: d in results ==> DependencySatisfied(d, results)
    requires ReadyPositions(subtasks, remaining, results) == []
    ensures !ValidGraph(subtasks)
  {
    if KnownDependencies(subtasks) {
      var g := ById(subtasks);
      forall x | x in remaining ensures WaitsInside(g, x, remaining) {
        var d := WaitsFor(subtasks, remaining, results, x);
      }
      StuckSomewhere(g, remaining);
    }
  }

  lemma {:induction false} StuckSomewhere(g: Graph, stuck: set<string>)
    requires stuck != {} && forall x :: x in stuck ==> WaitsInside(g, x, stuck)
    ensures !Acyclic(g)
  {
    var x :| x in stuck;
    assert Elements([x]) == {x};
    StuckSetHasCycle(g, stuck, [x]);
  }

  lemma {:induction false} RunOrderPutsDependenciesFirst(subtasks: seq<Subtask>, started: seq<SubtaskStart>,
                                                         ids: seq<string>)
    requires UniqueIds(subtasks) && AllSupported(subtasks, started)
    requires |ids| == |started| && forall i :: 0 <= i < |ids| ==> ids[i] == started[i].subtaskId
    requires Distinct(ids)
    ensures DependenciesFirst(ById(subtasks), ids)
  {
    hide UniqueIds, Distinct, Supported, Names;
    var g := ById(subtasks);
    forall i | 0 <= i < |ids| ensures ids[i] in g && forall d :: d in g[ids[i]] ==> d in ids[..i] {
      assert Supported(subtasks, started, i);
      DependenciesBefore(subtasks, started, ids, i);
    }
  }

  lemma {:induction false} DependenciesBefore(subtasks: seq<Subtask>, started: seq<SubtaskStart>, ids: seq<string>,
                                              i: nat)
    requires UniqueIds(subtasks) && i < |started| && Names(subtasks, started[i]) && Supported(subtasks, started, i)
    requires |ids| == |started| && forall i :: 0 <= i < |ids| ==> ids[i] == started[i].subtaskId
    ensures ids[i] in ById(subtasks) && forall d :: d in ById(subtasks)[ids[i]] ==> d in ids[..i]
  {
    ByIdSelects(subtasks, started[i].index - 1);
    hide UniqueIds, Supported, ById;
    forall d | d in ById(subtasks)[ids[i]] ensures d in ids[..i] {
      var j := ProviderOf(subtasks, started, i, d);
      assert ids[..i][j] == d;
    }
  }

  lemma {:induction false} ProviderOf(subtasks: seq<Subtask>, started: seq<SubtaskStart>, i: nat, d: string)
    returns (j: nat)
    requires i < |started| && Names(subtasks, started[i]) && Supported(subtasks, started, i)
    requires d in SubtaskOf(subtasks, started[i]).dependsOn
    ensures Provides(subtasks, started, j, i, d)
  {
    j :| Provides(subtasks, started, j, i, d);
  }

  lemma {:induction false} OrderedMeansKnown(subtasks: seq<Subtask>, ids: seq<string>)
    requires UniqueIds(subtasks) && DependenciesFirst(ById(subtasks), ids) && Elements(ids) == Ids(subtasks)
    ensures KnownDependencies(subtasks)
  {
    forall p, d | 0 <= p < |subtasks| && d in subtasks[p].dependsOn ensures d in Ids(subtasks) {
      var id := subtasks[p].subtaskId;
      ByIdSelects(subtasks, p);
      assert id in Elements(ids);
      var i :| 0 <= i < |ids| && ids[i] == id;
      assert d in ids[..i];
      assert d in Elements(ids);
    }
  }

  /** A mission that ran every subtask had an acceptable graph. */
  lemma {:induction false} FinishedMeansValid(subtasks: seq<Subtask>, started: seq<SubtaskStart>, ids: seq<string>)
    requires UniqueIds(subtasks) && AllSupported(subtasks, started)
    requires |ids| == |started| && forall i :: 0 <= i < |ids| ==> ids[i] == started[i].subtaskId
    requires Distinct(ids) && Elements(ids) == Ids(subtasks)
    ensures ValidGraph(subtasks)
  {
    hide Supported, Distinct, Elements, DependenciesFirst, UniqueIds, Acyclic, KnownDependencies, Ids;
    RunOrderPutsDependenciesFirst(subtasks, started, ids);
    FinishOrderIsRank(ById(subtasks), ids);
    RankedIsAcyclic(ById(subtasks), PositionRank(ids));
    OrderedMeansKnown(subtasks, ids);
  }

  // ---------------------------------------------------------------- the executor

  /** Bookkeeping between waves: who is left, and what was recorded for the others. */
  ghost predicate Ledger(subtasks: seq<Subtask>, remaining: set<string>, byId: map<string, SubtaskResult>,
                         started: seq<SubtaskStart>, results: seq<SubtaskResult>) {
    && |started| == |results|
    && remaining <= Ids(subtasks)
    && byId.Keys == Ids(subtasks) - remaining
    && Distinct(ResultIds(results))
    && Elements(ResultIds(results)) == byId.Keys
    && (forall i :: 0 <= i < |results| ==>
          started[i].subtaskId == results[i].subtaskId && byId[results[i].subtaskId] == results[i])
  }

  ghost predicate AllContinue(results: seq<SubtaskResult>) {
    forall i :: 0 <= i < |results| ==> Continues(results[i])
  }

  lemma {:induction false} LedgerExtends(subtasks: seq<Subtask>, remaining: set<string>, byId: map<string,
                                         SubtaskResult>, started: seq<SubtaskStart>, results: seq<SubtaskResult>,
                                           start: SubtaskStart, r: SubtaskResult)
    requires Ledger(subtasks, remaining, byId, started, results)
    requires start.subtaskId == r.subtaskId && r.subtaskId in remaining
    ensures Ledger(subtasks, remaining - {r.subtaskId}, byId[r.subtaskId := r], started + [start], results + [r])
  {
    var ids := ResultIds(results);
    assert ResultIds(results + [r]) == ids + [r.subtaskId];
    assert Elements(ids + [r.subtaskId]) == Elements(ids) + {r.subtaskId};
    assert forall i :: 0 <= i < |ids| ==> ids[i] in Elements(ids);
  }

  lemma {:induction false} DistinctConcat(a: seq<string>, b: seq<string>)
    requires Distinct(a) && Distinct(b) && Elements(a) !! Elements(b)
    ensures Distinct(a + b) && Elements(a + b) == Elements(a) + Elements(b)
  {
    forall i, j | 0 <= i < j < |a + b| ensures (a + b)[i] != (a + b)[j] {
      if i < |a| && j >= |a| {
        assert a[i] in Elements(a) && b[j - |a|] in Elements(b);
      }
    }
  }

  lemma {:induction false} PendingCompletes(subtasks: seq<Subtask>, remaining: set<string>, results: seq<SubtaskResult>,
                         status: Status, errorCode: string)
    requires UniqueIds(subtasks) && remaining <= Ids(subtasks)
    requires Distinct(ResultIds(results)) && Elements(ResultIds(results)) == Ids(subtasks) - remaining
    ensures var all := ResultIds(results + PendingResults(subtasks, remaining, status, errorCode));
            Distinct(all) && Elements(all) == Ids(subtasks)
    ensures |PendingResults(subtasks, remaining, status, errorCode)| == |remaining|
  {
    hide Distinct, Elements, UniqueIds, PendingResults, Ids;
    PendingResultsCover(subtasks, remaining, status, errorCode);
    var pending := PendingResults(subtasks, remaining, status, errorCode);
    DistinctLength(ResultIds(pending));
    assert Ids(subtasks) * remaining == remaining;
    assert ResultIds(results + pending) == ResultIds(results) + ResultIds(pending);
    DistinctConcat(ResultIds(results), ResultIds(pending));
  }

  /** A subtask whose dependencies all ran in earlier waves, one of them in the wave
      just before, is supported where it stands. */
  lemma {:induction false} NewlySupported(subtasks: seq<Subtask>, started: seq<SubtaskStart>, n: nat,
                                          start: SubtaskStart)
    requires n <= |started| && Names(subtasks, start) && start.wave >= 1
    requires forall j :: 0 <= j < n ==> started[j].wave < start.wave
    requires forall d :: d in SubtaskOf(subtasks, start).dependsOn ==>
               exists j :: 0 <= j < n && started[j].subtaskId == d
    requires start.wave > 1 ==>
               exists j :: && 0 <= j < n
                           && started[j].subtaskId in SubtaskOf(subtasks, start).dependsOn
                           && started[j].wave == start.wave - 1
    ensures Supported(subtasks, started + [start], |started|)
  {
    var started', i := started + [start], |started|;
    forall d | d in SubtaskOf(subtasks, started'[i]).dependsOn
      ensures exists j: nat :: Provides(subtasks, started', j, i, d)
    {
      var j :| 0 <= j < n && started[j].subtaskId == d;
      assert Provides(subtasks, started', j, i, d);
    }
    if start.wave > 1 {
      var j :| 0 <= j < n && started[j].subtaskId in SubtaskOf(subtasks, start).dependsOn
        && started[j].wave == start.wave - 1;
      assert Provides(subtasks, started', j, i, started[j].subtaskId);
    }
  }

  /** Pending results for everyone left complete the report. */
  lemma {:induction false} ReportIsComplete(subtasks: seq<Subtask>, world: World, remaining: set<string>,
                                            byId: map<string, SubtaskResult>, started: seq<SubtaskStart>,
                                            results: seq<SubtaskResult>, status: Status, errorCode: string)
    requires UniqueIds(subtasks) && Ledger(subtasks, remaining, byId, started, results)
    requires History(subtasks, world, started, results)
    ensures var pending := PendingResults(subtasks, remaining, status, errorCode);
            var all := results + pending;
            && History(subtasks, world, started, all)
            && Distinct(ResultIds(all)) && Elements(ResultIds(all)) == Ids(subtasks)
            && all[..|started|] == results
            && |pending| == |remaining|
    ensures remaining == Ids(subtasks) - StartedIds(started)
    ensures forall i {:trigger started[i]} :: 0 <= i < |started| ==>
              IsDepth(ById(subtasks), started[i].subtaskId, started[i].wave)
  {
    var pending := PendingResults(subtasks, remaining, status, errorCode);
    LedgerIds(subtasks, remaining, byId, started, results);
    PendingCompletes(subtasks, remaining, results, status, errorCode);
    HistoryIgnoresTail(subtasks, world, started, results, pending);
    AllWavesAreDepths(subtasks, started);
  }

  /** The records of a mission agree with each other and with what happened. */
  ghost predicate Sound(subtasks: seq<Subtask>, world: World, remaining: set<string>, byId: map<string, SubtaskResult>,
                        started: seq<SubtaskStart>, results: seq<SubtaskResult>, calls: nat) {
    && |started| == |results|
    && Ledger(subtasks, remaining, byId, started, results)
    && History(subtasks, world, started, results)
    && calls == CallsBefore(results, |results|)
  }

  /** Nothing recorded so far stops the mission. */
  ghost predicate Continuing(byId: map<string, SubtaskResult>, results: seq<SubtaskResult>) {
    && AllContinue(results)
    && (forall d :: d in byId ==> DependencySatisfied(d, byId))
  }

  /** State between waves: every recorded subtask lets the mission go on, and whoever
      is left waits for something recorded in the latest wave or not at all. */
  ghost predicate BetweenWaves(subtasks: seq<Subtask>, remaining: set<string>, byId: map<string, SubtaskResult>,
                               started: seq<SubtaskStart>, results: seq<SubtaskResult>, wave: nat,
                               settled: set<string>) {
    && Continuing(byId, results)
    && wave == (if started == [] then 0 else started[|started| - 1].wave)
    && (forall j :: 0 <= j < |started| ==> started[j].wave == wave || started[j].subtaskId in settled)
    && (wave > 0 ==> forall p :: 0 <= p < |subtasks| && subtasks[p].subtaskId in remaining ==>
                                   exists d :: d in subtasks[p].dependsOn && d !in settled)
  }

  /** The part of a wave that has run: entries appended for the first k ready positions. */
  ghost predicate InWave(subtasks: seq<Subtask>, ready: seq<nat>, k: nat, wave: nat,
                         remaining0: set<string>, started0: seq<SubtaskStart>,
                         remaining: set<string>, started: seq<SubtaskStart>)
    requires k <= |ready|
  {
    && |started| == |started0| + k && started[..|started0|] == started0
    && (forall j :: |started0| <= j < |started| ==> started[j].wave == wave)
    && (k > 0 ==> started[|started| - 1].index == ready[k - 1] + 1)
    && (forall p :: 0 <= p < |subtasks| ==>
          (subtasks[p].subtaskId in remaining <==> subtasks[p].subtaskId in remaining0 && p !in ready[..k]))
  }

  /** A subtask picked for a new wave is supported at the end of the history. */
  lemma {:induction false} ReadyIsSupported(subtasks: seq<Subtask>, world: World, remaining: set<string>,
                                            byId: map<string, SubtaskResult>, before: seq<SubtaskStart>,
                                            results: seq<SubtaskResult>, settled: set<string>,
                                            started: seq<SubtaskStart>, start: SubtaskStart)
    requires Ledger(subtasks, remaining, byId, before, results) && History(subtasks, world, before, results)
    requires start.wave >= 1 && BetweenWaves(subtasks, remaining, byId, before, results, start.wave - 1, settled)
    requires |before| <= |started| && started[..|before|] == before
    requires Names(subtasks, start) && IsReady(SubtaskOf(subtasks, start), remaining, byId)
    ensures Supported(subtasks, started + [start], |started|)
  {
    hide Supported, RanAt, ById, CallsBefore, IsSubtaskRun, Ledger, History, BetweenWaves, Continuing;
    assert forall j :: 0 <= j < |before| ==> started[j] == before[j];
    forall d | d in SubtaskOf(subtasks, start).dependsOn
      ensures exists j :: 0 <= j < |before| && started[j].subtaskId == d
    {
      assert DependencySatisfied(d, byId);
      var j := RecordedAt(subtasks, remaining, byId, before, results, d);
    }
    if start.wave > 1 {
      var j := RecordedInLatestWave(subtasks, remaining, byId, before, results, settled, start);
    }
    EarlierWaves(subtasks, world, remaining, byId, before, results, settled, start.wave);
    NewlySupported(subtasks, started, |before|, start);
  }

  lemma {:induction false} RecordedInLatestWave(subtasks: seq<Subtask>, remaining: set<string>, byId: map<string,
                                                SubtaskResult>, started: seq<SubtaskStart>, results: seq<SubtaskResult>,
                                                  settled: set<string>, start: SubtaskStart)
    returns (j: nat)
    requires Ledger(subtasks, remaining, byId, started, results)
    requires start.wave > 1 && BetweenWaves(subtasks, remaining, byId, started, results, start.wave - 1, settled)
    requires Names(subtasks, start) && IsReady(SubtaskOf(subtasks, start), remaining, byId)
    ensures j < |started| && started[j].wave == start.wave - 1
    ensures started[j].subtaskId in SubtaskOf(subtasks, start).dependsOn
  {
    hide Ledger, Continuing;
    var d :| d in SubtaskOf(subtasks, start).dependsOn && d !in settled;
    assert DependencySatisfied(d, byId);
    j := RecordedAt(subtasks, remaining, byId, started, results, d);
  }

  lemma {:induction false} EarlierWaves(subtasks: seq<Subtask>, world: World, remaining: set<string>, byId: map<string,
                                        SubtaskResult>, started: seq<SubtaskStart>, results: seq<SubtaskResult>,
                                          settled: set<string>, wave: nat)
    requires wave >= 1 && BetweenWaves(subtasks, remaining, byId, started, results, wave - 1, settled)
    requires History(subtasks, world, started, results)
    ensures forall j :: 0 <= j < |started| ==> started[j].wave < wave
  {
    hide Supported, RanAt, Continuing, Names;
    forall j | 0 <= j < |started| ensures started[j].wave < wave {
      assert j < |started| - 1 ==> InOrder(started[j], started[|started| - 1]);
    }
  }

  lemma {:induction false} RecordedAt(subtasks: seq<Subtask>, remaining: set<string>, byId: map<string, SubtaskResult>,
                         started: seq<SubtaskStart>, results: seq<SubtaskResult>, d: string) returns (j: nat)
    requires Ledger(subtasks, remaining, byId, started, results) && d in byId
    ensures j < |started| && started[j].subtaskId == d
  {
    var ids := ResultIds(results);
    assert d in Elements(ids);
    j :| 0 <= j < |ids| && ids[j] == d;
  }

  /** Ready positions go up, so the next start continues the order. */
  lemma {:induction false} OrderContinues(subtasks: seq<Subtask>, ready: seq<nat>, k: nat, wave: nat,
                       remaining0: set<string>, byId0: map<string, SubtaskResult>, started0: seq<SubtaskStart>,
                       results0: seq<SubtaskResult>, settled: set<string>, remaining: set<string>,
                       started: seq<SubtaskStart>)
    requires k < |ready| && forall i, j :: 0 <= i < j < |ready| ==> ready[i] < ready[j]
    requires wave >= 1 && BetweenWaves(subtasks, remaining0, byId0, started0, results0, wave - 1, settled)
    requires InWave(subtasks, ready, k, wave, remaining0, started0, remaining, started)
    ensures ready[k] < |subtasks| && started != [] ==>
              InOrder(started[|started| - 1], SubtaskStart(subtasks[ready[k]].subtaskId, ready[k] + 1, wave))
  {
    if k == 0 {
      assert started == started0;
    }
  }

  /** Whoever is left after a wave waits for something the wave did not start from. */
  lemma {:induction false} WaveLeavesFrontier(subtasks: seq<Subtask>, remaining0: set<string>, byId0: map<string,
                                              SubtaskResult>, ready: seq<nat>, remaining: set<string>)
    requires ready == ReadyPositions(subtasks, remaining0, byId0)
    requires forall d :: d in byId0 ==> DependencySatisfied(d, byId0)
    requires forall p :: 0 <= p < |subtasks| ==>
               (subtasks[p].subtaskId in remaining <==> subtasks[p].subtaskId in remaining0 && p !in ready)
    ensures forall p :: 0 <= p < |subtasks| && subtasks[p].subtaskId in remaining ==>
                          exists d :: d in subtasks[p].dependsOn && d !in byId0.Keys
  {
    forall p | 0 <= p < |subtasks| && subtasks[p].subtaskId in remaining
      ensures exists d :: d in subtasks[p].dependsOn && d !in byId0.Keys
    {
      assert p !in ready;
      var d :| d in subtasks[p].dependsOn && !DependencySatisfied(d, byId0);
    }
  }

  function TerminalKind(status: Status, errorCode: string): EventKind {
    if status == Canceled then MissionCanceled
    else if errorCode == TASK_TIMEOUT || errorCode == DEADLINE_EXCEEDED then MissionTimeout
    else MissionFailed
  }

  ghost function StartedIds(started: seq<SubtaskStart>): set<string> {
    set i | 0 <= i < |started| :: started[i].subtaskId
  }

  /** Every subtask is reported exactly once; the ones that ran did so after their
      dependencies, by depth and then payload order, in the wave equal to their depth. */
  ghost predicate Complete(subtasks: seq<Subtask>, world: World, started: seq<SubtaskStart>, o: Outcome) {
    && History(subtasks, world, started, o.results)
    && Distinct(ResultIds(o.results)) && Elements(ResultIds(o.results)) == Ids(subtasks)
    && (forall i {:trigger started[i]} :: 0 <= i < |started| ==>
          IsDepth(ById(subtasks), started[i].subtaskId, started[i].wave))
    && o.waves == (if started == [] then 0 else started[|started| - 1].wave)
    && InTime(world, o.waves)
  }

  /** No wave begins after the deadline. */
  ghost predicate InTime(world: World, waves: nat) {
    forall w :: 0 <= w < waves ==> !world.late(w)
  }

  /** What the outcome reports, by the way the mission ended. */
  ghost predicate Reported(subtasks: seq<Subtask>, world: World, started: seq<SubtaskStart>, o: Outcome)
    requires |started| <= |o.results|
  {
    var ran, n := o.results[..|started|], |started|;
    var left := Ids(subtasks) - StartedIds(started);
    match o.exit
    case Finished =>
      && ValidGraph(subtasks)
      && AllContinue(ran) && o.results == ran
      && o.status == Done && o.errorCode == NO_ERROR
      && o.event == Some(TerminalEvent(MissionCompleted, n, {}))
    case SubtaskFailed =>
      && n > 0 && AllContinue(ran[..n - 1]) && !Continues(ran[n - 1])
      && o.status == (if ran[n - 1].status == Canceled then Canceled else Error)
      && o.errorCode == ran[n - 1].errorCode
      && o.results == ran + PendingResults(subtasks, left, if o.status == Canceled then Canceled
                                           else Pending, o.errorCode)
      && o.event.Some? && o.event.value.completed == n && o.event.value.blocked == left
      && (o.event.value.kind == MissionCanceled <==> ran[n - 1].status == Canceled)
      && (o.event.value.kind == MissionTimeout <==>
            ran[n - 1].status != Canceled && ran[n - 1].errorCode in {TASK_TIMEOUT, DEADLINE_EXCEEDED})
      && (o.event.value.kind == MissionFailed <==>
            ran[n - 1].status != Canceled && ran[n - 1].errorCode !in {TASK_TIMEOUT, DEADLINE_EXCEEDED})
    case DeadlineElapsed =>
      && AllContinue(ran) && left != {}
      && world.late(o.waves)
      && o.status == Error && o.errorCode == DEADLINE_EXCEEDED
      && o.results == ran + PendingResults(subtasks, left, Pending, DEADLINE_EXCEEDED)
      && o.event == Some(TerminalEvent(MissionTimeout, n, left))
    case NoRunnable =>
      && !ValidGraph(subtasks)
      && AllContinue(ran) && left != {}
      && o.status == Error && o.errorCode == INTERNAL_ERROR
      && o.results == ran + PendingResults(subtasks, left, Pending, INTERNAL_ERROR)
      && o.event == None
  }

  /** The outcome of a mission given up with `remaining` subtasks not run. */
  function GivenUp(subtasks: seq<Subtask>, remaining: set<string>, results: seq<SubtaskResult>, exit: Exit,
                   status: Status, left: Status, errorCode: string, wave: nat, kind: Option<EventKind>): Outcome {
    var all := results + PendingResults(subtasks, remaining, left, errorCode);
    Outcome(exit, status, errorCode, all, wave,
      if kind == None then None else Some(TerminalEvent(kind.value, |all| - |remaining|, remaining)))
  }

  lemma {:induction false} GivenUpIsReported(subtasks: seq<Subtask>, world: World, remaining: set<string>,
                                             byId: map<string, SubtaskResult>, started: seq<SubtaskStart>,
                                             results: seq<SubtaskResult>, calls: nat, o: Outcome, exit: Exit,
                                             status: Status, left: Status, errorCode: string, wave: nat,
                                             kind: Option<EventKind>)
    requires UniqueIds(subtasks) && Sound(subtasks, world, remaining, byId, started, results, calls)
    requires wave == (if started == [] then 0 else started[|started| - 1].wave) && InTime(world, wave)
    requires o == GivenUp(subtasks, remaining, results, exit, status, left, errorCode, wave, kind)
    requires match exit
             case Finished => false
             case SubtaskFailed =>
               && started != [] && AllContinue(results[..|results| - 1]) && !Continues(results[|results| - 1])
               && errorCode == results[|results| - 1].errorCode
               && status == (if results[|results| - 1].status == Canceled then Canceled else Error)
               && left == (if status == Canceled then Canceled else Pending)
               && kind == Some(TerminalKind(status, errorCode))
             case DeadlineElapsed =>
               && AllContinue(results) && remaining != {} && world.late(wave)
               && status == Error && left == Pending && errorCode == DEADLINE_EXCEEDED && kind == Some(MissionTimeout)
             case NoRunnable =>
               && AllContinue(results) && remaining != {} && !ValidGraph(subtasks)
               && status == Error && left == Pending && errorCode == INTERNAL_ERROR && kind == None
    ensures Complete(subtasks, world, started, o)
    ensures Reported(subtasks, world, started, o)
  {
    hide History, ById, PendingResults, IsDepth, CallsBefore, ValidGraph, Ids, StartedIds, Ledger, Distinct, Elements,
      UniqueIds;
    ReportIsComplete(subtasks, world, remaining, byId, started, results, left, errorCode);
  }

  /** The k-th ready subtask has not run in this wave. */
  lemma {:induction false} ReadyAt(subtasks: seq<Subtask>, ready: seq<nat>, k: nat, wave: nat, remaining0: set<string>,
                                   byId0: map<string, SubtaskResult>, started0: seq<SubtaskStart>,
                                   remaining: set<string>, started: seq<SubtaskStart>)
    requires UniqueIds(subtasks) && k < |ready| && ready == ReadyPositions(subtasks, remaining0, byId0)
             && ready[k] < |subtasks|
    requires InWave(subtasks, ready, k, wave, remaining0, started0, remaining, started)
    ensures var start := SubtaskStart(subtasks[ready[k]].subtaskId, ready[k] + 1, wave);
            && subtasks[ready[k]].subtaskId in remaining && IsReady(subtasks[ready[k]], remaining0, byId0)
            && Names(subtasks, start) && SubtaskOf(subtasks, start) == subtasks[ready[k]]
            && ready[k] in ready && ready[k] !in ready[..k]
            && |started0| <= |started| && started[..|started0|] == started0
  {
    assert ready[k] in ready && ready[k] !in ready[..k];
  }

  /** Recording the next subtask of a wave keeps the records sound. */
  lemma {:induction false} RecordSubtask(subtasks: seq<Subtask>, world: World, ready: seq<nat>, k: nat, wave: nat,
                                         settled: set<string>, remaining0: set<string>, byId0: map<string,
                                         SubtaskResult>, started0: seq<SubtaskStart>, results0: seq<SubtaskResult>,
                                           calls0: nat,
                      remaining: set<string>, byId: map<string, SubtaskResult>, started: seq<SubtaskStart>,
                      results: seq<SubtaskResult>, calls: nat, r: SubtaskResult)
    requires UniqueIds(subtasks) && k < |ready|
    requires Sound(subtasks, world, remaining0, byId0, started0, results0, calls0)
    requires wave >= 1 && BetweenWaves(subtasks, remaining0, byId0, started0, results0, wave - 1, settled)
    requires ready == ReadyPositions(subtasks, remaining0, byId0)
    requires Sound(subtasks, world, remaining, byId, started, results, calls)
    requires InWave(subtasks, ready, k, wave, remaining0, started0, remaining, started)
    requires ready[k] < |subtasks| && IsSubtaskRun(subtasks[ready[k]], world, calls, r)
    ensures var id := subtasks[ready[k]].subtaskId;
            var start := SubtaskStart(id, ready[k] + 1, wave);
            && id in remaining
            && Sound(subtasks, world, remaining - {id}, byId[id := r], started + [start], results + [r],
                     calls + r.attempts)
            && InWave(subtasks, ready, k + 1, wave, remaining0, started0, remaining - {id}, started + [start])
  {
    hide Supported, IsSubtaskRun, CallsBefore, ById, Ledger, History, BetweenWaves, InWave, UniqueIds, ReadyPositions,
      IsReady;
    hide InOrder, Names;
    var id := subtasks[ready[k]].subtaskId;
    var start := SubtaskStart(id, ready[k] + 1, wave);
    ReadyAt(subtasks, ready, k, wave, remaining0, byId0, started0, remaining, started);
    RunNamesItsSubtask(subtasks[ready[k]], world, calls, r);
    ReadyIsSupported(subtasks, world, remaining0, byId0, started0, results0, settled, started, start);
    OrderContinues(subtasks, ready, k, wave, remaining0, byId0, started0, results0, settled, remaining, started);
    HistoryExtends(subtasks, world, started, results, start, r);
    LedgerExtends(subtasks, remaining, byId, started, results, start, r);
    WaveAdvances(subtasks, ready, k, wave, remaining0, started0, remaining, started, start);
  }

  lemma {:induction false} ContinuingExtends(byId: map<string, SubtaskResult>, results: seq<SubtaskResult>, s: Subtask,
                                             world: World, calls: nat, r: SubtaskResult)
    requires Continuing(byId, results) && IsSubtaskRun(s, world, calls, r) && Continues(r)
    ensures Continuing(byId[s.subtaskId := r], results + [r])
  {
  }

  /** After its last subtask a wave leaves the state between waves. */
  lemma {:induction false} WaveEnds(subtasks: seq<Subtask>, world: World, ready: seq<nat>, wave: nat,
                                    settled: set<string>, remaining0: set<string>, byId0: map<string, SubtaskResult>,
                                    started0: seq<SubtaskStart>, results0: seq<SubtaskResult>, calls0: nat,
                 remaining: set<string>, byId: map<string, SubtaskResult>, started: seq<SubtaskStart>,
                 results: seq<SubtaskResult>)
    requires Sound(subtasks, world, remaining0, byId0, started0, results0, calls0)
    requires wave >= 1 && BetweenWaves(subtasks, remaining0, byId0, started0, results0, wave - 1, settled)
    requires ready == ReadyPositions(subtasks, remaining0, byId0) && ready != []
    requires InWave(subtasks, ready, |ready|, wave, remaining0, started0, remaining, started)
    requires Continuing(byId, results)
    ensures BetweenWaves(subtasks, remaining, byId, started, results, wave, byId0.Keys)
  {
    hide Ledger, History;
    assert ready[..|ready|] == ready;
    WaveLeavesFrontier(subtasks, remaining0, byId0, ready, remaining);
    StartedIdsAreKeys(subtasks, remaining0, byId0, started0, results0, started);
  }

  lemma {:induction false} WaveAdvances(subtasks: seq<Subtask>, ready: seq<nat>, k: nat, wave: nat,
                         remaining0: set<string>, started0: seq<SubtaskStart>,
                         remaining: set<string>, started: seq<SubtaskStart>, start: SubtaskStart)
    requires UniqueIds(subtasks) && k < |ready| && ready[k] < |subtasks|
    requires InWave(subtasks, ready, k, wave, remaining0, started0, remaining, started)
    requires start == SubtaskStart(subtasks[ready[k]].subtaskId, ready[k] + 1, wave)
    ensures InWave(subtasks, ready, k + 1, wave, remaining0, started0, remaining - {start.subtaskId}, started + [start])
  {
    assert (started + [start])[..|started0|] == started0;
    assert ready[..k + 1] == ready[..k] + [ready[k]];
    assert forall p :: 0 <= p < |subtasks| ==> (subtasks[p].subtaskId == start.subtaskId <==> p == ready[k]);
  }

  // ---------------------------------------------------------------- the run

  /** What the executor knows: who is left, the results by id, the starts announced, the
      results in order, and the child executions made. */
  datatype Progress = Progress(
    remaining: set<string>, byId: map<string, SubtaskResult>, started: seq<SubtaskStart>, results: seq<SubtaskResult>,
    calls: nat)

  /** A wave runs through, is stopped by a subtask that neither succeeded nor was skipped, or
      breaks off when an attempt escapes. */
  datatype WaveEnd = Through(p: Progress) | Stopped(p: Progress) | Broken

  datatype MissionEnd = Ended(outcome: Outcome, started: seq<SubtaskStart>) | Aborted

  predicate Runnable(subtasks: seq<Subtask>) {
    forall i :: 0 <= i < |subtasks| ==> subtasks[i].maxAttempts >= 1
  }

  function Recorded(p: Progress, subtasks: seq<Subtask>, s: Subtask, wave: nat, r: SubtaskResult): Progress {
    Progress(p.remaining - {s.subtaskId}, p.byId[s.subtaskId := r],
             p.started + [SubtaskStart(s.subtaskId, SubtaskIndex(subtasks, s.subtaskId), wave)], p.results + [r],
               p.calls + r.attempts)
  }

  /** One wave from its k-th ready subtask on, in payload order. */
  function RunReady(subtasks: seq<Subtask>, world: World, ready: seq<nat>, k: nat, wave: nat,
                    p: Progress): (end: WaveEnd)
    requires Runnable(subtasks) && k <= |ready| && forall i :: 0 <= i < |ready| ==> ready[i] < |subtasks|
    ensures !end.Broken? ==> end.p.remaining <= p.remaining
    ensures !end.Broken? && k < |ready| ==> subtasks[ready[k]].subtaskId !in end.p.remaining
    ensures end.Stopped? ==> end.p.results != []
    decreases |ready| - k
  {
    if k == |ready| then Through(p)
    else
      var s := subtasks[ready[k]];
      match SubtaskRun(s, world, p.calls)
      case None => Broken
      case Some(r) =>
        var q := Recorded(p, subtasks, s, wave, r);
        if Continues(r) then RunReady(subtasks, world, ready, k + 1, wave, q) else Stopped(q)
  }

  function StoppedOutcome(subtasks: seq<Subtask>, p: Progress, wave: nat): Outcome
    requires p.results != []
  {
    var last := p.results[|p.results| - 1];
    var status := if last.status == Canceled then Canceled else Error;
    GivenUp(subtasks, p.remaining, p.results, SubtaskFailed, status, if status == Canceled then Canceled
            else Pending, last.errorCode,
            wave, Some(TerminalKind(status, last.errorCode)))
  }

  /** The waves after the given number of them. */
  function RunWaves(subtasks: seq<Subtask>, world: World, wave: nat, p: Progress): MissionEnd
    requires Runnable(subtasks)
    decreases p.remaining
  {
    if p.remaining == {} then
      Ended(Outcome(Finished, Done, NO_ERROR, p.results, wave, Some(TerminalEvent(MissionCompleted, |p.results|, {}))),
            p.started)
    else if world.late(wave) then
      Ended(GivenUp(subtasks, p.remaining, p.results, DeadlineElapsed, Error, Pending, DEADLINE_EXCEEDED, wave,
                    Some(MissionTimeout)), p.started)
    else
      var ready := ReadyPositions(subtasks, p.remaining, p.byId);
      assert forall i :: 0 <= i < |ready| ==> ready[i] in ready;
      if ready == [] then
        Ended(GivenUp(subtasks, p.remaining, p.results, NoRunnable, Error, Pending, INTERNAL_ERROR, wave, None),
              p.started)
      else
        match RunReady(subtasks, world, ready, 0, wave + 1, p)
        case Broken => Aborted
        case Stopped(q) => Ended(StoppedOutcome(subtasks, q, wave + 1), q.started)
        case Through(q) => RunWaves(subtasks, world, wave + 1, q)
  }

  function Mission(subtasks: seq<Subtask>, world: World): MissionEnd
    requires Runnable(subtasks)
  {
    RunWaves(subtasks, world, 0, Progress(Ids(subtasks), map[], [], [], 0))
  }

  ghost predicate SoundProgress(subtasks: seq<Subtask>, world: World, p: Progress) {
    Sound(subtasks, world, p.remaining, p.byId, p.started, p.results, p.calls)
  }

  /** What a wave leaves behind, by the way it ends. */
  ghost predicate WaveLeaves(subtasks: seq<Subtask>, world: World, wave: nat, settled: set<string>, end: WaveEnd) {
    match end
    case Broken => true
    case Through(q) =>
      SoundProgress(subtasks, world, q)
        && BetweenWaves(subtasks, q.remaining, q.byId, q.started, q.results, wave, settled)
    case Stopped(q) =>
      && SoundProgress(subtasks, world, q) && q.started != [] && q.started[|q.started| - 1].wave == wave
      && q.results != [] && AllContinue(q.results[..|q.results| - 1]) && !Continues(q.results[|q.results| - 1])
  }

  lemma {:induction false} WaveIsSound(subtasks: seq<Subtask>, world: World, ready: seq<nat>, k: nat, wave: nat,
                                       settled: set<string>, p0: Progress, p: Progress)
    requires UniqueIds(subtasks) && Runnable(subtasks) && k <= |ready|
    requires SoundProgress(subtasks, world, p0)
    requires wave >= 1 && BetweenWaves(subtasks, p0.remaining, p0.byId, p0.started, p0.results, wave - 1, settled)
    requires ready == ReadyPositions(subtasks, p0.remaining, p0.byId) && ready != []
    requires forall i :: 0 <= i < |ready| ==> ready[i] < |subtasks|
    requires SoundProgress(subtasks, world, p) && Continuing(p.byId, p.results)
    requires InWave(subtasks, ready, k, wave, p0.remaining, p0.started, p.remaining, p.started)
    ensures WaveLeaves(subtasks, world, wave, p0.byId.Keys, RunReady(subtasks, world, ready, k, wave, p))
    decreases |ready| - k
  {
    hide Sound, BetweenWaves, Continuing, AllContinue, IsSubtaskRun, Ids, UniqueIds, ReadyPositions, IsReady, InWave,
      SubtaskRun;
    hide Recorded;
    if k == |ready| {
      WaveEnds(subtasks, world, ready, wave, settled, p0.remaining, p0.byId, p0.started, p0.results, p0.calls,
               p.remaining, p.byId, p.started, p.results);
    } else {
      var s := subtasks[ready[k]];
      SubtaskRunMeets(s, world, p.calls);
      match SubtaskRun(s, world, p.calls)
      case None =>
      case Some(r) =>
        var q := Recorded(p, subtasks, s, wave, r);
        RecordReady(subtasks, world, ready, k, wave, settled, p0, p, r);
        if Continues(r) {
          ContinuesRecorded(subtasks, world, p, s, wave, r);
          WaveIsSound(subtasks, world, ready, k + 1, wave, settled, p0, q);
        } else {
          StopsRecorded(subtasks, p, s, wave, r);
        }
    }
  }

  lemma {:induction false} RecordReady(subtasks: seq<Subtask>, world: World, ready: seq<nat>, k: nat, wave: nat,
                                       settled: set<string>, p0: Progress, p: Progress, r: SubtaskResult)
    requires UniqueIds(subtasks) && k < |ready| && ready[k] < |subtasks|
    requires SoundProgress(subtasks, world, p0)
    requires wave >= 1 && BetweenWaves(subtasks, p0.remaining, p0.byId, p0.started, p0.results, wave - 1, settled)
    requires ready == ReadyPositions(subtasks, p0.remaining, p0.byId)
    requires SoundProgress(subtasks, world, p)
    requires InWave(subtasks, ready, k, wave, p0.remaining, p0.started, p.remaining, p.started)
    requires IsSubtaskRun(subtasks[ready[k]], world, p.calls, r)
    ensures var q := Recorded(p, subtasks, subtasks[ready[k]], wave, r);
            && SoundProgress(subtasks, world, q)
            && InWave(subtasks, ready, k + 1, wave, p0.remaining, p0.started, q.remaining, q.started)
  {
    hide Sound, BetweenWaves, IsSubtaskRun, Ids, UniqueIds, ReadyPositions, InWave;
    RecordSubtask(subtasks, world, ready, k, wave, settled, p0.remaining, p0.byId, p0.started, p0.results, p0.calls,
                  p.remaining, p.byId, p.started, p.results, p.calls, r);
    IndexIsPosition(subtasks, ready[k]);
  }

  lemma {:induction false} ContinuesRecorded(subtasks: seq<Subtask>, world: World, p: Progress, s: Subtask, wave: nat,
                                             r: SubtaskResult)
    requires Continuing(p.byId, p.results) && IsSubtaskRun(s, world, p.calls, r) && Continues(r)
    ensures Continuing(Recorded(p, subtasks, s, wave, r).byId, Recorded(p, subtasks, s, wave, r).results)
  {
    hide Continuing, IsSubtaskRun;
    ContinuingExtends(p.byId, p.results, s, world, p.calls, r);
  }

  lemma {:induction false} StopsRecorded(subtasks: seq<Subtask>, p: Progress, s: Subtask, wave: nat, r: SubtaskResult)
    requires Continuing(p.byId, p.results) && !Continues(r)
    ensures var q := Recorded(p, subtasks, s, wave, r);
            && q.started != [] && q.started[|q.started| - 1].wave == wave
            && q.results != [] && AllContinue(q.results[..|q.results| - 1]) && !Continues(q.results[|q.results| - 1])
  {
    assert (p.results + [r])[..|p.results|] == p.results;
  }

  lemma {:induction false} WaveBegins(subtasks: seq<Subtask>, ready: seq<nat>, wave: nat, settled: set<string>,
                   remaining: set<string>, byId: map<string, SubtaskResult>, started: seq<SubtaskStart>,
                   results: seq<SubtaskResult>)
    requires wave >= 1 && BetweenWaves(subtasks, remaining, byId, started, results, wave - 1, settled)
    ensures Continuing(byId, results) && InWave(subtasks, ready, 0, wave, remaining, started, remaining, started)
  {
    hide Continuing;
    assert started[..|started|] == started;
  }

  lemma {:induction false} IndexIsPosition(subtasks: seq<Subtask>, p: nat)
    requires UniqueIds(subtasks) && p < |subtasks|
    ensures SubtaskIndex(subtasks, subtasks[p].subtaskId) == p + 1
  {
  }

  lemma {:induction false} StartedIdsAreKeys(subtasks: seq<Subtask>, remaining: set<string>, byId: map<string,
                                             SubtaskResult>, before: seq<SubtaskStart>, results: seq<SubtaskResult>,
                                               started: seq<SubtaskStart>)
    requires Ledger(subtasks, remaining, byId, before, results)
    requires |before| <= |started| && started[..|before|] == before
    ensures forall j :: 0 <= j < |before| ==> started[j].subtaskId in byId.Keys
  {
    var ids := ResultIds(results);
    forall j | 0 <= j < |before| ensures started[j].subtaskId in byId.Keys {
      assert started[j] == before[j] && ids[j] in Elements(ids);
    }
  }

  /** Whatever the children do, a mission that comes to an end reports as it should. */
  lemma {:induction false} WavesAreReported(subtasks: seq<Subtask>, world: World, wave: nat, p: Progress,
                                            settled: set<string>)
    requires UniqueIds(subtasks) && Runnable(subtasks) && SoundProgress(subtasks, world, p)
    requires BetweenWaves(subtasks, p.remaining, p.byId, p.started, p.results, wave, settled)
    requires InTime(world, wave)
    ensures match RunWaves(subtasks, world, wave, p)
            case Aborted => true
            case Ended(o, started) => Complete(subtasks, world, started, o) && Reported(subtasks, world, started, o)
    decreases p.remaining
  {
    hide Complete, Reported, Sound, RunReady, GivenUp, StoppedOutcome, BetweenWaves, Continuing, InTime, ReadyPositions,
      AllContinue, UniqueIds;
    BetweenMeans(subtasks, p.remaining, p.byId, p.started, p.results, wave, settled);
    LaterInTime(world, wave);
    if p.remaining == {} {
      var o := Outcome(Finished, Done, NO_ERROR, p.results, wave,
                       Some(TerminalEvent(MissionCompleted, |p.results|, {})));
      FinishedIsReported(subtasks, world, p.byId, p.started, p.results, p.calls, o);
    } else if world.late(wave) {
      var o := GivenUp(subtasks, p.remaining, p.results, DeadlineElapsed, Error, Pending, DEADLINE_EXCEEDED, wave,
                       Some(MissionTimeout));
      GivenUpIsReported(subtasks, world, p.remaining, p.byId, p.started, p.results, p.calls, o,
                        DeadlineElapsed, Error, Pending, DEADLINE_EXCEEDED, wave, Some(MissionTimeout));
    } else {
      var ready := ReadyPositions(subtasks, p.remaining, p.byId);
      assert forall i :: 0 <= i < |ready| ==> ready[i] in ready;
      if ready == [] {
        StuckIsReported(subtasks, world, wave, p, settled);
      } else {
        WaveBegins(subtasks, ready, wave + 1, settled, p.remaining, p.byId, p.started, p.results);
        WaveIsSound(subtasks, world, ready, 0, wave + 1, settled, p, p);
        FirstIsRemaining(subtasks, p.remaining, p.byId, ready);
        match RunReady(subtasks, world, ready, 0, wave + 1, p)
        case Broken =>
        case Stopped(q) =>
          StopIsReported(subtasks, world, wave + 1, q);
        case Through(q) => WavesAreReported(subtasks, world, wave + 1, q, p.byId.Keys);
      }
    }
  }

  lemma {:induction false} BetweenMeans(subtasks: seq<Subtask>, remaining: set<string>, byId: map<string,
                                        SubtaskResult>, started: seq<SubtaskStart>, results: seq<SubtaskResult>,
                                          wave: nat, settled: set<string>)
    requires BetweenWaves(subtasks, remaining, byId, started, results, wave, settled)
    ensures AllContinue(results) && wave == (if started == [] then 0 else started[|started| - 1].wave)
  {
  }

  lemma {:induction false} LaterInTime(world: World, wave: nat)
    requires InTime(world, wave)
    ensures !world.late(wave) ==> InTime(world, wave + 1)
  {
  }

  lemma {:induction false} FirstIsRemaining(subtasks: seq<Subtask>, remaining: set<string>, byId: map<string,
                                            SubtaskResult>, ready: seq<nat>)
    requires ready == ReadyPositions(subtasks, remaining, byId) && ready != []
    ensures ready[0] < |subtasks| && subtasks[ready[0]].subtaskId in remaining
    ensures forall i :: 0 <= i < |ready| ==> ready[i] < |subtasks|
  {
    assert forall i :: 0 <= i < |ready| ==> ready[i] in ready;
  }

  lemma {:induction false} StuckIsReported(subtasks: seq<Subtask>, world: World, wave: nat, p: Progress,
                                           settled: set<string>)
    requires UniqueIds(subtasks) && SoundProgress(subtasks, world, p) && p.remaining != {} && InTime(world, wave)
    requires BetweenWaves(subtasks, p.remaining, p.byId, p.started, p.results, wave, settled)
    requires ReadyPositions(subtasks, p.remaining, p.byId) == []
    ensures var o := GivenUp(subtasks, p.remaining, p.results, NoRunnable, Error, Pending, INTERNAL_ERROR, wave, None);
            Complete(subtasks, world, p.started, o) && Reported(subtasks, world, p.started, o)
  {
    hide Complete, Reported, History, ById, PendingResults, GivenUp, ReadyPositions, ValidGraph;
    NoReadyMeansInvalid(subtasks, p.remaining, p.byId);
    GivenUpIsReported(subtasks, world, p.remaining, p.byId, p.started, p.results, p.calls,
                      GivenUp(subtasks, p.remaining, p.results, NoRunnable, Error, Pending, INTERNAL_ERROR, wave, None),
                      NoRunnable, Error, Pending, INTERNAL_ERROR, wave, None);
  }

  lemma {:induction false} StopIsReported(subtasks: seq<Subtask>, world: World, wave: nat, q: Progress)
    requires UniqueIds(subtasks) && WaveLeaves(subtasks, world, wave, {}, Stopped(q)) && InTime(world, wave)
    ensures Complete(subtasks, world, q.started, StoppedOutcome(subtasks, q, wave))
    ensures Reported(subtasks, world, q.started, StoppedOutcome(subtasks, q, wave))
  {
    hide Complete, Reported, Sound, ById, GivenUp, AllContinue, TerminalKind;
    var last := q.results[|q.results| - 1];
    var status := if last.status == Canceled then Canceled else Error;
    GivenUpIsReported(subtasks, world, q.remaining, q.byId, q.started, q.results, q.calls,
                      StoppedOutcome(subtasks, q, wave),
                      SubtaskFailed, status, if status == Canceled then Canceled else Pending, last.errorCode, wave,
                      Some(TerminalKind(status, last.errorCode)));
  }

  // ---------------------------------------------------------------- where a mission breaks off

  /** How far a mission has come: the wave under way, its ready subtasks, and how many of them
      have run. */
  datatype Point = Point(wave: nat, ready: seq<nat>, next: nat, p: Progress)

  function Start(subtasks: seq<Subtask>): Point {
    Point(0, [], 0, Progress(Ids(subtasks), map[], [], [], 0))
  }

  predicate Placed(subtasks: seq<Subtask>, a: Point) {
    a.next <= |a.ready| && forall i :: 0 <= i < |a.ready| ==> a.ready[i] < |subtasks|
  }

  /** The mission goes on by one step: the next ready subtask runs and does not stop it, or the
      wave is through, something remains in time, and what is ready now makes the next wave. */
  ghost predicate GoesOn(subtasks: seq<Subtask>, world: World, a: Point, b: Point)
    requires Runnable(subtasks)
  {
    && Placed(subtasks, a)
    && if a.next < |a.ready| then
         var s := subtasks[a.ready[a.next]];
         var r := SubtaskRun(s, world, a.p.calls);
         r.Some? && Continues(r.value) && b == a.(next := a.next + 1, p := Recorded(a.p, subtasks, s, a.wave, r.value))
       else
         var ready := ReadyPositions(subtasks, a.p.remaining, a.p.byId);
         a.p.remaining != {} && !world.late(a.wave) && ready != [] && b == Point(a.wave + 1, ready, 0, a.p)
  }

  ghost predicate Steps(subtasks: seq<Subtask>, world: World, path: seq<Point>)
    requires Runnable(subtasks)
  {
    path != [] && forall i :: 0 <= i < |path| - 1 ==> GoesOn(subtasks, world, path[i], path[i + 1])
  }

  /** The next ready subtask runs and one of the attempts it makes escapes. */
  ghost predicate BreaksOff(subtasks: seq<Subtask>, world: World, a: Point) {
    a.next < |a.ready| && Placed(subtasks, a) && SubtaskEscapes(subtasks[a.ready[a.next]], world, a.p.calls)
  }

  /** A run of the mission from its beginning to a point where it breaks off. */
  ghost predicate RunBreaksOff(subtasks: seq<Subtask>, world: World, path: seq<Point>)
    requires Runnable(subtasks)
  {
    Steps(subtasks, world, path) && path[0] == Start(subtasks) && BreaksOff(subtasks, world, path[|path| - 1])
  }

  lemma {:induction false} StepsJoin(subtasks: seq<Subtask>, world: World, a: seq<Point>, b: seq<Point>)
    requires Runnable(subtasks) && Steps(subtasks, world, a) && Steps(subtasks, world, b)
    requires GoesOn(subtasks, world, a[|a| - 1], b[0])
    ensures Steps(subtasks, world, a + b)
  {
    hide GoesOn;
  }

  /** Inside a wave that no subtask stops, the mission goes on or breaks off. */
  lemma {:induction false} NextInWave(subtasks: seq<Subtask>, world: World, a: Point) returns (b: Point)
    requires Runnable(subtasks) && Placed(subtasks, a) && a.next < |a.ready| && !BreaksOff(subtasks, world, a)
    requires !RunReady(subtasks, world, a.ready, a.next, a.wave, a.p).Stopped?
    ensures GoesOn(subtasks, world, a, b) && Placed(subtasks, b)
    ensures b.next == a.next + 1 && b.ready == a.ready && b.wave == a.wave
    ensures RunReady(subtasks, world, b.ready, b.next, b.wave, b.p)
            == RunReady(subtasks, world, a.ready, a.next, a.wave, a.p)
  {
    hide SubtaskRun, Recorded, SubtaskEscapes;
    var s := subtasks[a.ready[a.next]];
    SubtaskRunMeets(s, world, a.p.calls);
    b := a.(next := a.next + 1, p := Recorded(a.p, subtasks, s, a.wave, SubtaskRun(s, world, a.p.calls).value));
  }

  lemma {:induction false} WaveBreaks(subtasks: seq<Subtask>, world: World, a: Point) returns (path: seq<Point>)
    requires Runnable(subtasks) && Placed(subtasks, a)
    requires RunReady(subtasks, world, a.ready, a.next, a.wave, a.p).Broken?
    ensures Steps(subtasks, world, path) && path[0] == a && BreaksOff(subtasks, world, path[|path| - 1])
    decreases |a.ready| - a.next
  {
    hide GoesOn, BreaksOff, RunReady;
    if BreaksOff(subtasks, world, a) {
      path := [a];
    } else {
      WholeWave(subtasks, world, a);
      var b := NextInWave(subtasks, world, a);
      var rest := WaveBreaks(subtasks, world, b);
      StepsJoin(subtasks, world, [a], rest);
      path := [a] + rest;
    }
  }

  lemma {:induction false} WholeWave(subtasks: seq<Subtask>, world: World, a: Point)
    requires Runnable(subtasks) && Placed(subtasks, a)
    ensures a.next == |a.ready| ==> RunReady(subtasks, world, a.ready, a.next, a.wave, a.p) == Through(a.p)
  {
  }

  lemma {:induction false} WaveRunsThrough(subtasks: seq<Subtask>, world: World, a: Point) returns (path: seq<Point>)
    requires Runnable(subtasks) && Placed(subtasks, a)
    requires RunReady(subtasks, world, a.ready, a.next, a.wave, a.p).Through?
    ensures Steps(subtasks, world, path) && path[0] == a
    ensures path[|path| - 1]
         == Point(a.wave, a.ready, |a.ready|, RunReady(subtasks, world, a.ready, a.next, a.wave, a.p).p)
    decreases |a.ready| - a.next
  {
    hide GoesOn, BreaksOff, RunReady;
    WholeWave(subtasks, world, a);
    if a.next == |a.ready| {
      path := [a];
    } else {
      ThroughGoesOn(subtasks, world, a);
      var b := NextInWave(subtasks, world, a);
      var rest := WaveRunsThrough(subtasks, world, b);
      StepsJoin(subtasks, world, [a], rest);
      path := [a] + rest;
    }
  }

  lemma {:induction false} ThroughGoesOn(subtasks: seq<Subtask>, world: World, a: Point)
    requires Runnable(subtasks) && Placed(subtasks, a)
             && RunReady(subtasks, world, a.ready, a.next, a.wave, a.p).Through?
    ensures !BreaksOff(subtasks, world, a)
  {
    hide SubtaskRun, SubtaskEscapes, Recorded;
    if a.next < |a.ready| {
      SubtaskRunMeets(subtasks[a.ready[a.next]], world, a.p.calls);
    }
  }

  lemma {:induction false} WavesBreak(subtasks: seq<Subtask>, world: World, a: Point) returns (path: seq<Point>)
    requires Runnable(subtasks) && Placed(subtasks, a) && a.next == |a.ready|
    requires RunWaves(subtasks, world, a.wave, a.p).Aborted?
    ensures Steps(subtasks, world, path) && path[0] == a && BreaksOff(subtasks, world, path[|path| - 1])
    decreases a.p.remaining
  {
    hide RunReady, BreaksOff, ReadyPositions, GivenUp, StoppedOutcome;
    var ready := ReadyPositions(subtasks, a.p.remaining, a.p.byId);
    FirstIsRemaining(subtasks, a.p.remaining, a.p.byId, ready);
    var b := Point(a.wave + 1, ready, 0, a.p);
    assert GoesOn(subtasks, world, a, b);
    var rest;
    if RunReady(subtasks, world, ready, 0, a.wave + 1, a.p).Broken? {
      rest := WaveBreaks(subtasks, world, b);
    } else {
      rest := WaveRunsThrough(subtasks, world, b);
      var c := rest[|rest| - 1];
      var more := WavesBreak(subtasks, world, c);
      assert rest[..|rest| - 1] + more == rest[..|rest| - 1] + [c] + more[1..];
      StepsThrough(subtasks, world, rest, more);
      rest := rest[..|rest| - 1] + more;
    }
    StepsJoin(subtasks, world, [a], rest);
    path := [a] + rest;
  }

  lemma {:induction false} StepsThrough(subtasks: seq<Subtask>, world: World, a: seq<Point>, b: seq<Point>)
    requires Runnable(subtasks) && Steps(subtasks, world, a) && Steps(subtasks, world, b) && a[|a| - 1] == b[0]
    ensures Steps(subtasks, world, a[..|a| - 1] + b) && (a[..|a| - 1] + b)[0] == a[0]
  {
    hide GoesOn;
    var all, n := a[..|a| - 1] + b, |a| - 1;
    forall i | 0 <= i < |all| - 1 ensures GoesOn(subtasks, world, all[i], all[i + 1]) {
      if i < n - 1 {
        assert GoesOn(subtasks, world, a[i], a[i + 1]);
      } else if i == n - 1 {
        assert GoesOn(subtasks, world, a[n - 1], a[n]);
      } else {
        assert GoesOn(subtasks, world, b[i - n], b[i - n + 1]);
      }
    }
  }

  /** How the mission ends from a point. */
  function EndFrom(subtasks: seq<Subtask>, world: World, a: Point): MissionEnd
    requires Runnable(subtasks) && Placed(subtasks, a)
  {
    match RunReady(subtasks, world, a.ready, a.next, a.wave, a.p)
    case Broken => Aborted
    case Stopped(q) => Ended(StoppedOutcome(subtasks, q, a.wave), q.started)
    case Through(q) => RunWaves(subtasks, world, a.wave, q)
  }

  lemma {:induction false} StepKeepsEnd(subtasks: seq<Subtask>, world: World, a: Point, b: Point)
    requires Runnable(subtasks) && GoesOn(subtasks, world, a, b)
    ensures Placed(subtasks, b) && EndFrom(subtasks, world, b) == EndFrom(subtasks, world, a)
  {
    hide SubtaskRun, Recorded, StoppedOutcome, GivenUp, ReadyPositions;
    if a.next == |a.ready| {
      FirstIsRemaining(subtasks, a.p.remaining, a.p.byId, b.ready);
    }
  }

  lemma {:induction false} StepsKeepEnd(subtasks: seq<Subtask>, world: World, path: seq<Point>)
    requires Runnable(subtasks) && Steps(subtasks, world, path) && Placed(subtasks, path[0])
    ensures Placed(subtasks, path[|path| - 1])
    ensures EndFrom(subtasks, world, path[|path| - 1]) == EndFrom(subtasks, world, path[0])
  {
    hide EndFrom, GoesOn, Placed;
    if |path| > 1 {
      var before := path[..|path| - 1];
      StepsKeepEnd(subtasks, world, before);
      assert GoesOn(subtasks, world, path[|path| - 2], path[|path| - 2 + 1]);
      StepKeepsEnd(subtasks, world, path[|path| - 2], path[|path| - 1]);
    }
  }

  /** A mission breaks off exactly when its run, step by step from the beginning, comes to a
      point where the next ready subtask makes an attempt that escapes. */
  lemma {:induction false} MissionAbortsExactly(subtasks: seq<Subtask>, world: World)
    requires Runnable(subtasks)
    ensures Mission(subtasks, world).Aborted? <==> exists path :: RunBreaksOff(subtasks, world, path)
  {
    hide RunWaves, Steps, BreaksOff;
    assert EndFrom(subtasks, world, Start(subtasks)) == Mission(subtasks, world);
    if Mission(subtasks, world).Aborted? {
      var path := WavesBreak(subtasks, world, Start(subtasks));
      StepsNonempty(subtasks, world, path);
      assert RunBreaksOff(subtasks, world, path);
    } else if path :| RunBreaksOff(subtasks, world, path) {
      StepsNonempty(subtasks, world, path);
      StepsKeepEnd(subtasks, world, path);
      BreakEnds(subtasks, world, path[|path| - 1]);
    }
  }

  lemma {:induction false} StepsNonempty(subtasks: seq<Subtask>, world: World, path: seq<Point>)
    requires Runnable(subtasks) && Steps(subtasks, world, path)
    ensures path != []
  {
  }

  lemma {:induction false} BreakEnds(subtasks: seq<Subtask>, world: World, a: Point)
    requires Runnable(subtasks) && Placed(subtasks, a) && BreaksOff(subtasks, world, a)
    ensures EndFrom(subtasks, world, a).Aborted?
  {
    hide SubtaskRun, SubtaskEscapes;
    SubtaskRunMeets(subtasks[a.ready[a.next]], world, a.p.calls);
  }

  /** What has run before a point, and what runs next. */
  ghost predicate SoundPoint(subtasks: seq<Subtask>, world: World, a: Point) {
    && SoundProgress(subtasks, world, a.p) && AllContinue(a.p.results) && InTime(world, a.wave)
    && (a.next < |a.ready| ==>
          && a.ready[a.next] < |subtasks|
          && IsReady(subtasks[a.ready[a.next]], a.p.remaining, a.p.byId))
  }

  /** The point is inside a wave that began soundly, or between waves. */
  ghost predicate Reached(subtasks: seq<Subtask>, world: World, a: Point, p0: Progress, settled: set<string>) {
    && Placed(subtasks, a) && SoundProgress(subtasks, world, a.p) && InTime(world, a.wave)
    && if a.next < |a.ready| then
         && a.wave >= 1 && SoundProgress(subtasks, world, p0)
            && a.ready == ReadyPositions(subtasks, p0.remaining, p0.byId)
         && BetweenWaves(subtasks, p0.remaining, p0.byId, p0.started, p0.results, a.wave - 1, settled)
         && Continuing(a.p.byId, a.p.results)
         && InWave(subtasks, a.ready, a.next, a.wave, p0.remaining, p0.started, a.p.remaining, a.p.started)
       else BetweenWaves(subtasks, a.p.remaining, a.p.byId, a.p.started, a.p.results, a.wave, settled)
  }

  lemma {:induction false} StepIsReached(subtasks: seq<Subtask>, world: World, a: Point, b: Point, p0: Progress,
                                         settled: set<string>)
    returns (q0: Progress, later: set<string>)
    requires UniqueIds(subtasks) && Runnable(subtasks) && Reached(subtasks, world, a, p0, settled)
             && GoesOn(subtasks, world, a, b)
    ensures Reached(subtasks, world, b, q0, later)
  {
    hide Sound, BetweenWaves, Continuing, IsSubtaskRun, Ids, UniqueIds, ReadyPositions, InWave, SubtaskRun, Recorded,
      InTime, SubtaskEscapes;
    if a.next < |a.ready| {
      var s := subtasks[a.ready[a.next]];
      SubtaskRunMeets(s, world, a.p.calls);
      var r := SubtaskRun(s, world, a.p.calls).value;
      RecordReady(subtasks, world, a.ready, a.next, a.wave, settled, p0, a.p, r);
      ContinuesRecorded(subtasks, world, a.p, s, a.wave, r);
      q0, later := p0, settled;
      if b.next == |b.ready| {
        WaveEnds(subtasks, world, a.ready, a.wave, settled, p0.remaining, p0.byId, p0.started, p0.results, p0.calls,
                 b.p.remaining, b.p.byId, b.p.started, b.p.results);
        later := p0.byId.Keys;
      }
    } else {
      q0, later := a.p, settled;
      LaterInTime(world, a.wave);
      FirstIsRemaining(subtasks, a.p.remaining, a.p.byId, b.ready);
      WaveBegins(subtasks, b.ready, b.wave, settled, a.p.remaining, a.p.byId, a.p.started, a.p.results);
    }
  }

  lemma {:induction false} StepsAreReached(subtasks: seq<Subtask>, world: World, path: seq<Point>)
    returns (p0: Progress, settled: set<string>)
    requires UniqueIds(subtasks) && Runnable(subtasks) && Steps(subtasks, world, path) && path[0] == Start(subtasks)
    ensures Reached(subtasks, world, path[|path| - 1], p0, settled)
  {
    hide Reached, GoesOn;
    if |path| == 1 {
      p0, settled := path[0].p, {};
      StartIsReached(subtasks, world, p0);
    } else {
      var q0, before := StepsAreReached(subtasks, world, path[..|path| - 1]);
      assert GoesOn(subtasks, world, path[|path| - 2], path[|path| - 2 + 1]);
      p0, settled := StepIsReached(subtasks, world, path[|path| - 2], path[|path| - 1], q0, before);
    }
  }

  lemma {:induction false} StartIsReached(subtasks: seq<Subtask>, world: World, p0: Progress)
    ensures Reached(subtasks, world, Start(subtasks), p0, {})
  {
  }

  /** At every point of a run everything recorded is true, everything that ran was DONE or
      skipped, every wave began in time, and the subtask to run next waits for nothing. */
  lemma {:induction false} RunIsSound(subtasks: seq<Subtask>, world: World, path: seq<Point>)
    requires UniqueIds(subtasks) && Runnable(subtasks) && Steps(subtasks, world, path) && path[0] == Start(subtasks)
    ensures SoundPoint(subtasks, world, path[|path| - 1])
  {
    hide Reached, SoundPoint, GoesOn;
    var p0, settled := StepsAreReached(subtasks, world, path);
    ReachedIsSound(subtasks, world, path[|path| - 1], p0, settled);
  }

  lemma {:induction false} ReachedIsSound(subtasks: seq<Subtask>, world: World, a: Point, p0: Progress,
                                          settled: set<string>)
    requires UniqueIds(subtasks) && Reached(subtasks, world, a, p0, settled)
    ensures SoundPoint(subtasks, world, a)
  {
    hide History, InTime, CallsBefore;
    if a.next < |a.ready| {
      var s := subtasks[a.ready[a.next]];
      assert a.ready[a.next] in a.ready && a.ready[a.next] !in a.ready[..a.next];
      assert IsReady(s, p0.remaining, p0.byId);
      forall d | d in s.dependsOn ensures DependencySatisfied(d, a.p.byId) {
        assert d in p0.byId;
      }
    }
  }

  /** For all child outcomes and clocks, a mission either ends with a complete and truthful
      report, which comes with the graph's validity, order, depth and deadline facts, or breaks
      off: exactly when its run comes, after a true history of subtasks that were DONE or
      skipped, to a ready subtask that makes an attempt that escapes. */
  lemma {:induction false} MissionIsReported(subtasks: seq<Subtask>, world: World)
    requires UniqueIds(subtasks) && Runnable(subtasks)
    ensures match Mission(subtasks, world)
            case Aborted => true
            case Ended(o, started) => Complete(subtasks, world, started, o) && Reported(subtasks, world, started, o)
    ensures Mission(subtasks, world).Aborted? <==>
            exists path :: RunBreaksOff(subtasks, world, path) && SoundPoint(subtasks, world, path[|path| - 1])
  {
    hide Complete, Reported, RunWaves, SoundPoint, GoesOn, BreaksOff;
    WavesAreReported(subtasks, world, 0, Progress(Ids(subtasks), map[], [], [], 0), {});
    MissionAbortsExactly(subtasks, world);
    if path :| RunBreaksOff(subtasks, world, path) {
      RunIsSound(subtasks, world, path);
    }
  }

  /** A mission is DONE exactly when every subtask it reports succeeded or was skipped. */
  lemma {:induction false} DoneMeansAllContinue(subtasks: seq<Subtask>, world: World)
    requires UniqueIds(subtasks) && Runnable(subtasks) && Mission(subtasks, world).Ended?
    ensures var o := Mission(subtasks, world).outcome;
            && (o.status == Done <==> AllContinue(o.results))
            && (o.status == Done <==> o.exit == Finished)
            && o.status in {Done, Error, Canceled}
  {
    hide Mission, History, ById, IsDepth, PendingResults, ValidGraph;
    MissionIsReported(subtasks, world);
    var o, started := Mission(subtasks, world).outcome, Mission(subtasks, world).started;
    assert |started| <= |o.results| by {
      ReportedLength(subtasks, world, started, o);
    }
    if o.exit == SubtaskFailed {
      assert o.results[..|started|][|started| - 1] == o.results[|started| - 1];
    } else if o.exit != Finished {
      var left := Ids(subtasks) - StartedIds(started);
      var x :| x in left;
      var i := PendingHas(subtasks, left, Pending, o.errorCode, x);
      var pending := PendingResults(subtasks, left, Pending, o.errorCode);
      assert o.results[|started| + i] == pending[i];
    }
  }

  lemma {:induction false} ReportedLength(subtasks: seq<Subtask>, world: World, started: seq<SubtaskStart>, o: Outcome)
    requires Complete(subtasks, world, started, o)
    ensures |started| <= |o.results|
  {
  }

  lemma {:induction false} OneResultEach(subtasks: seq<Subtask>, results: seq<SubtaskResult>)
    requires UniqueIds(subtasks) && Distinct(ResultIds(results)) && Elements(ResultIds(results)) == Ids(subtasks)
    ensures |results| == |subtasks|
  {
    var ids := seq(|subtasks|, i requires 0 <= i < |subtasks| => subtasks[i].subtaskId);
    DistinctLength(ids);
    DistinctLength(ResultIds(results));
    assert forall i :: 0 <= i < |subtasks| ==> subtasks[i].subtaskId == ids[i];
    assert Elements(ids) == Ids(subtasks);
  }

  lemma {:induction false} PendingHas(subtasks: seq<Subtask>, left: set<string>, status: Status, errorCode: string,
                                      x: string) returns (i: nat)
    requires x in left && x in Ids(subtasks)
    ensures i < |PendingResults(subtasks, left, status, errorCode)|
    ensures !PendingResults(subtasks, left, status, errorCode)[i].skipped
    ensures PendingResults(subtasks, left, status, errorCode)[i].status == status
  {
    var n := |subtasks| - 1;
    var before := PendingResults(subtasks[..n], left, status, errorCode);
    if subtasks[n].subtaskId == x {
      i := |before|;
    } else {
      assert x in Ids(subtasks[..n]) by {
        var p :| 0 <= p < |subtasks| && subtasks[p].subtaskId == x;
        assert subtasks[..n][p] == subtasks[p];
      }
      i := PendingHas(subtasks[..n], left, status, errorCode, x);
    }
  }

  lemma {:induction false} FinishedIsReported(subtasks: seq<Subtask>, world: World, byId: map<string, SubtaskResult>,
                           started: seq<SubtaskStart>, results: seq<SubtaskResult>, calls: nat, o: Outcome)
    requires UniqueIds(subtasks) && Sound(subtasks, world, {}, byId, started, results, calls) && AllContinue(results)
    requires InTime(world, if started == [] then 0 else started[|started| - 1].wave)
    requires o == Outcome(Finished, Done, NO_ERROR, results, if started == [] then 0 else started[|started| - 1].wave,
                          Some(TerminalEvent(MissionCompleted, |results|, {})))
    ensures Complete(subtasks, world, started, o) && Reported(subtasks, world, started, o)
  {
    hide Supported, RanAt, InOrder, ById, IsDepth, CallsBefore, ValidGraph, AllSupported, IsPath, Names;
    assert History(subtasks, world, started, results);
    HistoryIsSupported(subtasks, world, started, results);
    LedgerIds(subtasks, {}, byId, started, results);
    AllWavesAreDepths(subtasks, started);
    FinishedMeansValid(subtasks, started, ResultIds(results));
    assert results[..|started|] == results;
  }

  lemma {:induction false} HistoryIsSupported(subtasks: seq<Subtask>, world: World, started: seq<SubtaskStart>,
                                              results: seq<SubtaskResult>)
    requires History(subtasks, world, started, results)
    ensures AllSupported(subtasks, started)
  {
    hide Supported, RanAt, InOrder, Names;
  }

  lemma {:induction false} LedgerIds(subtasks: seq<Subtask>, remaining: set<string>, byId: map<string, SubtaskResult>,
                  started: seq<SubtaskStart>, results: seq<SubtaskResult>)
    requires Ledger(subtasks, remaining, byId, started, results)
    ensures remaining == Ids(subtasks) - StartedIds(started)
  {
    var ids := ResultIds(results);
    assert forall i :: 0 <= i < |started| ==> started[i].subtaskId == ids[i];
    assert StartedIds(started) == Elements(ids);
  }

  lemma {:induction false} AllWavesAreDepths(subtasks: seq<Subtask>, started: seq<SubtaskStart>)
    requires UniqueIds(subtasks) && AllSupported(subtasks, started)
    ensures forall i {:trigger started[i]} :: 0 <= i < |started| ==>
              IsDepth(ById(subtasks), started[i].subtaskId, started[i].wave)
  {
    forall i {:trigger started[i]} | 0 <= i < |started|
      ensures IsDepth(ById(subtasks), started[i].subtaskId, started[i].wave)
    {
      WaveIsDepth(subtasks, started, i);
    }
  }

  /** A completed mission took exactly as many waves as its longest dependency chain has
      subtasks. */
  lemma {:induction false} WavesAreGraphHeight(subtasks: seq<Subtask>, world: World, started: seq<SubtaskStart>,
                                               o: Outcome)
    requires UniqueIds(subtasks) && Complete(subtasks, world, started, o) && |started| == |o.results|
    ensures forall p :: IsPath(ById(subtasks), p) && p[0] in Ids(subtasks) ==> |p| <= o.waves
    ensures subtasks != [] ==> exists p :: IsPath(ById(subtasks), p) && p[0] in Ids(subtasks) && |p| == o.waves
  {
    hide Supported, ById, Edge, UniqueIds, CallsBefore, IsSubtaskRun;
    forall p | IsPath(ById(subtasks), p) && p[0] in Ids(subtasks) ensures |p| <= o.waves {
      var i := StartOf(subtasks, world, started, o, p[0]);
      assert IsDepth(ById(subtasks), started[i].subtaskId, started[i].wave);
      assert i < |started| - 1 ==> InOrder(started[i], started[|started| - 1]);
    }
    if subtasks != [] {
      assert subtasks[0].subtaskId in Ids(subtasks);
      var i := StartOf(subtasks, world, started, o, subtasks[0].subtaskId);
      var last := started[|started| - 1];
      assert IsDepth(ById(subtasks), last.subtaskId, last.wave);
      assert Names(subtasks, last);
    }
  }

  lemma {:induction false} StartOf(subtasks: seq<Subtask>, world: World, started: seq<SubtaskStart>, o: Outcome,
                                   id: string) returns (i: nat)
    requires Complete(subtasks, world, started, o) && |started| == |o.results| && id in Ids(subtasks)
    ensures i < |started| && started[i].subtaskId == id
  {
    hide Supported, ById, IsDepth, CallsBefore, Distinct;
    assert id in Elements(ResultIds(o.results));
    i :| 0 <= i < |o.results| && ResultIds(o.results)[i] == id;
    assert RanAt(subtasks, world, started, o.results, i);
    RunNamesItsSubtask(SubtaskOf(subtasks, started[i]), world, CallsBefore(o.results, i), o.results[i]);
  }
}
