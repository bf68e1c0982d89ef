/** One call of the task executor from request to terminal event, recursively through the
    waves, subtasks and retries of missions. */
module Lifecycle {
  import opened Common
  import opened MissionGraph
  import opened MissionExecution
  import opened MissionPayload

  /** What preparing the request comes to; Crashes is an exception none of the handlers around
      it names. For a mission this is only what precedes the reading of its payload. */
  datatype Preparation = Ready | Invalid | Misconfigured | Unsupported | Crashes

  /** How the backend, or the mission, ends. */
  datatype Ending =
    | Returned(status: Status, errorCode: string)
    | Unavailable | TimedOut | StartFailed | CanceledByBackend | Unexpected

  datatype Answer = Answer(status: Status, errorCode: string)

  /** Everything the surroundings of one call will answer. */
  datatype Plan = Plan(
    wellFormed: bool, repeat: Option<Answer>, known: bool, queueResult: Option<Answer>, denial: Option<string>,
    preparation: Preparation, body: Body, cancelIsSuccess: bool, late: bool)

  /** A mission has a payload; its n-th subtask attempt meets attempts[n], and otherwise once
      those are used up; late is its deadline check. */
  datatype Body =
    | Backend(ending: Ending)
    | SubtaskGraph(readers: Readers, payload: Option<Json>, late: nat -> bool, attempts: seq<Plan>, otherwise: Plan)

  datatype Reply = Result(answer: Answer) | Repeated(answer: Answer) | Raised

  /** The stored record, the result message and the event published together when a call
      ends. */
  datatype Publication = Publication(call: nat, id: string, answer: Answer)

  function EndAnswer(ending: Ending, cancelIsSuccess: bool, late: bool): Answer {
    match ending
    case Returned(status, errorCode) =>
      if status == Done && late then Answer(Error, DEADLINE_EXCEEDED) else Answer(status, errorCode)
    case Unavailable => Answer(Error, SERVER_UNAVAILABLE)
    case TimedOut => Answer(Error, TASK_TIMEOUT)
    case StartFailed => Answer(Error, TASK_START_FAILED)
    case CanceledByBackend => Answer(if cancelIsSuccess then Done else Canceled, NO_ERROR)
    case Unexpected => Answer(Error, INTERNAL_ERROR)
  }

  function MissionEnding(end: MissionEnd): Ending {
    match end
    case Ended(outcome, _) => Returned(outcome.status, outcome.errorCode)
    case Aborted => Unexpected
  }

  /** A subtask's request carries no idempotency key, so its reply is never a repeated one. */
  function ChildReply(id: string, reply: Reply): Child {
    match reply
    case Result(a) => Replied(ChildResult(id, a.status, a.errorCode))
    case Repeated(a) => Replied(ChildResult(id, a.status, a.errorCode))
    case Raised => Escaped
  }

  /** A mission's payload is read with the task id as the default mission id. */
  ghost function Prepared(p: Plan, id: string): Preparation {
    if p.preparation.Ready? && p.body.SubtaskGraph? then
      match ParseMission(p.body.readers, p.body.payload, id)
      case Good(_) => Ready
      case Refused => Invalid
      case Raises => Crashes
    else p.preparation
  }

  /** The subtasks of an accepted payload. */
  ghost function SubtasksOf(b: Body, id: string): (subtasks: seq<Subtask>)
    ensures Runnable(subtasks)
  {
    if b.SubtaskGraph? && ParseMission(b.readers, b.payload, id).Good? then ParseMission(b.readers, b.payload, id).value
       else []
  }

  ghost function ReplyOf(p: Plan, id: string, keyed: bool, active: set<string>): Reply
    decreases p
  {
    if !p.wellFormed then Result(Answer(Rejected, TASK_DATA_PARSING_FAILED))
    else if keyed && p.repeat.Some? then Repeated(p.repeat.value)
    else if !p.known then Result(Answer(Rejected, UNKNOWN_TASK))
    else if id in active then Result(Answer(Rejected, DUPLICATE_TASK_ID))
    else if p.queueResult.Some? then Result(p.queueResult.value)
    else if p.denial.Some? then Result(Answer(Rejected, p.denial.value))
    else
      match Prepared(p, id)
      case Crashes => Raised
      case Invalid => Result(Answer(Rejected, TASK_DATA_PARSING_FAILED))
      case Misconfigured => Result(Answer(Rejected, TASK_START_FAILED))
      case Unsupported => Result(Answer(Rejected, UNSUPPORTED))
      case Ready => Result(EndAnswer(EndingOf(p.body, SubtasksOf(p.body, id), active + {id}), p.cancelIsSuccess,
                                     p.late))
  }

  ghost function EndingOf(b: Body, subtasks: seq<Subtask>, active: set<string>): Ending
    requires Runnable(subtasks)
    decreases b, 1
  {
    match b
    case Backend(ending) => ending
    case SubtaskGraph(_, _, _, _, _) => MissionEnding(Mission(subtasks, WorldOf(b, active)))
  }

  /** The world a mission meets: its children are calls of the executor itself. */
  ghost function WorldOf(b: Body, active: set<string>): World
    requires b.SubtaskGraph?
    decreases b, 0
  {
    World((id: string, n: nat) => ChildReply(id, if n < |b.attempts| then ReplyOf(b.attempts[n], id, false, active)
                                    else ReplyOf(b.otherwise, id, false, active)),
          b.late)
  }

  // ---------------------------------------------------------------- what a reply means

  /** Nothing turns the request away before its preparation. */
  ghost predicate ReachesPreparation(p: Plan, id: string, keyed: bool, active: set<string>) {
    p.wellFormed && (keyed ==> p.repeat.None?) && p.known && id !in active && p.queueResult.None? && p.denial.None?
  }

  /** The exception of the preparation leaves the call. */
  ghost predicate EscapesHandlers(p: Plan, id: string, keyed: bool, active: set<string>) {
    ReachesPreparation(p, id, keyed, active) && Prepared(p, id).Crashes?
  }

  /** A call raises exactly when its preparation does; for a mission that gets to its payload,
      exactly when the first defect of the payload, in the order it is read, is a number that
      cannot be read. */
  lemma {:induction false} RaisedExactly(p: Plan, id: string, keyed: bool, active: set<string>)
    ensures ReplyOf(p, id, keyed, active).Raised? <==> EscapesHandlers(p, id, keyed, active)
    ensures p.preparation.Ready? && p.body.SubtaskGraph? ==>
              (ReplyOf(p, id, keyed, active).Raised? <==>
               ReachesPreparation(p, id, keyed, active) && MeetsUnreadable(p.body.readers, p.body.payload, id))
  {
    hide ParseMission, EndAnswer, EndingOf, SubtasksOf, MeetsUnreadable;
    if p.body.SubtaskGraph? {
      MissionRaisesExactly(p.body.readers, p.body.payload, id);
    }
  }

  /** What a request that is turned away is answered, in the order of the checks. */
  lemma {:induction false} TurnedAwayExactly(p: Plan, id: string, keyed: bool, active: set<string>)
    ensures var reply := ReplyOf(p, id, keyed, active);
            && (reply.Repeated? <==> p.wellFormed && keyed && p.repeat.Some?)
            && (reply.Repeated? ==> reply.answer == p.repeat.value)
            && (!ReachesPreparation(p, id, keyed, active) && !reply.Repeated? ==>
                  && reply.Result?
                  && (!p.wellFormed ==> reply.answer == Answer(Rejected, TASK_DATA_PARSING_FAILED))
                  && (p.wellFormed && !p.known ==> reply.answer == Answer(Rejected, UNKNOWN_TASK))
                  && (p.wellFormed && p.known && id in active ==> reply.answer == Answer(Rejected, DUPLICATE_TASK_ID))
                  && (p.wellFormed && p.known && id !in active && p.queueResult.Some? ==>
                        reply.answer == p.queueResult.value)
                  && (p.wellFormed && p.known && id !in active && p.queueResult.None? ==>
                        p.denial.Some? && reply.answer == Answer(Rejected, p.denial.value)))
  {
    hide Prepared, EndAnswer, EndingOf, SubtasksOf;
  }

  /** A mission is prepared exactly when its payload is accepted and describes a valid graph, and
      it runs the subtasks its payload describes. */
  lemma {:induction false} PreparedExactly(p: Plan, id: string)
    requires p.preparation.Ready? && p.body.SubtaskGraph?
    ensures Prepared(p, id).Ready? <==>
            exists subtasks :: Accepts(p.body.readers, p.body.payload, id, subtasks) && ValidGraph(subtasks)
    ensures Prepared(p, id).Crashes? <==> MeetsUnreadable(p.body.readers, p.body.payload, id)
    ensures Prepared(p, id).Ready? || Prepared(p, id).Crashes? || Prepared(p, id).Invalid?
    ensures Prepared(p, id).Ready? ==>
              Accepts(p.body.readers, p.body.payload, id, SubtasksOf(p.body, id)) && ValidGraph(SubtasksOf(p.body, id))
  {
    hide ParseMission, MeetsUnreadable, Accepts, ValidGraph;
    MissionRaisesExactly(p.body.readers, p.body.payload, id);
    if Prepared(p, id).Ready? {
      assert ParseMission(p.body.readers, p.body.payload, id) == Good(SubtasksOf(p.body, id));
    }
  }

  /** What a request whose preparation fails is answered. */
  lemma {:induction false} UnpreparedExactly(p: Plan, id: string, keyed: bool, active: set<string>)
    requires ReachesPreparation(p, id, keyed, active) && !Prepared(p, id).Ready? && !Prepared(p, id).Crashes?
    ensures var reply := ReplyOf(p, id, keyed, active);
            && reply.Result? && reply.answer.status == Rejected
            && (reply.answer.errorCode == TASK_DATA_PARSING_FAILED <==> Prepared(p, id).Invalid?)
            && (reply.answer.errorCode == TASK_START_FAILED <==> Prepared(p, id).Misconfigured?)
            && (reply.answer.errorCode == UNSUPPORTED <==> Prepared(p, id).Unsupported?)
  {
    hide Prepared, EndAnswer, EndingOf, SubtasksOf;
  }

  /** What a request that reaches its backend is answered: DONE exactly when the backend returned
      DONE in time, or canceled with that counting as success; every failure with its own code. */
  lemma {:induction false} BackendAnsweredExactly(p: Plan, id: string, keyed: bool, active: set<string>)
    requires ReachesPreparation(p, id, keyed, active) && p.preparation.Ready? && p.body.Backend?
    ensures var e, reply := p.body.ending, ReplyOf(p, id, keyed, active);
            && reply.Result?
            && (reply.answer.status == Done <==>
                  (e.Returned? && e.status == Done && !p.late) || (e.CanceledByBackend? && p.cancelIsSuccess))
            && (reply.answer.status == Canceled <==>
                  (e.Returned? && e.status == Canceled) || (e.CanceledByBackend? && !p.cancelIsSuccess))
            && (reply.answer == Answer(Error, SERVER_UNAVAILABLE) <==>
                  e.Unavailable? || e == Returned(Error, SERVER_UNAVAILABLE))
            && (reply.answer == Answer(Error, TASK_TIMEOUT) <==> e.TimedOut? || e == Returned(Error, TASK_TIMEOUT))
            && (reply.answer == Answer(Error, TASK_START_FAILED) <==>
                  e.StartFailed? || e == Returned(Error, TASK_START_FAILED))
            && (reply.answer == Answer(Error, DEADLINE_EXCEEDED) <==>
                  (e.Returned? && e.status == Done && p.late) || e == Returned(Error, DEADLINE_EXCEEDED))
            && (reply.answer == Answer(Error, INTERNAL_ERROR) <==>
                e.Unexpected? || e == Returned(Error, INTERNAL_ERROR))
            && (e.Returned? && !(e.status == Done && p.late) ==> reply.answer == Answer(e.status, e.errorCode))
            && (e.CanceledByBackend? ==> reply.answer.errorCode == NO_ERROR)
  {
  }

  /** The plan the n-th attempt meets. */
  function AttemptPlan(b: Body, n: nat): Plan
    requires b.SubtaskGraph?
  {
    if n < |b.attempts| then b.attempts[n] else b.otherwise
  }

  /** The next ready subtask of the mission is run, its attempts before the k-th are tried
      again, and the k-th meets a preparation that raises. */
  ghost predicate RaisesNext(b: Body, subtasks: seq<Subtask>, active: set<string>, a: Point, k: nat)
    requires b.SubtaskGraph?
  {
    && a.next < |a.ready| && Placed(subtasks, a)
    && var s := subtasks[a.ready[a.next]];
       && !s.condition.Skip? && !s.condition.Abort? && 1 <= k <= s.maxAttempts
       && (forall j :: 1 <= j < k ==> Retried(s, WorldOf(b, active), a.p.calls, j))
       && EscapesHandlers(AttemptPlan(b, a.p.calls + k - 1), AttemptTaskId(s, k), false, active)
  }

  /** A run of the mission up to a point where an attempt raises, after a true history of
      subtasks that were DONE or skipped. */
  ghost predicate BrokenBy(b: Body, subtasks: seq<Subtask>, active: set<string>, path: seq<Point>, k: nat)
    requires b.SubtaskGraph? && Runnable(subtasks)
  {
    && Steps(subtasks, WorldOf(b, active), path) && path[0] == Start(subtasks)
    && SoundPoint(subtasks, WorldOf(b, active), path[|path| - 1])
    && RaisesNext(b, subtasks, active, path[|path| - 1], k)
  }

  lemma {:induction false} BreaksByRaising(b: Body, subtasks: seq<Subtask>, active: set<string>, a: Point)
    requires b.SubtaskGraph?
    ensures BreaksOff(subtasks, WorldOf(b, active), a) <==> exists k: nat :: RaisesNext(b, subtasks, active, a, k)
  {
    hide EscapesHandlers, WorldOf, Retried, AttemptTaskId;
    var world := WorldOf(b, active);
    if a.next < |a.ready| && Placed(subtasks, a) {
      var s := subtasks[a.ready[a.next]];
      forall k: nat ensures RaisesNext(b, subtasks, active, a, k) <==>
                            !s.condition.Skip? && !s.condition.Abort? && EscapesAt(s, world, a.p.calls, 1, k)
      {
        if k >= 1 {
          ChildOfWorld(b, active, AttemptTaskId(s, k), a.p.calls + k - 1);
          RaisedExactly(AttemptPlan(b, a.p.calls + k - 1), AttemptTaskId(s, k), false, active);
        }
      }
    }
  }

  /** A mission breaks off if and only if its run comes to an attempt whose preparation raises
      what no handler names. */
  lemma {:induction false} MissionBreaksExactly(b: Body, subtasks: seq<Subtask>, active: set<string>)
    requires b.SubtaskGraph? && Runnable(subtasks) && UniqueIds(subtasks)
    ensures Mission(subtasks, WorldOf(b, active)).Aborted? <==>
            exists path, k: nat :: BrokenBy(b, subtasks, active, path, k)
  {
    hide Mission, Complete, Reported, GoesOn, SoundPoint, BreaksOff, RaisesNext, WorldOf;
    var world := WorldOf(b, active);
    MissionIsReported(subtasks, world);
    if path :| RunBreaksOff(subtasks, world, path) && SoundPoint(subtasks, world, path[|path| - 1]) {
      BreaksByRaising(b, subtasks, active, path[|path| - 1]);
      var k: nat :| RaisesNext(b, subtasks, active, path[|path| - 1], k);
      assert BrokenBy(b, subtasks, active, path, k);
    }
    if path, k: nat :| BrokenBy(b, subtasks, active, path, k) {
      BreaksByRaising(b, subtasks, active, path[|path| - 1]);
      assert RunBreaksOff(subtasks, world, path);
    }
  }

  /** A mission whose payload was accepted is DONE exactly when no attempt it made met a
      preparation that raises, every subtask succeeded or was skipped, and its own deadline
      held; if an attempt did, it is an internal error; otherwise its report covers every
      subtask once. */
  lemma {:induction false} MissionDoneExactly(p: Plan, id: string, keyed: bool, active: set<string>)
    requires ReachesPreparation(p, id, keyed, active) && Prepared(p, id).Ready? && p.body.SubtaskGraph?
    ensures var subtasks, inside := SubtasksOf(p.body, id), active + {id};
            var end := Mission(subtasks, WorldOf(p.body, inside));
            if exists path, k: nat :: BrokenBy(p.body, subtasks, inside, path, k) then
              ReplyOf(p, id, keyed, active) == Result(Answer(Error, INTERNAL_ERROR))
            else
              && end.Ended? && Complete(subtasks, WorldOf(p.body, inside), end.started, end.outcome)
              && (ReplyOf(p, id, keyed, active).answer.status == Done <==> AllContinue(end.outcome.results) && !p.late)
  {
    hide Mission, Complete, Reported, AllContinue, WorldOf, BrokenBy, ReplyOf, SubtasksOf, RunBreaksOff, SoundPoint;
    hide ReachesPreparation, Prepared;
    var subtasks, inside := SubtasksOf(p.body, id), active + {id};
    var world := WorldOf(p.body, inside);
    ParsedIsUnique(p.body, id);
    MissionReply(p, id, keyed, active);
    MissionBreaksExactly(p.body, subtasks, inside);
    MissionIsReported(subtasks, world);
    if Mission(subtasks, world).Ended? {
      DoneMeansAllContinue(subtasks, world);
    }
  }

  /** The call of an accepted mission is answered with the end of the mission. */
  lemma {:induction false} MissionReply(p: Plan, id: string, keyed: bool, active: set<string>)
    requires ReachesPreparation(p, id, keyed, active) && Prepared(p, id).Ready? && p.body.SubtaskGraph?
    ensures ReplyOf(p, id, keyed, active) == Result(EndAnswer(
              MissionEnding(Mission(SubtasksOf(p.body, id), WorldOf(p.body, active + {id}))), p.cancelIsSuccess,
                p.late))
  {
    hide Mission, WorldOf, ParseMission, SubtasksOf, Prepared, EndAnswer;
  }

  /** What an accepted mission is answered: an internal error when it broke off; DONE when every
      subtask ran and succeeded or was skipped, unless the deadline is over by then; the status
      and code of the first subtask that did neither; or that the deadline was over between two
      waves. */
  lemma {:induction false} MissionAnsweredExactly(p: Plan, id: string, keyed: bool, active: set<string>)
    requires ReachesPreparation(p, id, keyed, active) && Prepared(p, id).Ready? && p.body.SubtaskGraph?
    ensures var subtasks, inside := SubtasksOf(p.body, id), active + {id};
            var reply := ReplyOf(p, id, keyed, active);
            match Mission(subtasks, WorldOf(p.body, inside))
            case Aborted => reply == Result(Answer(Error, INTERNAL_ERROR))
            case Ended(o, started) =>
              && reply.Result? && |started| <= |o.results|
              && var ran := o.results[..|started|];
                 var good := forall i :: 0 <= i < |ran| ==> ran[i].status == Done || ran[i].skipped;
                 if good && |ran| == |subtasks| then
                   reply.answer == if p.late then Answer(Error, DEADLINE_EXCEEDED) else Answer(Done, NO_ERROR)
                 else if good then reply.answer == Answer(Error, DEADLINE_EXCEEDED) && p.body.late(o.waves)
                 else
                   && (forall i :: 0 <= i < |ran| - 1 ==> ran[i].status == Done || ran[i].skipped)
                   && ran[|ran| - 1].status != Done && !ran[|ran| - 1].skipped
                   && reply.answer.status == (if ran[|ran| - 1].status == Canceled then Canceled else Error)
                   && reply.answer.errorCode == ran[|ran| - 1].errorCode
  {
    hide Mission, WorldOf, ReplyOf, SubtasksOf, ReachesPreparation, Prepared;
    MissionReply(p, id, keyed, active);
    MissionEndMeans(p, id, active + {id});
  }

  lemma {:induction false} MissionEndMeans(p: Plan, id: string, active: set<string>)
    requires Prepared(p, id).Ready? && p.body.SubtaskGraph?
    ensures var subtasks := SubtasksOf(p.body, id);
            match Mission(subtasks, WorldOf(p.body, active))
            case Aborted => true
            case Ended(o, started) =>
              |started| <= |o.results| && ExitSays(|subtasks|, o, o.results[..|started|], p.body.late)
  {
    hide Mission, Complete, Reported, WorldOf, SubtasksOf, Prepared, Accepts, ValidGraph, MeetsUnreadable, ExitSays,
      RunBreaksOff, SoundPoint;
    var subtasks := SubtasksOf(p.body, id);
    var world := WorldOf(p.body, active);
    ParsedIsUnique(p.body, id);
    ReadyIsReady(p, id);
    PreparedExactly(p, id);
    MissionIsReported(subtasks, world);
    WorldLate(p.body, active);
    if Mission(subtasks, world).Ended? {
      ExitMeans(subtasks, world, Mission(subtasks, world).outcome, Mission(subtasks, world).started);
    }
  }

  lemma {:induction false} ReadyIsReady(p: Plan, id: string)
    requires Prepared(p, id).Ready?
    ensures p.preparation.Ready?
  {
    hide ParseMission;
  }

  /** What the outcome is by what ran, of that many subtasks. */
  ghost predicate ExitSays(total: nat, o: Outcome, ran: seq<SubtaskResult>, late: nat -> bool) {
    var good := forall i :: 0 <= i < |ran| ==> ran[i].status == Done || ran[i].skipped;
    if good && |ran| == total then o.status == Done && o.errorCode == NO_ERROR
    else if good then o.status == Error && o.errorCode == DEADLINE_EXCEEDED && late(o.waves)
    else
      && (forall i :: 0 <= i < |ran| - 1 ==> ran[i].status == Done || ran[i].skipped)
      && ran[|ran| - 1].status != Done && !ran[|ran| - 1].skipped
      && o.status == (if ran[|ran| - 1].status == Canceled then Canceled else Error)
      && o.errorCode == ran[|ran| - 1].errorCode
  }

  /** How the four ways a mission can end show in what it reports. */
  lemma {:induction false} ExitMeans(subtasks: seq<Subtask>, world: World, o: Outcome, started: seq<SubtaskStart>)
    requires UniqueIds(subtasks) && ValidGraph(subtasks)
    requires Complete(subtasks, world, started, o) && Reported(subtasks, world, started, o)
    ensures |started| <= |o.results| && ExitSays(|subtasks|, o, o.results[..|started|], world.late)
  {
    hide History, ValidGraph, UniqueIds, IsDepth, ById, PendingResults;
    ReportedLength(subtasks, world, started, o);
    var ran := o.results[..|started|];
    assert AllContinue(ran) <==> forall i :: 0 <= i < |ran| ==> ran[i].status == Done || ran[i].skipped;
    if o.exit == SubtaskFailed {
      assert forall i :: 0 <= i < |ran| - 1 ==> ran[..|ran| - 1][i] == ran[i];
    }
    OneResultEach(subtasks, o.results);
    if o.exit == DeadlineElapsed {
      var left := Ids(subtasks) - StartedIds(started);
      var x :| x in left;
      var i := PendingHas(subtasks, left, Pending, DEADLINE_EXCEEDED, x);
    }
  }

  /** The result of a subtask that was tried says what its last attempt's call replied. */
  lemma {:induction false} ResultIsLastReply(b: Body, active: set<string>, s: Subtask, call: nat, r: SubtaskResult)
    requires b.SubtaskGraph? && IsSubtaskRun(s, WorldOf(b, active), call, r) && !s.condition.Skip?
             && !s.condition.Abort?
    ensures r.attempts >= 1
    ensures var reply := ReplyOf(AttemptPlan(b, call + r.attempts - 1), AttemptTaskId(s, r.attempts), false, active);
            && reply.Result? && r.taskId == AttemptTaskId(s, r.attempts)
            && (r.status == Done <==> reply.answer.status == Done)
            && (r.skipped <==> reply.answer.status != Done && s.allowSkipping)
            && r.status == (if r.skipped then Skipped else reply.answer.status)
            && r.errorCode == (if r.status == Done then NO_ERROR else reply.answer.errorCode)
  {
    hide ReplyOf, WorldOf, Retried, AttemptTaskId;
    ChildOfWorld(b, active, AttemptTaskId(s, r.attempts), call + r.attempts - 1);
    NeverRepeated(AttemptPlan(b, call + r.attempts - 1), AttemptTaskId(s, r.attempts), active);
  }

  lemma {:induction false} NeverRepeated(p: Plan, id: string, active: set<string>)
    ensures !ReplyOf(p, id, false, active).Repeated?
  {
    hide Prepared, EndAnswer, EndingOf, SubtasksOf;
  }

  /** The names the payload's index-th item lists under depends_on. */
  ghost predicate PayloadNames(b: Body, id: string, index: nat, names: seq<string>) {
    exists missionId: string, items: seq<Json> ::
      && b.SubtaskGraph? && MissionOf(b.payload, id, missionId, items) && 1 <= index <= |items|
      && items[index - 1].Object? && ListsTexts(Member(items[index - 1].members, "depends_on"), names)
  }

  lemma {:induction false} NamedBySubtask(p: Plan, id: string, index: nat)
    requires p.preparation.Ready? && p.body.SubtaskGraph? && Prepared(p, id).Ready?
    requires 1 <= index <= |SubtasksOf(p.body, id)|
    ensures forall names :: PayloadNames(p.body, id, index, names) <==>
              names == SubtasksOf(p.body, id)[index - 1].dependsOn
  {
    hide Prepared, SubtasksOf, ValidGraph, MeetsUnreadable, AllSubtasksPass, MissionOf, ListsTexts;
    PreparedExactly(p, id);
    var b, subtasks := p.body, SubtasksOf(p.body, id);
    var missionId: string, items: seq<Json> :| && MissionOf(b.payload, id, missionId, items)
      && AllSubtasksPass(b.readers, items, missionId)
                            && AllDescribed(b.readers, items, missionId, subtasks);
    DescribedNames(b.readers, items[index - 1], missionId, index, subtasks[index - 1]);
    forall names | PayloadNames(b, id, index, names) ensures names == subtasks[index - 1].dependsOn {
      var m: string, list: seq<Json> :| MissionOf(b.payload, id, m, list) && 1 <= index <= |list|
                     && list[index - 1].Object? && ListsTexts(Member(list[index - 1].members, "depends_on"), names);
      OneMission(b.payload, id, missionId, items, m, list);
      TextsUnique(Member(items[index - 1].members, "depends_on"), names, subtasks[index - 1].dependsOn);
    }
  }

  lemma {:induction false} DescribedNames(rd: Readers, item: Json, missionId: string, index: nat, s: Subtask)
    requires Describes(rd, item, missionId, index, s)
    ensures item.Object? && ListsTexts(Member(item.members, "depends_on"), s.dependsOn)
  {
  }

  lemma {:induction false} OneMission(payload: Option<Json>, id: string, a: string, xs: seq<Json>, b: string,
                                      ys: seq<Json>)
    requires MissionOf(payload, id, a, xs) && MissionOf(payload, id, b, ys)
    ensures a == b && xs == ys
  {
  }

  /** No subtask of an accepted mission runs before the subtasks its payload names: at every point
      of its run, whatever is started later breaks off or stops, each name stands for a subtask
      that was started in an earlier wave and was DONE or skipped. */
  lemma {:induction false} NamedRunFirst(p: Plan, id: string, active: set<string>, path: seq<Point>, i: nat, d: string)
    requires p.preparation.Ready? && p.body.SubtaskGraph? && Prepared(p, id).Ready?
    requires Steps(SubtasksOf(p.body, id), WorldOf(p.body, active), path) && path[0] == Start(SubtasksOf(p.body, id))
    requires var done := path[|path| - 1].p;
             && i < |done.started|
             && exists names :: PayloadNames(p.body, id, done.started[i].index, names) && d in names
    ensures var done := path[|path| - 1].p;
            && |done.results| == |done.started|
            && exists j: nat ::
                 && j < i && done.started[j].subtaskId == d && done.started[j].wave < done.started[i].wave
                 && done.results[j].subtaskId == d && (done.results[j].status == Done || done.results[j].skipped)
  {
    hide Prepared, SubtasksOf, WorldOf, GoesOn, PayloadNames, IsReady, Placed, InTime;
    var subtasks, world, done := SubtasksOf(p.body, id), WorldOf(p.body, active), path[|path| - 1].p;
    ParsedIsUnique(p.body, id);
    RunIsSound(subtasks, world, path);
    assert Names(subtasks, done.started[i]);
    NamedBySubtask(p, id, done.started[i].index);
    HistoryProvides(subtasks, world, done.started, done.results, i, d);
  }

  /** The same of what a mission that ended reports. */
  lemma {:induction false} NamedReportedFirst(p: Plan, id: string, active: set<string>, i: nat, d: string)
    requires p.preparation.Ready? && p.body.SubtaskGraph? && Prepared(p, id).Ready?
    requires var end := Mission(SubtasksOf(p.body, id), WorldOf(p.body, active));
             && end.Ended? && i < |end.started|
             && exists names :: PayloadNames(p.body, id, end.started[i].index, names) && d in names
    ensures var end := Mission(SubtasksOf(p.body, id), WorldOf(p.body, active));
            var results := end.outcome.results;
            && |end.started| <= |results|
            && exists j: nat ::
                 && j < i && end.started[j].subtaskId == d && end.started[j].wave < end.started[i].wave
                 && results[j].subtaskId == d && (results[j].status == Done || results[j].skipped)
  {
    hide Prepared, SubtasksOf, WorldOf, PayloadNames, Mission, Complete, Reported, History;
    var subtasks, world := SubtasksOf(p.body, id), WorldOf(p.body, active);
    var o, started := Mission(subtasks, world).outcome, Mission(subtasks, world).started;
    ParsedIsUnique(p.body, id);
    MissionIsReported(subtasks, world);
    RanBefore(subtasks, world, started, o, i);
    NamedBySubtask(p, id, started[i].index);
    HistoryProvides(subtasks, world, started, o.results, i, d);
  }

  lemma {:induction false} RanBefore(subtasks: seq<Subtask>, world: World, started: seq<SubtaskStart>, o: Outcome,
                                     i: nat)
    requires Complete(subtasks, world, started, o) && Reported(subtasks, world, started, o) && i < |started|
    ensures |started| <= |o.results|
    ensures History(subtasks, world, started, o.results) && AllContinue(o.results[..i]) && Names(subtasks, started[i])
  {
    hide Supported, RanAt, InOrder, ValidGraph, IsDepth, PendingResults, Ids, StartedIds;
    assert o.results[..|started|][..i] == o.results[..i];
    assert o.results[..|started|][..|started| - 1][..i] == o.results[..i];
  }

  lemma {:induction false} HistoryProvides(subtasks: seq<Subtask>, world: World, started: seq<SubtaskStart>,
                                           results: seq<SubtaskResult>, i: nat, d: string)
    requires History(subtasks, world, started, results) && i < |started| && AllContinue(results[..i])
    requires d in subtasks[started[i].index - 1].dependsOn
    ensures exists j: nat ::
              && j < i && started[j].subtaskId == d && started[j].wave < started[i].wave
              && results[j].subtaskId == d && (results[j].status == Done || results[j].skipped)
  {
    hide IsSubtaskRun, InOrder;
    assert Names(subtasks, started[i]) && Supported(subtasks, started, i);
    assert SubtaskOf(subtasks, started[i]) == subtasks[started[i].index - 1];
    var j: nat :| Provides(subtasks, started, j, i, d);
    assert results[..i][j] == results[j];
    assert RanAt(subtasks, world, started, results, j);
    RunNamesItsSubtask(SubtaskOf(subtasks, started[j]), world, CallsBefore(results, j), results[j]);
  }

  lemma {:induction false} ParsedIsUnique(b: Body, id: string)
    ensures UniqueIds(SubtasksOf(b, id))
  {
  }

  lemma {:induction false} ChildOfWorld(b: Body, active: set<string>, id: string, n: nat)
    requires b.SubtaskGraph?
    ensures WorldOf(b, active).child(id, n)
         == ChildReply(id, ReplyOf(AttemptPlan(b, n), id, false, active))
  {
  }

  lemma {:induction false} WorldLate(b: Body, active: set<string>)
    requires b.SubtaskGraph?
    ensures WorldOf(b, active).late == b.late
  {
  }

  function EventsOf(events: seq<Publication>, call: nat): nat {
    if events == [] then 0
    else EventsOf(events[..|events| - 1], call) + if events[|events| - 1].call == call then 1 else 0
  }

  lemma {:induction false} EventsSnoc(events: seq<Publication>, e: Publication, call: nat)
    ensures EventsOf(events + [e], call) == EventsOf(events, call) + if e.call == call then 1 else 0
  {
    assert (events + [e])[..|events|] == events;
  }

  // ---------------------------------------------------------------- the executor

  class Executor {
    var active: map<string, string>
    /** The newest terminal record of each id. */
    var records: map<string, Answer>
    /** Everything published, each with the number of the call that published it. */
    ghost var published: seq<Publication>
    ghost var calls: nat
    /** Calls still running: the missions around the current one. */
    ghost var open: set<nat>
    /** Calls answered from the idempotency store, or ended by an exception nobody caught. */
    ghost var silent: set<nat>

    /** Every call that has ended has published exactly once, unless it was answered from the
        store or escaped; a running one has not published yet. */
    ghost predicate Valid()
      reads this
    {
      && (forall c :: c in open || c in silent ==> c < calls)
      && open !! silent
      && forall c: nat :: EventsOf(published, c) == if c < calls && c !in open && c !in silent then 1 else 0
    }

    constructor ()
      ensures Valid() && active == map[] && published == [] && calls == 0 && open == {} && silent == {}
    {
      active, records, published, calls, open, silent := map[], map[], [], 0, {}, {};
    }

    /** Nothing but history has changed since: the registry and the calls around are as they
        were. */
    ghost predicate Since(active0: map<string, string>, open0: set<nat>, calls0: nat, silent0: set<nat>,
                          published0: seq<Publication>)
      reads this
    {
      && Valid() && active == active0 && open == open0
      && calls >= calls0 && silent0 <= silent && published0 <= published
      && forall c :: c in silent && c < calls0 ==> c in silent0
    }

    method Publish(ghost call: nat, id: string, answer: Answer)
      requires Valid() && call in open
      modifies this`records, this`published, this`open
      ensures Valid() && open == old(open) - {call}
      ensures published == old(published) + [Publication(call, id, answer)] && records == old(records)[id := answer]
    {
      hide EventsOf;
      ghost var e := Publication(call, id, answer);
      forall c: nat ensures EventsOf(published + [e], c) == EventsOf(published, c) + if c == call then 1 else 0 {
        EventsSnoc(published, e, c);
      }
      published := published + [e];
      open := open - {call};
      records := records[id := answer];
    }

    /** The reply is the one the surroundings determine, published once and last. */
    method ExecuteTask(p: Plan, id: string, name: string, keyed: bool) returns (reply: Reply)
      requires Valid()
      modifies this
      ensures Since(old(active), old(open), old(calls), old(silent), old(published)) && calls > old(calls)
      ensures reply == ReplyOf(p, id, keyed, active.Keys)
              && (reply.Raised? <==> EscapesHandlers(p, id, keyed, active.Keys))
      ensures reply.Result? <==> old(calls) !in silent
      ensures reply.Result? ==>
                && |published| > |old(published)|
                   && published[|published| - 1] == Publication(old(calls), id, reply.answer)
                && id in records && records[id] == reply.answer
      decreases p, 5
    {
      hide EventsOf, ValidGraph, Runnable, EndingOf, EndAnswer, Prepared, SubtasksOf, ParseMission;
      ghost var call := Begin();
      if keyed && p.wellFormed && p.repeat.Some? {
        FallSilent(call);
        return Repeated(p.repeat.value);
      }
      var refusal := Refusal(p, id);
      if refusal.Some? {
        Publish(call, id, refusal.value);
        return Result(refusal.value);
      }
      var prepared, subtasks := Prepare(p, id);
      if prepared.Crashes? {
        FallSilent(call);
        return Raised;
      }
      if !prepared.Ready? {
        var refused := PreparationAnswer(prepared);
        Publish(call, id, refused);
        return Result(refused);
      }
      var answer := RunAdmitted(p, subtasks, id, name);
      Publish(call, id, answer);
      reply := Result(answer);
    }

    ghost method Begin() returns (call: nat)
      requires Valid()
      modifies this`calls, this`open
      ensures Valid() && call == old(calls) && calls == call + 1 && open == old(open) + {call} && call !in old(open)
              && call !in silent
    {
      hide EventsOf;
      call := calls;
      calls := calls + 1;
      open := open + {call};
    }

    ghost method FallSilent(call: nat)
      requires Valid() && call in open
      modifies this`open, this`silent
      ensures Valid() && open == old(open) - {call} && silent == old(silent) + {call}
    {
      hide EventsOf;
      open, silent := open - {call}, silent + {call};
    }

    /** Active from the start of the backend to its end. */
    method RunAdmitted(p: Plan, subtasks: seq<Subtask>, id: string, name: string) returns (answer: Answer)
      requires Valid() && id !in active && Runnable(subtasks)
      modifies this
      ensures Since(old(active), old(open), old(calls), old(silent), old(published))
      ensures answer == EndAnswer(EndingOf(p.body, subtasks, active.Keys + {id}), p.cancelIsSuccess, p.late)
      decreases p, 4
    {
      hide EventsOf, ValidGraph, Runnable, EndingOf, EndAnswer;
      ghost var before := active;
      active := active[id := name];
      assert active.Keys == before.Keys + {id};
      var ending := RunBody(p.body, subtasks);
      answer := EndAnswer(ending, p.cancelIsSuccess, p.late);
      active := active - {id};
      assert active == before;
    }

    /** Malformed, unknown, already active, turned away by the queue or by the policy. */
    method Refusal(p: Plan, id: string) returns (refusal: Option<Answer>)
      ensures refusal == if !p.wellFormed then Some(Answer(Rejected, TASK_DATA_PARSING_FAILED))
                         else if !p.known then Some(Answer(Rejected, UNKNOWN_TASK))
                         else if id in active then Some(Answer(Rejected, DUPLICATE_TASK_ID))
                         else if p.queueResult.Some? then p.queueResult
                         else if p.denial.Some? then Some(Answer(Rejected, p.denial.value))
                         else None
    {
      if !p.wellFormed {
        return Some(Answer(Rejected, TASK_DATA_PARSING_FAILED));
      }
      if !p.known {
        return Some(Answer(Rejected, UNKNOWN_TASK));
      }
      if id in active {
        return Some(Answer(Rejected, DUPLICATE_TASK_ID));
      }
      if p.queueResult.Some? {
        return p.queueResult;
      }
      refusal := if p.denial.Some? then Some(Answer(Rejected, p.denial.value)) else None;
    }

    /** A mission's payload is read subtask by subtask, and its graph checked last. */
    method Prepare(p: Plan, id: string) returns (prepared: Preparation, subtasks: seq<Subtask>)
      ensures prepared == Prepared(p, id) && Runnable(subtasks)
      ensures prepared.Ready? ==> subtasks == SubtasksOf(p.body, id)
    {
      hide ValidGraph, ParseSubtasks;
      prepared, subtasks := p.preparation, [];
      if p.preparation.Ready? && p.body.SubtaskGraph? {
        if !WellShaped(p.body.payload, id) {
          return Invalid, [];
        }
        var members := p.body.payload.value.members;
        match ParseSubtasks(p.body.readers, SubtasksValue(members).items, MissionIdValue(members, id).s) {
          case Refused => prepared := Invalid;
          case Raises => prepared := Crashes;
          case Good(read) =>
            var error, _ := ValidateSubtaskGraph(read);
            if error.Some? {
              prepared := Invalid;
            } else {
              subtasks := read;
            }
        }
      }
    }

    method PreparationAnswer(prepared: Preparation) returns (answer: Answer)
      requires !prepared.Ready? && !prepared.Crashes?
      ensures answer.status == Rejected
      ensures answer.errorCode == match prepared
                                  case Invalid => TASK_DATA_PARSING_FAILED
                                  case Misconfigured => TASK_START_FAILED
                                  case _ => UNSUPPORTED
    {
      match prepared {
        case Invalid => answer := Answer(Rejected, TASK_DATA_PARSING_FAILED);
        case Misconfigured => answer := Answer(Rejected, TASK_START_FAILED);
        case _ => answer := Answer(Rejected, UNSUPPORTED);
      }
    }

    method RunBody(b: Body, subtasks: seq<Subtask>) returns (ending: Ending)
      requires Valid() && Runnable(subtasks)
      modifies this
      ensures Since(old(active), old(open), old(calls), old(silent), old(published))
      ensures ending == EndingOf(b, subtasks, active.Keys)
      decreases b, 4
    {
      hide EventsOf, Runnable, Mission, WorldOf;
      match b {
        case Backend(e) => ending := e;
        case SubtaskGraph(_, _, _, _, _) =>
          var end := ExecuteMission(b, subtasks);
          ending := MissionEnding(end);
      }
    }

    // -------------------------------------------------------------- missions

    /** Runs waves until no subtask remains, one stops the mission, or an attempt escapes. */
    method ExecuteMission(b: Body, subtasks: seq<Subtask>) returns (end: MissionEnd)
      requires Valid() && b.SubtaskGraph? && Runnable(subtasks)
      modifies this
      ensures Since(old(active), old(open), old(calls), old(silent), old(published))
      ensures end == Mission(subtasks, WorldOf(b, active.Keys))
      decreases b, 3
    {
      hide EventsOf, WorldOf, RunReady, ReadyPositions, GivenUp, StoppedOutcome;
      ghost var world := WorldOf(b, active.Keys);
      var p := Progress(Ids(subtasks), map[], [], [], 0);
      var wave := 0;
      while p.remaining != {}
        invariant Since(old(active), old(open), old(calls), old(silent), old(published))
        invariant RunWaves(subtasks, world, wave, p) == Mission(subtasks, world)
        decreases p.remaining
      {
        WorldLate(b, active.Keys);
        if b.late(wave) {
          return Ended(GivenUp(subtasks, p.remaining, p.results, DeadlineElapsed, Error, Pending, DEADLINE_EXCEEDED,
                               wave,
                               Some(MissionTimeout)), p.started);
        }
        var ready := ReadyPositions(subtasks, p.remaining, p.byId);
        if ready == [] {
          return Ended(GivenUp(subtasks, p.remaining, p.results, NoRunnable, Error, Pending, INTERNAL_ERROR, wave,
                               None), p.started);
        }
        FirstIsRemaining(subtasks, p.remaining, p.byId, ready);
        wave := wave + 1;
        var waveEnd := RunWave(b, subtasks, ready, wave, p);
        match waveEnd {
          case Broken => return Aborted;
          case Stopped(q) => return Ended(StoppedOutcome(subtasks, q, wave), q.started);
          case Through(q) => p := q;
        }
      }
      end := Ended(Outcome(Finished, Done, NO_ERROR, p.results, wave,
                           Some(TerminalEvent(MissionCompleted, |p.results|, {}))), p.started);
    }

    /** One wave: the ready subtasks in payload order, until one stops the mission. */
    method RunWave(b: Body, subtasks: seq<Subtask>, ready: seq<nat>, wave: nat, p0: Progress) returns (end: WaveEnd)
      requires Valid() && b.SubtaskGraph? && Runnable(subtasks) && forall i :: 0 <= i < |ready| ==>
                 ready[i] < |subtasks|
      modifies this
      ensures Since(old(active), old(open), old(calls), old(silent), old(published))
      ensures end == RunReady(subtasks, WorldOf(b, active.Keys), ready, 0, wave, p0)
      decreases b, 2
    {
      hide EventsOf, WorldOf, SubtaskRun, Recorded;
      ghost var world := WorldOf(b, active.Keys);
      var p, k := p0, 0;
      while k < |ready|
        invariant k <= |ready|
        invariant Since(old(active), old(open), old(calls), old(silent), old(published))
        invariant RunReady(subtasks, world, ready, k, wave, p) == RunReady(subtasks, world, ready, 0, wave, p0)
      {
        var subtask := subtasks[ready[k]];
        var r := RunSubtask(b, subtask, p.calls);
        if r.None? {
          return Broken;
        }
        p := Recorded(p, subtasks, subtask, wave, r.value);
        if !Continues(r.value) {
          return Stopped(p);
        }
        k := k + 1;
      }
      end := Through(p);
    }

    /** A condition decides a subtask without running it, or lets it run. */
    method RunSubtask(b: Body, s: Subtask, call: nat) returns (r: Option<SubtaskResult>)
      requires Valid() && b.SubtaskGraph? && s.maxAttempts >= 1
      modifies this
      ensures Since(old(active), old(open), old(calls), old(silent), old(published))
      ensures r == SubtaskRun(s, WorldOf(b, active.Keys), call)
      decreases b, 1
    {
      hide EventsOf, WorldOf, Attempts;
      if s.condition == Skip || s.condition == Abort {
        r := Some(ConditionResult(s));
      } else {
        r := ExecuteMissionSubtask(b, s, call);
      }
    }

    /** The attempts of one subtask; None when one of them escapes. */
    method ExecuteMissionSubtask(b: Body, s: Subtask, call: nat) returns (r: Option<SubtaskResult>)
      requires Valid() && b.SubtaskGraph? && s.maxAttempts >= 1
      modifies this
      ensures Since(old(active), old(open), old(calls), old(silent), old(published))
      ensures r == Attempts(s, WorldOf(b, active.Keys), call, 1)
      decreases b, 0
    {
      hide EventsOf, AttemptTaskId, ReplyOf, WorldOf;
      ghost var world := WorldOf(b, active.Keys);
      var attempt := 1;
      while true
        invariant 1 <= attempt <= s.maxAttempts
        invariant Since(old(active), old(open), old(calls), old(silent), old(published))
        invariant Attempts(s, world, call, attempt) == Attempts(s, world, call, 1)
        decreases s.maxAttempts - attempt
      {
        var taskId, n := AttemptTaskId(s, attempt), call + attempt - 1;
        var reply: Reply;
        if n < |b.attempts| {
          reply := ExecuteTask(b.attempts[n], taskId, s.taskName, false);
        } else {
          reply := ExecuteTask(b.otherwise, taskId, s.taskName, false);
        }
        ChildOfWorld(b, active.Keys, taskId, n);
        assert AttemptOf(s, world, call, attempt) == ChildReply(taskId, reply);
        if reply.Raised? {
          return None;
        }
        var last := ChildResult(taskId, reply.answer.status, reply.answer.errorCode);
        if last.status == Done || !ShouldRetry(s, attempt, last) {
          return Some(SettledResult(s, attempt, last));
        }
        attempt := attempt + 1;
      }
    }
  }
}
