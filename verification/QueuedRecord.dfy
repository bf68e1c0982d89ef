/** A queued request on its way through the durable table: stored as a record, read back after
    a restart, and turned into a request again. */
module QueuedRecord {
  import opened Common

  datatype Time = Time(sec: int, nanosec: int)

  const UNSET := Time(0, 0)

  predicate IsSet(t: Time) {
    t.sec != 0 || t.nanosec != 0
  }

  function ToNs(t: Time): int {
    t.sec * 1_000_000_000 + t.nanosec
  }

  /** The public context every message carries. */
  datatype Context = Context(
    idempotencyKey: string, metadataJson: string, robotId: string, fleetId: string, siteId: string, zoneId: string,
    operatorId: string, tenantId: string, traceId: string)

  datatype Goal = Goal(
    apiVersion: string, taskId: string, taskName: string, source: string, priority: int, correlationId: string,
    createdAt: Time, startedAt: Time, finishedAt: Time, status: string, errorCode: string, errorMessage: string,
    resultJson: string, taskDataJson: string, tags: seq<string>, scheduledAt: Time, delaySec: real, deadlineAt: Time,
    timeoutSec: real, queueOnConflict: bool, context: Context)

  datatype TaskResult = TaskResult(
    apiVersion: string, taskId: string, taskName: string, source: string, priority: int, correlationId: string,
    createdAt: Time, startedAt: Time, finishedAt: Time, status: string, errorCode: string, errorMessage: string,
    resultJson: string, durationSec: real, totalDurationSec: real, context: Context)

  datatype TaskRecord = TaskRecord(
    result: TaskResult, active: bool, taskDataJson: string, tags: seq<string>, scheduledAt: Time, delaySec: real,
    deadlineAt: Time, timeoutSec: real, queueOnConflict: bool, context: Context)

  /** The table's columns: times in two integers, flags as one or zero. */
  datatype Row = Row(
    taskId: string, apiVersion: string, taskName: string, source: string, priority: int, correlationId: string,
    status: string, errorCode: string, errorMessage: string, resultJson: string, durationSec: real,
    totalDurationSec: real, idempotencyKey: string, metadataJson: string, robotId: string, fleetId: string,
    siteId: string, zoneId: string, operatorId: string, tenantId: string, traceId: string, taskDataJson: string,
    tags: seq<string>, scheduledSec: int, scheduledNanosec: int, delaySec: real, deadlineSec: int, deadlineNanosec: int,
    timeoutSec: real, queueOnConflict: int, active: int, createdSec: int, createdNanosec: int, startedSec: int,
    startedNanosec: int, finishedSec: int, finishedNanosec: int)

  /** The record of a request entering the queue, under the node's own API version. */
  function QueuedTaskRecord(g: Goal, nodeVersion: string): TaskRecord {
    TaskRecord(
      TaskResult(nodeVersion, g.taskId, g.taskName, g.source, g.priority, g.correlationId, g.createdAt, UNSET, UNSET,
                 "QUEUED", "", "", "{}", 0.0, 0.0, g.context),
      false, g.taskDataJson, g.tags, g.scheduledAt, g.delaySec, g.deadlineAt, g.timeoutSec, g.queueOnConflict,
        g.context)
  }

  /** The record's own metadata is overwritten by its result's before every write and after
      every read. */
  function Synced(r: TaskRecord): TaskRecord {
    r.(context := r.result.context)
  }

  function ToRow(record: TaskRecord): Row {
    var r := Synced(record);
    var c := r.context;
    Row(r.result.taskId, r.result.apiVersion, r.result.taskName, r.result.source, r.result.priority,
        r.result.correlationId,
        r.result.status, r.result.errorCode, r.result.errorMessage, r.result.resultJson, r.result.durationSec,
        r.result.totalDurationSec, c.idempotencyKey, c.metadataJson, c.robotId, c.fleetId, c.siteId, c.zoneId,
          c.operatorId,
        c.tenantId, c.traceId, r.taskDataJson, r.tags, r.scheduledAt.sec, r.scheduledAt.nanosec, r.delaySec,
          r.deadlineAt.sec,
        r.deadlineAt.nanosec, r.timeoutSec, if r.queueOnConflict then 1 else 0, if r.active then 1 else 0,
        r.result.createdAt.sec, r.result.createdAt.nanosec, r.result.startedAt.sec, r.result.startedAt.nanosec,
        r.result.finishedAt.sec, r.result.finishedAt.nanosec)
  }

  function FromRow(row: Row): TaskRecord {
    var context := Context(row.idempotencyKey, row.metadataJson, row.robotId, row.fleetId, row.siteId, row.zoneId,
                           row.operatorId, row.tenantId, row.traceId);
    var result := TaskResult(row.apiVersion, row.taskId, row.taskName, row.source, row.priority, row.correlationId,
                             Time(row.createdSec, row.createdNanosec), Time(row.startedSec, row.startedNanosec),
                             Time(row.finishedSec, row.finishedNanosec), row.status, row.errorCode, row.errorMessage,
                             row.resultJson, row.durationSec, row.totalDurationSec, context);
    Synced(TaskRecord(result, row.active != 0, row.taskDataJson, row.tags, Time(row.scheduledSec, row.scheduledNanosec),
                      row.delaySec, Time(row.deadlineSec, row.deadlineNanosec), row.timeoutSec,
                        row.queueOnConflict != 0, context))
  }

  function ToGoal(r: TaskRecord, nodeVersion: string): Goal {
    Goal(if r.result.apiVersion != "" then r.result.apiVersion else nodeVersion,
         r.result.taskId, r.result.taskName, r.result.source, r.result.priority, r.result.correlationId,
           r.result.createdAt,
         UNSET, UNSET, "", "", "", "", r.taskDataJson, r.tags, r.scheduledAt, r.delaySec, r.deadlineAt, r.timeoutSec,
         r.queueOnConflict, r.context)
  }

  /** The table gives every record back as it was last synced. */
  lemma {:induction false} RowRoundTrip(r: TaskRecord)
    ensures FromRow(ToRow(r)) == Synced(r)
    ensures FromRow(ToRow(r)) == r <==> r.context == r.result.context
  {
  }

  /** What a restart gives back of a queued request: everything the client chose, with the
      storing node's API version, and the output fields empty. */
  lemma {:induction false} RebuiltRequest(g: Goal, storingVersion: string, nodeVersion: string)
    ensures var rebuilt := ToGoal(FromRow(ToRow(QueuedTaskRecord(g, storingVersion))), nodeVersion);
            && rebuilt == g.(apiVersion := if storingVersion != "" then storingVersion else nodeVersion,
                             startedAt := UNSET, finishedAt := UNSET, status := "", errorCode := "", errorMessage := "",
                             resultJson := "")
            && (rebuilt == g <==>
                  && g.apiVersion == (if storingVersion != "" then storingVersion else nodeVersion)
                  && g.startedAt == UNSET && g.finishedAt == UNSET
                  && g.status == "" && g.errorCode == "" && g.errorMessage == "" && g.resultJson == "")
  {
    RowRoundTrip(QueuedTaskRecord(g, storingVersion));
  }

  /** What the table says of a queued request, column by column: the request's own values under
      their own names, QUEUED and not active. */
  lemma {:induction false} QueuedColumns(g: Goal, storingVersion: string)
    ensures var row := ToRow(QueuedTaskRecord(g, storingVersion));
            && row.status == "QUEUED" && row.active == 0 && row.apiVersion == storingVersion
            && row.taskId == g.taskId && row.taskName == g.taskName && row.source == g.source
            && row.priority == g.priority && row.correlationId == g.correlationId && row.tags == g.tags
            && row.taskDataJson == g.taskDataJson && row.delaySec == g.delaySec && row.timeoutSec == g.timeoutSec
            && Time(row.scheduledSec, row.scheduledNanosec) == g.scheduledAt
            && Time(row.deadlineSec, row.deadlineNanosec) == g.deadlineAt
            && Time(row.createdSec, row.createdNanosec) == g.createdAt
            && (row.queueOnConflict != 0 <==> g.queueOnConflict)
            && row.idempotencyKey == g.context.idempotencyKey && row.metadataJson == g.context.metadataJson
            && row.robotId == g.context.robotId && row.fleetId == g.context.fleetId && row.siteId == g.context.siteId
            && row.zoneId == g.context.zoneId && row.operatorId == g.context.operatorId
            && row.tenantId == g.context.tenantId && row.traceId == g.context.traceId
  {
  }

  // ---------------------------------------------------------------- ready times

  function DelayNs(sec: real): int {
    if sec >= 0.0 then (sec * 1_000_000_000.0).Floor else -((-sec) * 1_000_000_000.0).Floor
  }

  function RequestedReadyAt(g: Goal, now: int): int {
    var scheduled := if IsSet(g.scheduledAt) then Max(now, ToNs(g.scheduledAt)) else now;
    if g.delaySec > 0.0 then Max(scheduled, ToNs(g.createdAt) + DelayNs(g.delaySec)) else scheduled
  }

  /** Neither the clock, nor the schedule, nor the delay since creation speaks against it. */
  ghost predicate Due(g: Goal, now: int, at: int) {
    && now <= at
    && (g.scheduledAt.sec != 0 || g.scheduledAt.nanosec != 0 ==>
          g.scheduledAt.sec * 1_000_000_000 + g.scheduledAt.nanosec <= at)
    && (g.delaySec > 0.0 ==>
          (g.createdAt.sec * 1_000_000_000 + g.createdAt.nanosec) as real + g.delaySec * 1_000_000_000.0
          < (at + 1) as real)
  }

  /** The ready time is the first at which the request is due; a delay is cut to whole
      nanoseconds. */
  lemma {:induction false} ReadyTimeIsFirstDue(g: Goal, now: int)
    ensures forall at :: Due(g, now, at) <==> RequestedReadyAt(g, now) <= at
  {
    if g.delaySec > 0.0 {
      var delay := g.delaySec * 1_000_000_000.0;
      assert delay.Floor as real <= delay < (delay.Floor + 1) as real;
    }
  }

  /** Recomputed later, the ready time of the rebuilt request is the original one, or the new
      clock once that has passed. */
  lemma {:induction false} ReadyTimeSurvives(g: Goal, storingVersion: string, nodeVersion: string, queuedAt: int,
                                             now: int)
    requires queuedAt <= now
    ensures RequestedReadyAt(ToGoal(FromRow(ToRow(QueuedTaskRecord(g, storingVersion))), nodeVersion), now)
         == Max(now, RequestedReadyAt(g, queuedAt))
  {
    hide ToNs, DelayNs;
    RebuiltRequest(g, storingVersion, nodeVersion);
  }
}
