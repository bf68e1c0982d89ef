/** Start policy against the active tasks, and what it guarantees about every set of tasks
    that are ever active together. */
module Admission {
  import opened Common

  datatype TaskDefinition = TaskDefinition(
    name: string, serverType: string, blocking: bool, reentrant: bool, resources: seq<string>, group: string,
    zoneLocked: bool, capabilityTags: seq<string>, minBattery: real, allowedModes: seq<string>,
    requiresLocalization: bool, allowEmergencyStop: bool)

  datatype AdmissionSnapshot = AdmissionSnapshot(
    battery: real, mode: string, localizationOk: bool, emergencyStop: bool, capabilityTags: seq<string>)

  /** The registry entry's copy of what the policy looks at, with the entry's own scheduling
      context. */
  datatype ActiveTask = ActiveTask(
    id: string, name: string, source: string, correlationId: string, serverType: string, blocking: bool,
    resources: seq<string>, group: string, zoneLocked: bool, zone: string, createdAt: int, status: Status)

  datatype Reason =
    | EmergencyStop | LowBattery | WrongMode | NoLocalization | MissingCapabilities
    | AlreadyActive | BlockedBy(ids: seq<string>)
    | ResourcesShared(id: string) | GroupShared(id: string) | ZoneShared(id: string)

  datatype Decision = Allowed | Denied(code: string, reason: Reason)

  // ---------------------------------------------------------------- evaluate_start

  predicate Meets(a: seq<string>, b: seq<string>) {
    exists x :: x in a && x in b
  }

  function AdmissionError(task: TaskDefinition, admission: AdmissionSnapshot): Option<Reason> {
    if admission.emergencyStop && !task.allowEmergencyStop then Some(EmergencyStop)
    else if task.minBattery > 0.0 && admission.battery < task.minBattery then Some(LowBattery)
    else if task.allowedModes != [] && admission.mode !in task.allowedModes then Some(WrongMode)
    else if task.requiresLocalization && !admission.localizationOk then Some(NoLocalization)
    else if admission.capabilityTags != [] && exists tag ::
      tag in task.capabilityTags && tag !in admission.capabilityTags
    then Some(MissingCapabilities)
    else None
  }

  /** The first active task, not ignored, that the test hits: each policy rule returns at it. */
  function FirstHit(active: seq<ActiveTask>, ignored: set<string>, test: ActiveTask -> bool): Option<ActiveTask> {
    if active == [] then None
    else if active[0].id !in ignored && test(active[0]) then Some(active[0])
    else FirstHit(active[1..], ignored, test)
  }

  function BlockingIds(active: seq<ActiveTask>, ignored: set<string>): seq<string> {
    if active == [] then []
    else
      var first := if active[0].blocking && active[0].id !in ignored then [active[0].id] else [];
      first + BlockingIds(active[1..], ignored)
  }

  function EvaluateStart(task: TaskDefinition, active: seq<ActiveTask>, admission: AdmissionSnapshot, zone: string,
                         ignored: set<string>, bypassAdmission: bool): Decision
  {
    var error := if bypassAdmission then None else AdmissionError(task, admission);
    if error.Some? then Denied(POLICY_REJECTED, error.value)
    else if !task.reentrant && FirstHit(active, ignored, (a: ActiveTask) => a.name == task.name).Some?
    then Denied(RESOURCE_CONFLICT, AlreadyActive)
    else if BlockingIds(active, ignored) != [] then Denied(RESOURCE_CONFLICT, BlockedBy(BlockingIds(active, ignored)))
    else
      var shared := if task.resources == [] then None
                    else FirstHit(active, ignored, (a: ActiveTask) => Meets(task.resources, a.resources));
      var grouped := if task.group == "" then None
      else FirstHit(active, ignored, (a: ActiveTask) => a.group == task.group);
      var zoned := if !task.zoneLocked || zone == "" then None
                   else FirstHit(active, ignored, (a: ActiveTask) => a.zoneLocked && a.zone == zone);
      if shared.Some? then Denied(RESOURCE_CONFLICT, ResourcesShared(shared.value.id))
      else if grouped.Some? then Denied(RESOURCE_CONFLICT, GroupShared(grouped.value.id))
      else if zoned.Some? then Denied(RESOURCE_CONFLICT, ZoneShared(zoned.value.id))
      else Allowed
  }

  // ---------------------------------------------------------------- what it decides

  ghost predicate Admissible(task: TaskDefinition, admission: AdmissionSnapshot) {
    && (admission.emergencyStop ==> task.allowEmergencyStop)
    && (task.minBattery > 0.0 ==> task.minBattery <= admission.battery)
    && (task.allowedModes != [] ==> admission.mode in task.allowedModes)
    && (task.requiresLocalization ==> admission.localizationOk)
    && (admission.capabilityTags != [] ==> forall tag :: tag in task.capabilityTags ==> tag in admission.capabilityTags)
  }

  /** Two tasks that may run together: the newer one's resources, group and zone are free of
      the older one, which does not block. */
  ghost predicate Compatible(resources: seq<string>, group: string, zoneLocked: bool, zone: string, older: ActiveTask) {
    && !older.blocking
    && !Meets(resources, older.resources)
    && (group != "" ==> older.group != group)
    && (zoneLocked && zone != "" ==> !(older.zoneLocked && older.zone == zone))
  }

  lemma {:induction false} FirstHitFinds(active: seq<ActiveTask>, ignored: set<string>, test: ActiveTask -> bool)
    ensures FirstHit(active, ignored, test).None? <==>
            forall i :: 0 <= i < |active| && active[i].id !in ignored ==> !test(active[i])
    ensures FirstHit(active, ignored, test).Some? ==>
              exists i :: && 0 <= i < |active| && active[i] == FirstHit(active, ignored, test).value
                          && active[i].id !in ignored && test(active[i])
                          && forall j :: 0 <= j < i && active[j].id !in ignored ==> !test(active[j])
  {
    if active != [] {
      var rest := active[1..];
      FirstHitFinds(rest, ignored, test);
      if active[0].id !in ignored && test(active[0]) {
      } else {
        assert forall i :: 0 <= i < |rest| ==> rest[i] == active[i + 1];
        if FirstHit(rest, ignored, test).Some? {
          var i :| && 0 <= i < |rest| && rest[i] == FirstHit(rest, ignored, test).value
                   && rest[i].id !in ignored && test(rest[i])
                   && forall j :: 0 <= j < i && rest[j].id !in ignored ==> !test(rest[j]);
          forall j | 0 <= j < i + 1 && active[j].id !in ignored ensures !test(active[j]) {
            if j > 0 {
              assert rest[j - 1] == active[j];
            }
          }
          assert active[i + 1] == FirstHit(active, ignored, test).value;
        } else {
          forall i | 0 <= i < |active| && active[i].id !in ignored ensures !test(active[i]) {
            if i > 0 {
              assert rest[i - 1] == active[i];
            }
          }
        }
      }
    }
  }

  lemma {:induction false} BlockingIdsFind(active: seq<ActiveTask>, ignored: set<string>)
    ensures BlockingIds(active, ignored) == [] <==>
            forall i :: 0 <= i < |active| && active[i].id !in ignored ==> !active[i].blocking
    ensures forall id :: id in BlockingIds(active, ignored) <==>
              id !in ignored && exists i :: 0 <= i < |active| && active[i].id == id && active[i].blocking
  {
    if active != [] {
      var rest := active[1..];
      BlockingIdsFind(rest, ignored);
      assert active == [active[0]] + rest;
      assert forall i :: 0 <= i < |rest| ==> rest[i] == active[i + 1];
      forall id ensures id in BlockingIds(active, ignored) <==>
                id !in ignored && exists i :: 0 <= i < |active| && active[i].id == id && active[i].blocking
      {
        if i :| 0 <= i < |active| && active[i].id == id && active[i].blocking {
          if i > 0 {
            assert rest[i - 1].id == id;
          }
        }
      }
      if BlockingIds(active, ignored) != [] {
        assert BlockingIds(active, ignored)[0] in BlockingIds(active, ignored);
      } else {
        forall i | 0 <= i < |active| && active[i].id !in ignored ensures !active[i].blocking {
          assert active[i].id !in BlockingIds(active, ignored);
        }
      }
    }
  }

  /** A task starts exactly when it is admissible and compatible with every active task that
      is not ignored; the code says which of the two failed. */
  lemma {:induction false} StartsExactly(task: TaskDefinition, active: seq<ActiveTask>, admission: AdmissionSnapshot,
                                         zone: string, ignored: set<string>, bypassAdmission: bool)
    ensures var d := EvaluateStart(task, active, admission, zone, ignored, bypassAdmission);
            && (d.Denied? && d.code == POLICY_REJECTED <==> !bypassAdmission && !Admissible(task, admission))
            && (d.Denied? ==> d.code == POLICY_REJECTED || d.code == RESOURCE_CONFLICT)
            && (d.Allowed? <==>
                  && (bypassAdmission || Admissible(task, admission))
                  && forall i :: 0 <= i < |active| && active[i].id !in ignored ==>
                       && (task.reentrant || active[i].name != task.name)
                       && Compatible(task.resources, task.group, task.zoneLocked, zone, active[i]))
  {
    AdmissionErrorMeans(task, admission);
    hide AdmissionError, Admissible, FirstHit, BlockingIds;
    FirstHitFinds(active, ignored, (a: ActiveTask) => a.name == task.name);
    FirstHitFinds(active, ignored, (a: ActiveTask) => Meets(task.resources, a.resources));
    FirstHitFinds(active, ignored, (a: ActiveTask) => a.group == task.group);
    FirstHitFinds(active, ignored, (a: ActiveTask) => a.zoneLocked && a.zone == zone);
    BlockingIdsFind(active, ignored);
  }

  /** The reason given is the first requirement, in this order, that is not met. */
  lemma {:induction false} AdmissionErrorMeans(task: TaskDefinition, admission: AdmissionSnapshot)
    ensures AdmissionError(task, admission).None? <==> Admissible(task, admission)
    ensures var stopped := admission.emergencyStop && !task.allowEmergencyStop;
            var low := task.minBattery > 0.0 && admission.battery < task.minBattery;
            var elsewhere := task.allowedModes != [] && admission.mode !in task.allowedModes;
            var lost := task.requiresLocalization && !admission.localizationOk;
            var reason := AdmissionError(task, admission);
            && (reason == Some(EmergencyStop) <==> stopped)
            && (reason == Some(LowBattery) <==> low && !stopped)
            && (reason == Some(WrongMode) <==> elsewhere && !stopped && !low)
            && (reason == Some(NoLocalization) <==> lost && !stopped && !low && !elsewhere)
            && (reason == Some(MissingCapabilities) <==>
                  !stopped && !low && !elsewhere && !lost && !Admissible(task, admission))
  {
  }

  /** A conflict names what it is with: an active task under the same name, the blocking ones,
      or a task not ignored that shares a resource, the group or the zone. */
  lemma {:induction false} ConflictNames(task: TaskDefinition, active: seq<ActiveTask>, admission: AdmissionSnapshot,
                                         zone: string, ignored: set<string>, bypassAdmission: bool)
    requires EvaluateStart(task, active, admission, zone, ignored, bypassAdmission).Denied?
    ensures match EvaluateStart(task, active, admission, zone, ignored, bypassAdmission).reason
            case AlreadyActive =>
              !task.reentrant && exists i ::
                0 <= i < |active| && active[i].id !in ignored && active[i].name == task.name
            case BlockedBy(ids) =>
              ids != [] && forall id :: id in ids <==>
                id !in ignored && exists i :: 0 <= i < |active| && active[i].id == id && active[i].blocking
            case ResourcesShared(id) =>
              id !in ignored
              && exists i :: 0 <= i < |active| && active[i].id == id && Meets(task.resources, active[i].resources)
            case GroupShared(id) =>
              id !in ignored && task.group != ""
              && exists i :: 0 <= i < |active| && active[i].id == id && active[i].group == task.group
            case ZoneShared(id) =>
              id !in ignored && task.zoneLocked && zone != ""
              && exists i :: 0 <= i < |active| && active[i].id == id && active[i].zoneLocked && active[i].zone == zone
            case _ => !bypassAdmission && !Admissible(task, admission)
  {
    AdmissionErrorMeans(task, admission);
    hide AdmissionError, Admissible, FirstHit, BlockingIds;
    FirstHitFinds(active, ignored, (a: ActiveTask) => a.name == task.name);
    FirstHitFinds(active, ignored, (a: ActiveTask) => Meets(task.resources, a.resources));
    FirstHitFinds(active, ignored, (a: ActiveTask) => a.group == task.group);
    FirstHitFinds(active, ignored, (a: ActiveTask) => a.zoneLocked && a.zone == zone);
    BlockingIdsFind(active, ignored);
  }

  // ---------------------------------------------------------------- the node's start decision

  predicate Control(serverType: string) {
    serverType == "system/cancel_task" || serverType == "system/stop"
  }

  /** Same-named tasks of a non-reentrant one: it starts only once each has acknowledged a
      cancel request. */
  ghost predicate Replaceable(task: TaskDefinition, active: seq<ActiveTask>, acknowledges: string -> bool) {
    !task.reentrant ==> forall i :: 0 <= i < |active| && active[i].name == task.name ==> acknowledges(active[i].id)
  }

  ghost predicate MayStart(task: TaskDefinition, active: seq<ActiveTask>, admission: AdmissionSnapshot, zone: string,
                           ignored: set<string>, acknowledges: string -> bool)
  {
    || task.serverType == "system/cancel_task" || task.serverType == "system/stop"
    || (&& Replaceable(task, active, acknowledges)
        && Admissible(task, admission)
        && forall i ::
             0 <= i < |active| && active[i].id !in ignored && (task.reentrant || active[i].name != task.name) ==>
               Compatible(task.resources, task.group, task.zoneLocked, zone, active[i]))
  }

  method StartPolicyDecision(task: TaskDefinition, active: seq<ActiveTask>, admission: AdmissionSnapshot, zone: string,
                             ignored: set<string>, acknowledges: string -> bool)
    returns (d: Decision, acknowledged: set<string>)
    requires forall i, j :: 0 <= i < |active| && 0 <= j < |active| && active[i].id == active[j].id ==> i == j
    ensures d.Allowed? <==> MayStart(task, active, admission, zone, ignored, acknowledges)
    ensures d.Denied? ==>
              d.code == if Replaceable(task, active, acknowledges) && !Admissible(task, admission) then POLICY_REJECTED
                        else RESOURCE_CONFLICT
    ensures forall id :: id in acknowledged ==>
              acknowledges(id) && exists i :: 0 <= i < |active| && active[i].id == id && active[i].name == task.name
    ensures d.Allowed? && !Control(task.serverType) ==>
              forall i :: 0 <= i < |active| && active[i].id !in ignored + acknowledged ==>
                Compatible(task.resources, task.group, task.zoneLocked, zone, active[i])
  {
    hide Compatible, Admissible;
    acknowledged := {};
    if Control(task.serverType) {
      return Allowed, {};
    }
    if !task.reentrant {
      for i := 0 to |active|
        invariant forall id :: id in acknowledged <==>
                    exists j :: 0 <= j < i && active[j].id == id && active[j].name == task.name
        invariant forall j :: 0 <= j < i && active[j].name == task.name ==> acknowledges(active[j].id)
      {
        if active[i].name == task.name {
          if !acknowledges(active[i].id) {
            return Denied(RESOURCE_CONFLICT, AlreadyActive), acknowledged;
          }
          acknowledged := acknowledged + {active[i].id};
        }
      }
    }
    StartsExactly(task, active, admission, zone, ignored + acknowledged, false);
    d := EvaluateStart(task, active, admission, zone, ignored + acknowledged, false);
  }

  // ---------------------------------------------------------------- tasks active together

  /** What a task was allowed to overlook when it was admitted. */
  datatype Grant = Grant(ignored: set<string>, acknowledged: set<string>)

  /** The registry, with the order of admission. */
  datatype Registry = Registry(tasks: map<string, ActiveTask>, born: map<string, nat>, grants: map<string, Grant>,
                               clock: nat)

  ghost predicate Exempt(r: Registry, older: string, newer: string)
    requires newer in r.grants
  {
    older in r.grants[newer].ignored || older in r.grants[newer].acknowledged
  }

  ghost predicate PairFits(r: Registry, older: string, newer: string)
    requires older in r.tasks && newer in r.tasks && newer in r.grants
  {
    var b := r.tasks[newer];
    && (!Control(b.serverType) && !Exempt(r, older, newer) ==>
        Compatible(b.resources, b.group, b.zoneLocked, b.zone, r.tasks[older]))
    && (older in r.grants[newer].acknowledged ==> r.tasks[older].name == b.name)
  }

  /** A newer task that is no control task is compatible with every older one, except its
      mission's owner and same-named tasks that acknowledged their cancellation. */
  ghost predicate Sound(r: Registry) {
    Indexed(r) && forall a, b :: a in r.tasks && b in r.tasks && r.born[a] < r.born[b] ==> PairFits(r, a, b)
  }

  ghost predicate Indexed(r: Registry) {
    && r.born.Keys == r.tasks.Keys && r.grants.Keys == r.tasks.Keys
    && (forall id :: id in r.tasks ==> r.tasks[id].id == id && r.born[id] < r.clock)
    && (forall a, b :: a in r.tasks && b in r.tasks && a != b ==> r.born[a] != r.born[b])
  }

  /** Two active tasks of which neither was admitted past the other share nothing. */
  lemma {:induction false} ActiveTogether(r: Registry, a: string, b: string)
    requires Sound(r) && a in r.tasks && b in r.tasks && a != b
    requires !Control(r.tasks[a].serverType) && !Control(r.tasks[b].serverType) && !Exempt(r, a, b) && !Exempt(r, b, a)
    ensures !Meets(r.tasks[a].resources, r.tasks[b].resources)
    ensures r.tasks[a].group != "" ==> r.tasks[a].group != r.tasks[b].group
    ensures r.tasks[a].zoneLocked && r.tasks[b].zoneLocked && r.tasks[a].zone != "" ==>
              r.tasks[a].zone != r.tasks[b].zone
    ensures if r.born[a] < r.born[b] then !r.tasks[a].blocking else !r.tasks[b].blocking
  {
    if r.born[a] < r.born[b] {
      assert PairFits(r, a, b);
    } else {
      assert PairFits(r, b, a);
    }
  }

  function Admit(r: Registry, entry: ActiveTask, grant: Grant): Registry {
    Registry(r.tasks[entry.id := entry], r.born[entry.id := r.clock], r.grants[entry.id := grant], r.clock + 1)
  }

  function Drop(r: Registry, id: string): Registry {
    r.(tasks := r.tasks - {id}, born := r.born - {id}, grants := r.grants - {id})
  }

  function Restatus(r: Registry, id: string, status: Status): Registry
    requires id in r.tasks
  {
    r.(tasks := r.tasks[id := r.tasks[id].(status := status)])
  }

  lemma {:induction false} AdmitKeepsIndex(r: Registry, entry: ActiveTask, grant: Grant)
    requires Indexed(r) && entry.id !in r.tasks
    ensures Indexed(Admit(r, entry, grant))
  {
  }

  lemma {:induction false} DropKeepsIndex(r: Registry, id: string)
    requires Indexed(r)
    ensures Indexed(Drop(r, id))
  {
  }

  /** The entry is compatible with every active task its grant does not name, and those it
      names as acknowledged share its name. */
  ghost predicate FitsIn(r: Registry, entry: ActiveTask, grant: Grant) {
    && (!Control(entry.serverType) ==> forall a :: a in r.tasks && a !in grant.ignored + grant.acknowledged ==>
          Compatible(entry.resources, entry.group, entry.zoneLocked, entry.zone, r.tasks[a]))
    && forall a :: a in grant.acknowledged && a in r.tasks ==> r.tasks[a].name == entry.name
  }

  /** A new entry leaves the registry sound exactly when it was, and the entry fits in. */
  lemma {:induction false} AdmitKeepsSound(r: Registry, entry: ActiveTask, grant: Grant)
    requires Indexed(r) && entry.id !in r.tasks
    ensures Sound(Admit(r, entry, grant)) <==> Sound(r) && FitsIn(r, entry, grant)
  {
    hide Indexed, FitsIn, PairFits;
    AdmitKeepsIndex(r, entry, grant);
    AdmitPairs(r, entry, grant);
  }

  lemma {:induction false} AdmitPairs(r: Registry, entry: ActiveTask, grant: Grant)
    requires Indexed(r) && entry.id !in r.tasks
    ensures var t := Admit(r, entry, grant);
            && (forall a, b :: a in r.tasks && b in r.tasks && r.born[a] < r.born[b] ==>
                (PairFits(t, a, b) <==> PairFits(r, a, b)))
            && (FitsIn(r, entry, grant) <==> forall a :: a in r.tasks ==> PairFits(t, a, entry.id))
            && (forall a :: a in r.tasks ==> a != entry.id && t.born[a] == r.born[a] && t.born[a] < t.born[entry.id])
  {
    hide Compatible, Control;
  }

  /** Removing a task keeps what holds of the others. */
  lemma {:induction false} DropKeepsSound(r: Registry, id: string)
    requires Sound(r)
    ensures Sound(Drop(r, id))
  {
    hide Compatible, Control;
    var t := Drop(r, id);
    DropKeepsIndex(r, id);
    forall a, b | a in t.tasks && b in t.tasks && t.born[a] < t.born[b] ensures PairFits(t, a, b) {
      assert PairFits(r, a, b);
    }
  }

  /** So does pausing or resuming one. */
  lemma {:induction false} RestatusKeepsSound(r: Registry, id: string, status: Status)
    requires Sound(r) && id in r.tasks
    ensures Sound(Restatus(r, id, status))
  {
    hide Compatible, Control, Indexed;
    var t := Restatus(r, id, status);
    RestatusIsIndexed(r, id, status);
    forall a, b | a in t.tasks && b in t.tasks && t.born[a] < t.born[b] ensures PairFits(t, a, b) {
      assert PairFits(r, a, b);
      StatusIsNoMatter(r.tasks[b], r.tasks[a], status);
    }
  }

  lemma {:induction false} RestatusIsIndexed(r: Registry, id: string, status: Status)
    requires Indexed(r) && id in r.tasks
    ensures Indexed(Restatus(r, id, status)) && r.born.Keys == r.tasks.Keys == r.grants.Keys
    ensures Restatus(r, id, status).tasks.Keys == r.tasks.Keys
  {
    assert Restatus(r, id, status).tasks.Keys == r.tasks.Keys;
  }

  lemma {:induction false} StatusIsNoMatter(newer: ActiveTask, older: ActiveTask, status: Status)
    ensures Compatible(newer.resources, newer.group, newer.zoneLocked, newer.zone, older.(status := status))
       <==> Compatible(newer.resources, newer.group, newer.zoneLocked, newer.zone, older)
  {
  }

  lemma {:induction false} IdsMatch(r: Registry)
    requires Indexed(r)
    ensures forall id :: id in r.tasks ==> r.tasks[id].id == id
  {
  }

  /** A listing of the tasks with those ids: each once, oldest creation time first. */
  ghost predicate Lists(tasks: map<string, ActiveTask>, listed: seq<ActiveTask>, ids: set<string>) {
    && (forall i :: 0 <= i < |listed| ==>
        listed[i].id in ids && listed[i].id in tasks && tasks[listed[i].id] == listed[i])
    && (forall id :: id in ids && id in tasks ==> tasks[id] in listed)
    && (forall i, j :: 0 <= i < j < |listed| ==>
        listed[i].id != listed[j].id && listed[i].createdAt <= listed[j].createdAt)
  }

  /** Nothing still to list is older than what is listed. */
  ghost predicate Older(tasks: map<string, ActiveTask>, listed: seq<ActiveTask>, rest: set<string>)
    requires rest <= tasks.Keys
  {
    forall t, id :: t in listed && id in rest ==> t.createdAt <= tasks[id].createdAt
  }

  lemma {:induction false} NothingListed(tasks: map<string, ActiveTask>)
    ensures Lists(tasks, [], {}) && Older(tasks, [], tasks.Keys)
  {
  }

  lemma {:induction false} ListNext(tasks: map<string, ActiveTask>, listed: seq<ActiveTask>, rest: set<string>,
                                    id: string)
    requires rest <= tasks.Keys && id in rest && tasks[id].id == id
    requires Lists(tasks, listed, tasks.Keys - rest) && Older(tasks, listed, rest)
    requires forall other :: other in rest ==> tasks[id].createdAt <= tasks[other].createdAt
    ensures Lists(tasks, listed + [tasks[id]], tasks.Keys - (rest - {id}))
    ensures Older(tasks, listed + [tasks[id]], rest - {id})
  {
    var all := listed + [tasks[id]];
    forall i, j | 0 <= i < j < |all| ensures all[i].id != all[j].id && all[i].createdAt <= all[j].createdAt {
      if j == |listed| {
        assert listed[i] in listed;
      }
    }
    forall other | other in tasks.Keys - (rest - {id}) ensures tasks[other] in all {
      if other != id {
        assert tasks[other] in listed;
      }
    }
  }

  /** MayStart, over the registry instead of a listing of it. */
  ghost predicate MayReplace(task: TaskDefinition, tasks: map<string, ActiveTask>, acknowledges: string -> bool) {
    !task.reentrant ==> forall id :: id in tasks && tasks[id].name == task.name ==> acknowledges(id)
  }

  ghost predicate MayJoin(task: TaskDefinition, tasks: map<string, ActiveTask>, admission: AdmissionSnapshot,
                          zone: string, ignored: set<string>, acknowledges: string -> bool)
  {
    || task.serverType == "system/cancel_task" || task.serverType == "system/stop"
    || (&& MayReplace(task, tasks, acknowledges)
        && Admissible(task, admission)
        && forall id :: id in tasks && id !in ignored && (task.reentrant || tasks[id].name != task.name) ==>
             Compatible(task.resources, task.group, task.zoneLocked, zone, tasks[id]))
  }

  lemma {:induction false} JoinListed(task: TaskDefinition, tasks: map<string, ActiveTask>, listed: seq<ActiveTask>,
                                      admission: AdmissionSnapshot, zone: string, ignored: set<string>,
                                      acknowledges: string -> bool)
    requires Lists(tasks, listed, tasks.Keys) && forall id :: id in tasks ==> tasks[id].id == id
    ensures MayStart(task, listed, admission, zone, ignored, acknowledges)
       <==> MayJoin(task, tasks, admission, zone, ignored, acknowledges)
    ensures Replaceable(task, listed, acknowledges) <==> MayReplace(task, tasks, acknowledges)
  {
    hide Compatible, Admissible;
    assert forall id :: id in tasks ==> tasks[id] in listed;
  }

  class ActiveTaskRegistry {
    var tasks: map<string, ActiveTask>
    ghost var born: map<string, nat>
    ghost var grants: map<string, Grant>
    ghost var clock: nat

    ghost function State(): Registry
      reads this
    {
      Registry(tasks, born, grants, clock)
    }

    ghost predicate Valid()
      reads this
    {
      Indexed(State())
    }

    constructor ()
      ensures Valid() && Sound(State()) && tasks == map[]
    {
      tasks, born, grants, clock := map[], map[], map[], 0;
    }

    /** False stands for DuplicateActiveTaskError. */
    method Add(entry: ActiveTask, ghost grant: Grant) returns (ok: bool)
      requires Valid()
      modifies this
      ensures Valid() && ok == (entry.id !in old(tasks))
      ensures State() == if ok then Admit(old(State()), entry, grant) else old(State())
      ensures tasks == if ok then old(tasks)[entry.id := entry] else old(tasks)
      ensures ok ==> (Sound(State()) <==> Sound(old(State())) && FitsIn(old(State()), entry, grant))
    {
      hide Sound, FitsIn, Indexed;
      if entry.id in tasks {
        return false;
      }
      AdmitKeepsIndex(State(), entry, grant);
      AdmitKeepsSound(State(), entry, grant);
      tasks := tasks[entry.id := entry];
      born, grants, clock := born[entry.id := clock], grants[entry.id := grant], clock + 1;
      ok := true;
    }

    method Remove(id: string) returns (removed: Option<ActiveTask>)
      requires Valid()
      modifies this
      ensures Valid() && State() == Drop(old(State()), id) && tasks == old(tasks) - {id}
      ensures Sound(old(State())) ==> Sound(State())
      ensures removed == if id in old(tasks) then Some(old(tasks)[id]) else None
    {
      hide Sound, Indexed;
      DropKeepsIndex(State(), id);
      if Sound(State()) {
        DropKeepsSound(State(), id);
      }
      removed := Get(id);
      tasks := tasks - {id};
      born, grants := born - {id}, grants - {id};
    }

    method Get(id: string) returns (found: Option<ActiveTask>)
      ensures found == if id in tasks then Some(tasks[id]) else None
    {
      found := if id in tasks then Some(tasks[id]) else None;
    }

    /** Pause and resume take the entry out and put its copy back under a new status. */
    method SetStatus(id: string, status: Status) returns (updated: Option<ActiveTask>)
      requires Valid()
      modifies this
      ensures Valid() && (Sound(old(State())) ==> Sound(State()))
      ensures updated == if id in old(tasks) then Some(old(tasks)[id].(status := status)) else None
      ensures tasks == if id in old(tasks) then old(tasks)[id := old(tasks)[id].(status := status)] else old(tasks)
      ensures State() == if id in old(tasks) then Restatus(old(State()), id, status) else old(State())
    {
      hide Sound, Indexed;
      updated := Get(id);
      if updated.Some? {
        RestatusIsIndexed(State(), id, status);
        IdsMatch(State());
        if Sound(State()) {
          RestatusKeepsSound(State(), id, status);
        }
        var entry := updated.value.(status := status);
        ghost var before := tasks;
        tasks := tasks - {id};
        tasks := tasks[id := entry];
        assert tasks == before[id := entry];
        updated := Some(entry);
      }
    }

    /** Every active task once, oldest creation time first. */
    method List() returns (listed: seq<ActiveTask>)
      requires Valid()
      ensures Lists(tasks, listed, tasks.Keys)
    {
      hide Lists, Older, Indexed;
      IdsMatch(State());
      listed := [];
      var rest := tasks.Keys;
      NothingListed(tasks);
      assert tasks.Keys - rest == {};
      while rest != {}
        invariant rest <= tasks.Keys
        invariant Lists(tasks, listed, tasks.Keys - rest) && Older(tasks, listed, rest)
        decreases |rest|
      {
        var oldest := Oldest(rest);
        ListNext(tasks, listed, rest, oldest);
        rest := rest - {oldest};
        listed := listed + [tasks[oldest]];
      }
      assert tasks.Keys - rest == tasks.Keys;
    }

    method Oldest(ids: set<string>) returns (oldest: string)
      requires ids != {} && ids <= tasks.Keys
      ensures oldest in ids && forall id :: id in ids ==> tasks[oldest].createdAt <= tasks[id].createdAt
    {
      oldest :| oldest in ids;
      var rest := ids - {oldest};
      while rest != {}
        invariant rest <= ids && oldest in ids
        invariant forall id :: id in ids && id !in rest ==> tasks[oldest].createdAt <= tasks[id].createdAt
        decreases |rest|
      {
        var id :| id in rest;
        rest := rest - {id};
        if tasks[id].createdAt < tasks[oldest].createdAt {
          oldest := id;
        }
      }
    }

    /** Decision and admission in one step, so no task enters past one it was not compared
        with. */
    method TryStart(task: TaskDefinition, entry: ActiveTask, admission: AdmissionSnapshot, ignored: set<string>,
                    acknowledges: string -> bool)
      returns (d: Decision, duplicate: bool)
      requires Valid()
      requires entry.name == task.name && entry.serverType == task.serverType && entry.resources == task.resources
            && entry.group == task.group && entry.zoneLocked == task.zoneLocked && entry.blocking == task.blocking
      modifies this
      ensures Valid() && (Sound(old(State())) ==> Sound(State()))
      ensures if d.Allowed? && !duplicate then tasks == old(tasks)[entry.id := entry] && entry.id !in old(tasks)
              else State() == old(State())
      ensures duplicate <==> d.Allowed? && entry.id in old(tasks)
      ensures d.Denied? ==>
                d.code == if MayReplace(task, old(tasks), acknowledges) && !Admissible(task, admission)
                then POLICY_REJECTED
                          else RESOURCE_CONFLICT
      ensures d.Allowed? <==> MayJoin(task, old(tasks), admission, entry.zone, ignored, acknowledges)
    {
      hide Compatible, Admissible, PairFits;
      var active := List();
      JoinListed(task, tasks, active, admission, entry.zone, ignored, acknowledges);
      var acknowledged;
      d, acknowledged := StartPolicyDecision(task, active, admission, entry.zone, ignored, acknowledges);
      duplicate := false;
      if d.Allowed? {
        var ok := Add(entry, Grant(ignored, acknowledged));
        duplicate := !ok;
      }
    }

    method Matching(ids: set<string>, source: string, correlationId: string) returns (found: seq<ActiveTask>)
      requires Valid()
      ensures Lists(tasks, found, set id | && id in tasks && (ids == {} || tasks[id].id in ids)
                                           && (source == "" || tasks[id].source == source)
                                           && (correlationId == "" || tasks[id].correlationId == correlationId))
    {
      hide Indexed, Matches, Lists, Picks;
      IdsMatch(State());
      var listed := List();
      found := [];
      NothingPicked(ids, source, correlationId);
      assert listed[..0] == [];
      for i := 0 to |listed|
        invariant Picks(listed[..i], found, ids, source, correlationId)
      {
        assert listed[..i + 1] == listed[..i] + [listed[i]];
        PicksNext(listed[..i], listed[i], found, ids, source, correlationId);
        if Matches(listed[i], ids, source, correlationId) {
          found := found + [listed[i]];
        }
      }
      assert listed[..|listed|] == listed;
      PicksList(tasks, listed, found, ids, source, correlationId);
      MatchingIds(tasks, ids, source, correlationId);
    }
  }

  lemma {:induction false} NothingPicked(ids: set<string>, source: string, correlationId: string)
    ensures Picks([], [], ids, source, correlationId)
  {
  }

  lemma {:induction false} MatchingIds(tasks: map<string, ActiveTask>, ids: set<string>, source: string,
                                       correlationId: string)
    ensures (set id | id in tasks && Matches(tasks[id], ids, source, correlationId))
         == (set id | && id in tasks && (ids == {} || tasks[id].id in ids)
                      && (source == "" || tasks[id].source == source)
                      && (correlationId == "" || tasks[id].correlationId == correlationId))
  {
  }

  predicate Matches(t: ActiveTask, ids: set<string>, source: string, correlationId: string) {
    && (ids != {} ==> t.id in ids) && (source != "" ==> t.source == source)
    && (correlationId != "" ==> t.correlationId == correlationId)
  }

  /** found is what matches in listed, in the order of listed. */
  ghost predicate Picks(listed: seq<ActiveTask>, found: seq<ActiveTask>, ids: set<string>, source: string,
                        correlationId: string) {
    if listed == [] then found == []
    else
      var last := listed[|listed| - 1];
      if Matches(last, ids, source, correlationId) then
        found != [] && found[|found| - 1] == last
          && Picks(listed[..|listed| - 1], found[..|found| - 1], ids, source, correlationId)
      else Picks(listed[..|listed| - 1], found, ids, source, correlationId)
  }

  lemma {:induction false} PicksNext(listed: seq<ActiveTask>, t: ActiveTask, found: seq<ActiveTask>, ids: set<string>,
                                     source: string, correlationId: string)
    requires Picks(listed, found, ids, source, correlationId)
    ensures Picks(listed + [t], if Matches(t, ids, source, correlationId) then found + [t]
                  else found, ids, source, correlationId)
  {
    assert (listed + [t])[..|listed|] == listed && (found + [t])[..|found|] == found;
  }

  lemma {:induction false} PicksList(tasks: map<string, ActiveTask>, listed: seq<ActiveTask>, found: seq<ActiveTask>,
                                     ids: set<string>, source: string, correlationId: string)
    requires Lists(tasks, listed, tasks.Keys) && Picks(listed, found, ids, source, correlationId)
    ensures Lists(tasks, found, set id | id in tasks && Matches(tasks[id], ids, source, correlationId))
  {
    hide Picks;
    PicksSorted(listed, found, ids, source, correlationId);
    forall i | 0 <= i < |found|
      ensures found[i].id in tasks && tasks[found[i].id] == found[i] && Matches(found[i], ids, source, correlationId)
    {
      assert found[i] in found && found[i] in listed;
    }
    forall id | id in tasks && Matches(tasks[id], ids, source, correlationId) ensures tasks[id] in found {
      assert tasks[id] in listed;
    }
  }

  lemma {:induction false} PicksSorted(listed: seq<ActiveTask>, found: seq<ActiveTask>, ids: set<string>,
                                       source: string, correlationId: string)
    requires Picks(listed, found, ids, source, correlationId)
    requires forall i, j :: 0 <= i < j < |listed| ==>
               listed[i].id != listed[j].id && listed[i].createdAt <= listed[j].createdAt
    ensures forall t :: t in found <==> t in listed && Matches(t, ids, source, correlationId)
    ensures forall i, j :: 0 <= i < j < |found| ==>
              found[i].id != found[j].id && found[i].createdAt <= found[j].createdAt
    decreases |listed|
  {
    hide Matches;
    if listed != [] {
      var front, last := listed[..|listed| - 1], listed[|listed| - 1];
      assert listed == front + [last];
      if Matches(last, ids, source, correlationId) {
        var before := found[..|found| - 1];
        assert found == before + [last];
        PicksSorted(front, before, ids, source, correlationId);
        forall i | 0 <= i < |before| ensures before[i].id != last.id && before[i].createdAt <= last.createdAt {
          assert before[i] in front;
        }
      } else {
        PicksSorted(front, found, ids, source, correlationId);
      }
    }
  }
}
