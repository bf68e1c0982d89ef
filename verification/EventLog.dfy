/** The bounded event cache against the durable event table. */
module EventLog {
  import opened Common

  /** The fields an event listing can filter on. */
  datatype Field =
    | TaskId | TaskName | EventType | EventStatus | Source | CorrelationId
    | RobotId | FleetId | SiteId | ZoneId | OperatorId | TenantId | TraceId | IdempotencyKey

  const FIELDS: seq<Field> :=
    [TaskId, TaskName, EventType, EventStatus, Source, CorrelationId,
     RobotId, FleetId, SiteId, ZoneId, OperatorId, TenantId, TraceId, IdempotencyKey]

  datatype Event = Event(id: string, fields: Field -> string)

  /** An empty value asks for nothing; a limit of zero, or below, is no limit. */
  datatype Request = Request(wanted: Field -> string, limit: int)

  predicate Matches(e: Event, r: Request) {
    forall f: Field :: r.wanted(f) == "" || e.fields(f) == r.wanted(f)
  }

  /** Every field that can be asked for is among those the table's conditions go through. */
  lemma {:induction false} AllFieldsListed(f: Field)
    ensures f in FIELDS
  {
    match f
    case TaskId => assert FIELDS[0] == f;
    case TaskName => assert FIELDS[1] == f;
    case EventType => assert FIELDS[2] == f;
    case EventStatus => assert FIELDS[3] == f;
    case Source => assert FIELDS[4] == f;
    case CorrelationId => assert FIELDS[5] == f;
    case RobotId => assert FIELDS[6] == f;
    case FleetId => assert FIELDS[7] == f;
    case SiteId => assert FIELDS[8] == f;
    case ZoneId => assert FIELDS[9] == f;
    case OperatorId => assert FIELDS[10] == f;
    case TenantId => assert FIELDS[11] == f;
    case TraceId => assert FIELDS[12] == f;
    case IdempotencyKey => assert FIELDS[13] == f;
  }

  // ---------------------------------------------------------------- the filter as SQL conditions

  datatype Condition = Condition(field: Field, value: string)

  function Conditions(fields: seq<Field>, r: Request): seq<Condition> {
    if fields == [] then []
    else
      var first := if r.wanted(fields[0]) != "" then [Condition(fields[0], r.wanted(fields[0]))] else [];
      first + Conditions(fields[1..], r)
  }

  predicate Satisfies(e: Event, conditions: seq<Condition>) {
    forall i :: 0 <= i < |conditions| ==> e.fields(conditions[i].field) == conditions[i].value
  }

  /** The table's WHERE clause selects what the cache's matching does. */
  lemma {:induction false} ConditionsMatch(e: Event, r: Request)
    ensures Satisfies(e, Conditions(FIELDS, r)) <==> Matches(e, r)
  {
    ConditionsMatchFields(FIELDS, e, r);
    forall f: Field ensures f in FIELDS {
      AllFieldsListed(f);
    }
  }

  lemma {:induction false} ConditionsMatchFields(fields: seq<Field>, e: Event, r: Request)
    ensures Satisfies(e, Conditions(fields, r)) <==>
            forall f: Field :: f in fields ==> r.wanted(f) == "" || e.fields(f) == r.wanted(f)
  {
    if fields != [] {
      var rest := Conditions(fields[1..], r);
      ConditionsMatchFields(fields[1..], e, r);
      assert fields == [fields[0]] + fields[1..];
      if r.wanted(fields[0]) != "" {
        var all := [Condition(fields[0], r.wanted(fields[0]))] + rest;
        assert Conditions(fields, r) == all;
        if Satisfies(e, all) {
          assert all[0].field == fields[0];
          forall i | 0 <= i < |rest| ensures e.fields(rest[i].field) == rest[i].value {
            assert all[i + 1] == rest[i];
          }
        } else {
          var i :| 0 <= i < |all| && e.fields(all[i].field) != all[i].value;
          assert i > 0 ==> all[i] == rest[i - 1];
        }
      } else {
        assert Conditions(fields, r) == rest;
      }
    }
  }

  // ---------------------------------------------------------------- listings

  /** The matching events, newest first. */
  ghost function Newest(events: seq<Event>, r: Request): seq<Event> {
    if events == [] then []
    else
      var last := events[|events| - 1];
      (if Matches(last, r) then [last] else []) + Newest(events[..|events| - 1], r)
  }

  function Cut(events: seq<Event>, limit: int): seq<Event> {
    if 0 < limit < |events| then events[..limit] else events
  }

  /** The listing goes down through the positions of the matching events, and misses none. */
  lemma {:induction false} NewestAre(events: seq<Event>, r: Request)
    ensures exists at: seq<nat> :: Descends(events, r, at, Newest(events, r))
  {
    hide Matches, Descends;
    if events == [] {
      NothingDescends(r);
      assert Descends(events, r, [], Newest(events, r));
    } else {
      var n := |events| - 1;
      var front := events[..n];
      NewestAre(front, r);
      var at: seq<nat> :| Descends(front, r, at, Newest(front, r));
      if Matches(events[n], r) {
        DescendsOn(events, r, at, Newest(front, r));
        assert Newest(events, r) == [events[n]] + Newest(front, r);
      } else {
        DescendsStill(events, r, at, Newest(front, r));
        assert Newest(events, r) == [] + Newest(front, r) == Newest(front, r);
      }
    }
  }

  lemma {:induction false} NothingDescends(r: Request)
    ensures Descends([], r, [], [])
  {
  }

  ghost predicate Descends(events: seq<Event>, r: Request, at: seq<nat>, listed: seq<Event>) {
    && |at| == |listed|
    && (forall p: nat :: p in at <==> p < |events| && Matches(events[p], r))
    && (forall i, j :: 0 <= i < j < |at| ==> at[i] > at[j])
    && (forall i :: 0 <= i < |at| ==> at[i] < |events| && listed[i] == events[at[i]])
  }

  /** The same positions do for the longer log when its last event does not match. */
  lemma {:induction false} DescendsStill(events: seq<Event>, r: Request, at: seq<nat>, listed: seq<Event>)
    requires events != [] && Descends(events[..|events| - 1], r, at, listed) && !Matches(events[|events| - 1], r)
    ensures Descends(events, r, at, listed)
  {
    hide Matches;
    var front := events[..|events| - 1];
    forall i | 0 <= i < |at| ensures at[i] < |front| && listed[i] == events[at[i]] {
      assert listed[i] == front[at[i]];
    }
    forall p: nat ensures p in at <==> p < |events| && Matches(events[p], r) {
      assert p in at <==> p < |front| && Matches(front[p], r);
    }
  }

  /** With the last event's position in front when it does. */
  lemma {:induction false} DescendsOn(events: seq<Event>, r: Request, at: seq<nat>, listed: seq<Event>)
    requires events != [] && Descends(events[..|events| - 1], r, at, listed) && Matches(events[|events| - 1], r)
    ensures Descends(events, r, [|events| - 1] + at, [events[|events| - 1]] + listed)
  {
    hide Matches, Descends;
    var n := |events| - 1;
    DescendParts(events[..n], r, at, listed);
    PlacesOn(events, r, at);
    forall i | 0 <= i < |at| ensures at[i] < n && listed[i] == events[at[i]] {
      assert at[i] < |events[..n]| && listed[i] == events[..n][at[i]];
    }
    DescendsBy(events, r, [n] + at, [events[n]] + listed);
  }

  lemma {:induction false} DescendParts(events: seq<Event>, r: Request, at: seq<nat>, listed: seq<Event>)
    requires Descends(events, r, at, listed)
    ensures |at| == |listed| && (forall p: nat :: p in at <==> p < |events| && Matches(events[p], r))
    ensures (forall i, j :: 0 <= i < j < |at| ==> at[i] > at[j])
    ensures (forall i :: 0 <= i < |at| ==> at[i] < |events| && listed[i] == events[at[i]])
  {
    hide Matches;
  }

  lemma {:induction false} DescendsBy(events: seq<Event>, r: Request, at: seq<nat>, listed: seq<Event>)
    requires |at| == |listed| && (forall p: nat :: p in at <==> p < |events| && Matches(events[p], r))
    requires (forall i, j :: 0 <= i < j < |at| ==> at[i] > at[j])
    requires (forall i :: 0 <= i < |at| ==> at[i] < |events| && listed[i] == events[at[i]])
    ensures Descends(events, r, at, listed)
  {
    hide Matches;
  }

  lemma {:induction false} PlacesOn(events: seq<Event>, r: Request, at: seq<nat>)
    requires events != [] && Matches(events[|events| - 1], r)
    requires forall p: nat :: p in at <==> p < |events[..|events| - 1]| && Matches(events[..|events| - 1][p], r)
    ensures forall p: nat :: p in [|events| - 1] + at <==> p < |events| && Matches(events[p], r)
  {
    hide Matches;
    var n := |events| - 1;
    forall p: nat ensures p in [n] + at <==> p < |events| && Matches(events[p], r) {
      assert p in at <==> p < |events[..n]| && Matches(events[..n][p], r);
      assert p in [n] + at <==> p == n || p in at;
    }
  }

  /** At most that many are kept, from the front; none is cut when there is no limit. */
  lemma {:induction false} CutKeeps(events: seq<Event>, limit: int)
    ensures Cut(events, limit) <= events
    ensures |Cut(events, limit)| == if limit > 0 then Min(limit, |events|) else |events|
  {
  }

  lemma {:induction false} NewestOfConcat(a: seq<Event>, b: seq<Event>, r: Request)
    ensures Newest(a + b, r) == Newest(b, r) + Newest(a, r)
  {
    hide Matches;
    if b == [] {
      assert a + b == a;
    } else {
      NewestOfConcat(a, b[..|b| - 1], r);
      assert (a + b)[..|a + b| - 1] == a + b[..|b| - 1];
    }
  }

  lemma {:induction false} NewestStep(events: seq<Event>, i: nat, r: Request)
    requires i < |events|
    ensures Newest(events[..i + 1], r) == (if Matches(events[i], r) then [events[i]] else []) + Newest(events[..i], r)
  {
    hide Matches;
    assert events[..i + 1][..i] == events[..i];
  }

  lemma {:induction false} NoneNewest(events: seq<Event>, r: Request)
    ensures Newest(events[..0], r) == []
  {
  }

  lemma {:induction false} NewestIsEmpty(events: seq<Event>, r: Request)
    ensures Newest(events, r) == [] <==> forall i :: 0 <= i < |events| ==> !Matches(events[i], r)
  {
    hide Matches;
    if events != [] {
      var front := events[..|events| - 1];
      NewestIsEmpty(front, r);
      assert forall i :: 0 <= i < |front| ==> front[i] == events[i];
    }
  }

  /** What the cache lists is where the table's listing starts. The two are equal exactly when
      the limit is filled from the cache or no evicted event matches. */
  lemma {:induction false} CacheListsPrefix(evicted: seq<Event>, cached: seq<Event>, r: Request)
    ensures Cut(Newest(cached, r), r.limit) <= Cut(Newest(evicted + cached, r), r.limit)
    ensures Cut(Newest(cached, r), r.limit) == Cut(Newest(evicted + cached, r), r.limit) <==>
            || (r.limit > 0 && |Newest(cached, r)| >= r.limit)
            || (forall i :: 0 <= i < |evicted| ==> !Matches(evicted[i], r))
  {
    hide Matches;
    NewestOfConcat(evicted, cached, r);
    NewestIsEmpty(evicted, r);
  }

  // ---------------------------------------------------------------- the log

  class EventStore {
    const limit: nat
    /** The OrderedDict, oldest first, and the table in sequence order. */
    var cached: seq<Event>
    var table: seq<Event>

    /** The cache is the newest part of the table. */
    ghost predicate Valid()
      reads this
    {
      |cached| == Min(limit, |table|) && cached == table[|table| - |cached|..]
    }

    constructor (limit: int)
      ensures Valid() && table == [] && this.limit == Max(0, limit)
    {
      this.limit := Max(0, limit);
      cached, table := [], [];
    }

    /** Every event has a fresh id, so none is moved or overwritten. */
    method SetEventRecord(e: Event)
      requires Valid()
      modifies this
      ensures Valid() && table == old(table) + [e]
    {
      table := table + [e];
      if limit == 0 {
        return;
      }
      cached := cached + [e];
      while |cached| > limit
        invariant table == old(table) + [e]
        invariant Min(limit, |table|) <= |cached| <= |table| && cached == table[|table| - |cached|..]
      {
        cached := cached[1..];
      }
    }

    method ListCached(r: Request) returns (events: seq<Event>)
      requires Valid()
      ensures events == Cut(Newest(cached, r), r.limit)
      ensures events <= Cut(Newest(table, r), r.limit)
      ensures |table| <= limit ==> events == Cut(Newest(table, r), r.limit)
    {
      hide Matches, Newest;
      events := [];
      var i := |cached|;
      assert cached[..|cached|] == cached;
      while i > 0
        invariant 0 <= i <= |cached|
        invariant Newest(cached, r) == events + Newest(cached[..i], r)
      {
        i := i - 1;
        NewestStep(cached, i, r);
        if Matches(cached[i], r) {
          events := events + [cached[i]];
        }
      }
      NoneNewest(cached, r);
      if 0 < r.limit {
        events := if r.limit < |events| then events[..r.limit] else events;
      }
      ghost var evicted := table[..|table| - |cached|];
      assert table == evicted + cached;
      CacheListsPrefix(evicted, cached, r);
    }

    method ListStored(r: Request) returns (events: seq<Event>)
      ensures events == Cut(Newest(table, r), r.limit)
    {
      hide Matches, Satisfies, Conditions, Newest;
      NoneNewest(table, r);
      var conditions := Conditions(FIELDS, r);
      events := [];
      var i := |table|;
      assert table[..|table|] == table;
      while i > 0 && (r.limit <= 0 || |events| < r.limit)
        invariant 0 <= i <= |table|
        invariant Newest(table, r) == events + Newest(table[..i], r)
        invariant r.limit > 0 ==> |events| <= r.limit
      {
        i := i - 1;
        NewestStep(table, i, r);
        ConditionsMatch(table[i], r);
        if Satisfies(table[i], conditions) {
          events := events + [table[i]];
        }
      }
    }
  }
}
