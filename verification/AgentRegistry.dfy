/**
 Agents with heartbeats and mission leases guarded by tokens. Times are nanoseconds,
 durations seconds; a fresh token stands for each uuid4 call.
 */
module AgentRegistry {
  import opened Common

  datatype Registration = Registration(
    agentId: string, timeoutSec: real, metadata: string, registeredAt: int, lastHeartbeat: int)

  datatype Lease = Lease(
    missionId: string, agentId: string, token: string,
    claimedAt: int, renewedAt: int, expiresAt: int,
    metadata: string, taskId: string, released: bool)

  datatype LeaseStatus = Active | Released | StaleAgent | Expired

  /** issued holds every token ever handed out. */
  datatype Registry = Registry(
    defaultTimeoutSec: real, defaultDurationSec: real,
    agents: map<string, Registration>, leases: map<string, Lease>, issued: set<string>)

  /** metadata is the normalized object, or None when the text is no JSON object. */
  datatype Call =
    | Register(agentId: string, timeoutSec: real, metadata: Option<string>)
    | Claim(agentId: string, missionId: string, durationSec: real, token: string, force: bool,
            metadata: Option<string>, newToken: string)
    | Release(agentId: string, missionId: string, token: string)
    | Verify(agentId: string, missionId: string, token: string)
    | SetTaskId(missionId: string, taskId: string)

  datatype Reply = Registered(registration: Registration) | Granted(lease: Lease) | Nothing | Refused(code: string)

  function SecToNs(sec: real): int {
    if sec >= 0.0 then (sec * 1000000000.0).Floor else -((-sec) * 1000000000.0).Floor
  }

  predicate IsSpace(c: char) {
    c == ' ' || c == '\t' || c == '\n' || c == '\r' || c == '\U{0B}' || c == '\U{0C}'
  }

  function StripLeft(s: string): string {
    if s != "" && IsSpace(s[0]) then StripLeft(s[1..]) else s
  }

  function StripRight(s: string): string {
    if s != "" && IsSpace(s[|s| - 1]) then StripRight(s[..|s| - 1]) else s
  }

  function Strip(s: string): string {
    StripRight(StripLeft(s))
  }

  // ---------------------------------------------------------------- reading

  predicate IsStale(r: Registry, agentId: string, now: int) {
    agentId !in r.agents || now >= r.agents[agentId].lastHeartbeat + SecToNs(r.agents[agentId].timeoutSec)
  }

  function StatusOf(r: Registry, lease: Lease, now: int): LeaseStatus {
    if lease.released then Released
    else if IsStale(r, lease.agentId, now) then StaleAgent
    else if now >= lease.expiresAt then Expired
    else Active
  }

  function VerifyLease(r: Registry, agentId: string, missionId: string, token: string, now: int): Reply {
    if IsStale(r, agentId, now) then Refused(POLICY_REJECTED)
    else if missionId !in r.leases then Refused(POLICY_REJECTED)
    else
      var lease := r.leases[missionId];
      if StatusOf(r, lease, now) != Active then Refused(POLICY_REJECTED)
      else if lease.agentId != agentId then Refused(RESOURCE_CONFLICT)
      else if token == "" then Refused(POLICY_REJECTED)
      else if lease.token != token then Refused(POLICY_REJECTED)
      else Granted(lease)
  }

  // ---------------------------------------------------------------- the transitions

  function RegisterEffect(r: Registry, c: Call, now: int): (Registry, Reply)
    requires c.Register?
  {
    var agentId := Strip(c.agentId);
    if agentId == "" || c.metadata == None then (r, Refused(TASK_DATA_PARSING_FAILED))
    else
      var timeout := if c.timeoutSec > 0.0 then c.timeoutSec else r.defaultTimeoutSec;
      if timeout <= 0.0 then (r, Refused(TASK_DATA_PARSING_FAILED))
      else
        var since := if agentId in r.agents then r.agents[agentId].registeredAt else now;
        var registration := Registration(agentId, timeout, c.metadata.value, since, now);
        (r.(agents := r.agents[agentId := registration]), Registered(registration))
  }

  function ClaimEffect(r: Registry, c: Call, now: int): (Registry, Reply)
    requires c.Claim?
  {
    if IsStale(r, c.agentId, now) then (r, Refused(POLICY_REJECTED))
    else
      var missionId := Strip(c.missionId);
      if missionId == "" || c.metadata == None then (r, Refused(TASK_DATA_PARSING_FAILED))
      else
        var duration := if c.durationSec > 0.0 then c.durationSec else r.defaultDurationSec;
        if duration <= 0.0 then (r, Refused(TASK_DATA_PARSING_FAILED))
        else
          var expires := now + SecToNs(duration);
          var taskId := if missionId in r.leases then r.leases[missionId].taskId else "";
          var taken := Lease(missionId, c.agentId, c.newToken, now, now, expires, c.metadata.value, taskId, false);
          var takeOver := (r.(leases := r.leases[missionId := taken], issued := r.issued + {c.newToken}),
                           Granted(taken));
          if missionId in r.leases && StatusOf(r, r.leases[missionId], now) == Active then
            var existing := r.leases[missionId];
            if existing.agentId != c.agentId then
              if c.force then takeOver else (r, Refused(RESOURCE_CONFLICT))
            else if c.token != "" && c.token != existing.token then (r, Refused(POLICY_REJECTED))
            else
              var renewed := Lease(missionId, c.agentId, existing.token, existing.claimedAt, now, expires,
                                   c.metadata.value, taskId, false);
              (r.(leases := r.leases[missionId := renewed]), Granted(renewed))
          else takeOver
  }

  function ReleaseEffect(r: Registry, c: Call, now: int): (Registry, Reply)
    requires c.Release?
  {
    match VerifyLease(r, c.agentId, c.missionId, c.token, now)
    case Granted(lease) =>
      var released := lease.(released := true, renewedAt := now, expiresAt := now);
      (r.(leases := r.leases[c.missionId := released]), Granted(released))
    case refused => (r, refused)
  }

  function SetTaskIdEffect(r: Registry, c: Call): (Registry, Reply)
    requires c.SetTaskId?
  {
    if c.missionId !in r.leases then (r, Nothing)
    else
      var lease := r.leases[c.missionId].(taskId := c.taskId);
      (r.(leases := r.leases[c.missionId := lease]), Granted(lease))
  }

  function Perform(r: Registry, c: Call, now: int): (Registry, Reply) {
    match c
    case Register(_, _, _) => RegisterEffect(r, c, now)
    case Claim(_, _, _, _, _, _, _) => ClaimEffect(r, c, now)
    case Release(_, _, _) => ReleaseEffect(r, c, now)
    case Verify(agentId, missionId, token) => (r, VerifyLease(r, agentId, missionId, token, now))
    case SetTaskId(_, _) => SetTaskIdEffect(r, c)
  }

  // ---------------------------------------------------------------- one step

  /** uuid4 never repeats and is never empty. */
  ghost predicate FreshToken(r: Registry, c: Call) {
    c.Claim? ==> c.newToken != "" && c.newToken !in r.issued
  }

  ghost predicate Valid(r: Registry) {
    forall m :: m in r.leases ==>
      r.leases[m].missionId == m && r.leases[m].token in r.issued && r.leases[m].token != ""
  }

  /** The token t can never again open mission m. */
  ghost predicate Dead(r: Registry, m: string, t: string, now: int) {
    && t in r.issued && m in r.leases
    && (r.leases[m].token == t ==> r.leases[m].released || now >= r.leases[m].expiresAt)
  }

  /** A verification passes exactly when a live agent presents the token of its own
      unreleased, unexpired lease. */
  lemma {:induction false} VerifyPassesExactly(r: Registry, agentId: string, m: string, t: string, now: int)
    requires Valid(r)
    ensures VerifyLease(r, agentId, m, t, now).Granted? <==>
            && agentId in r.agents
            && now < r.agents[agentId].lastHeartbeat + SecToNs(r.agents[agentId].timeoutSec)
            && exists lease ::
                 && m in r.leases && r.leases[m] == lease
                 && lease.agentId == agentId && lease.token == t && !lease.released && now < lease.expiresAt
  {
  }

  // ---------------------------------------------------------------- what is stored and replied

  /** n is that many seconds in whole nanoseconds, rounded towards zero. */
  ghost predicate WholeNanos(n: int, sec: real) {
    if sec >= 0.0 then n as real <= sec * 1000000000.0 < (n + 1) as real
    else (n - 1) as real < sec * 1000000000.0 <= n as real
  }

  lemma {:induction false} SecToNsIsWhole(sec: real)
    ensures WholeNanos(SecToNs(sec), sec)
  {
    var ns := sec * 1000000000.0;
    assert ns.Floor as real <= ns < (ns.Floor + 1) as real;
    assert (-ns).Floor as real <= -ns < ((-ns).Floor + 1) as real;
    assert (-sec) * 1000000000.0 == -ns;
  }

  predicate Blank(s: string) {
    forall i :: 0 <= i < |s| ==> IsSpace(s[i])
  }

  /** t is s without the white space around it. */
  ghost predicate Trims(s: string, t: string) {
    && (exists k: nat :: k + |t| <= |s| && Blank(s[..k]) && s[k..k + |t|] == t && Blank(s[k + |t|..]))
    && (t != "" ==> !IsSpace(t[0]) && !IsSpace(t[|t| - 1]))
  }

  /** Which leaves the string from its k-th character on. */
  lemma {:induction false} StripLeftTrims(s: string) returns (k: nat)
    ensures k <= |s| && Blank(s[..k]) && s[k..] == StripLeft(s)
    ensures StripLeft(s) != "" ==> !IsSpace(StripLeft(s)[0])
  {
    hide IsSpace;
    if s != "" && IsSpace(s[0]) {
      var rest := s[1..];
      k := StripLeftTrims(rest);
      var front := s[..k + 1];
      forall i | 0 <= i < |front| ensures IsSpace(front[i]) {
        assert i > 0 ==> rest[..k][i - 1] == front[i];
      }
      k := k + 1;
      assert rest[k - 1..] == s[k..];
    } else {
      k := 0;
      assert s[0..] == s;
    }
  }

  lemma {:induction false} StripRightTrims(s: string)
    ensures |StripRight(s)| <= |s| && s[..|StripRight(s)|] == StripRight(s) && Blank(s[|StripRight(s)|..])
    ensures StripRight(s) != "" ==> !IsSpace(StripRight(s)[|StripRight(s)| - 1])
  {
    hide IsSpace;
    if s != "" && IsSpace(s[|s| - 1]) {
      var front := s[..|s| - 1];
      StripRightTrims(front);
      var n := |StripRight(s)|;
      assert s[..n] == front[..n];
      var tail := s[n..];
      forall i | 0 <= i < |tail| ensures IsSpace(tail[i]) {
        assert i < |tail| - 1 ==> front[n..][i] == tail[i];
      }
    }
  }

  lemma {:induction false} StripTrims(s: string)
    ensures Trims(s, Strip(s))
  {
    hide StripLeft, StripRight, IsSpace, Blank;
    var k := StripLeftTrims(s);
    var rest := StripLeft(s);
    StripRightTrims(rest);
    var t := StripRight(rest);
    assert s[k..k + |t|] == rest[..|t|] && s[k + |t|..] == rest[|t|..];
    assert t != "" ==> t[0] == rest[0];
    assert k + |t| <= |s| && Blank(s[..k]) && s[k..k + |t|] == t && Blank(s[k + |t|..]);
  }

  lemma {:induction false} WholeNanosUnique(m: int, n: int, sec: real)
    requires WholeNanos(m, sec) && WholeNanos(n, sec)
    ensures m == n
  {
  }

  /** Less than that many seconds have passed since start. */
  ghost predicate Within(start: int, sec: real, now: int) {
    exists n :: WholeNanos(n, sec) && now < start + n
  }

  lemma {:induction false} WithinIs(start: int, sec: real, now: int)
    ensures Within(start, sec, now) <==> now < start + SecToNs(sec)
  {
    hide SecToNs, WholeNanos;
    SecToNsIsWhole(sec);
    if n :| WholeNanos(n, sec) && now < start + n {
      WholeNanosUnique(n, SecToNs(sec), sec);
    }
  }

  /** Its last heartbeat is less than its timeout ago. */
  ghost predicate IsLive(r: Registry, agentId: string, now: int) {
    agentId in r.agents && Within(r.agents[agentId].lastHeartbeat, r.agents[agentId].timeoutSec, now)
  }

  lemma {:induction false} StaleIsNotLive(r: Registry, agentId: string, now: int)
    ensures IsStale(r, agentId, now) <==> !IsLive(r, agentId, now)
  {
    hide SecToNs, Within;
    if agentId in r.agents {
      WithinIs(r.agents[agentId].lastHeartbeat, r.agents[agentId].timeoutSec, now);
    }
  }

  /** The mission is leased to a live agent, neither released nor expired. */
  ghost predicate IsHeld(r: Registry, m: string, now: int) {
    && m in r.leases && !r.leases[m].released && now < r.leases[m].expiresAt
    && IsLive(r, r.leases[m].agentId, now)
  }

  /** The duration asked for, or the default when that is not positive. */
  function AskedSeconds(r: Registry, c: Call): (sec: real)
    requires c.Claim? || c.Register?
    ensures c.Claim? && c.durationSec > 0.0 ==> sec == c.durationSec
    ensures c.Claim? && c.durationSec <= 0.0 ==> sec == r.defaultDurationSec
    ensures c.Register? && c.timeoutSec > 0.0 ==> sec == c.timeoutSec
    ensures c.Register? && c.timeoutSec <= 0.0 ==> sec == r.defaultTimeoutSec
  {
    if c.Claim? then (if c.durationSec > 0.0 then c.durationSec else r.defaultDurationSec)
    else if c.timeoutSec > 0.0 then c.timeoutSec else r.defaultTimeoutSec
  }

  /** A claim is granted exactly when a live agent asks properly, and the mission is free, its
      own under a token that does not contradict, or taken by force. The lease then runs from
      now for the seconds asked: a new one under the new token, a renewed one under its own. */
  lemma {:induction false} ClaimGrantsExactly(r: Registry, c: Call, now: int)
    requires Valid(r) && c.Claim?
    ensures var m, r', reply := Strip(c.missionId), Perform(r, c, now).0, Perform(r, c, now).1;
            var own := IsHeld(r, m, now) && r.leases[m].agentId == c.agentId;
            && (reply.Granted? <==>
                  && IsLive(r, c.agentId, now) && m != "" && c.metadata.Some? && AskedSeconds(r, c) > 0.0
                  && (own ==> c.token == "" || c.token == r.leases[m].token)
                  && (IsHeld(r, m, now) && !own ==> c.force))
            && (reply.Granted? ==>
                  var lease := reply.lease;
                  && r' == r.(leases := r.leases[m := lease], issued := r.issued + {lease.token})
                  && lease.missionId == m && lease.agentId == c.agentId && lease.metadata == c.metadata.value
                  && !lease.released && lease.renewedAt == now && WholeNanos(lease.expiresAt - now, AskedSeconds(r, c))
                  && lease.taskId == (if m in r.leases then r.leases[m].taskId else "")
                  && lease.token == (if own then r.leases[m].token else c.newToken)
                  && lease.claimedAt == (if own then r.leases[m].claimedAt else now))
  {
    hide SecToNs, Strip, WholeNanos, IsLive;
    var m := Strip(c.missionId);
    StaleIsNotLive(r, c.agentId, now);
    SecToNsIsWhole(AskedSeconds(r, c));
    if m in r.leases {
      StaleIsNotLive(r, r.leases[m].agentId, now);
      assert r.issued + {r.leases[m].token} == r.issued;
    }
  }

  /** Why a claim is refused, in the order of the checks; nothing changes then. */
  lemma {:induction false} ClaimRefusal(r: Registry, c: Call, now: int)
    requires Valid(r) && c.Claim? && !Perform(r, c, now).1.Granted?
    ensures var m := Strip(c.missionId);
            Perform(r, c, now) == (r, Refused(
              if !IsLive(r, c.agentId, now) then POLICY_REJECTED
              else if m == "" || c.metadata.None? || AskedSeconds(r, c) <= 0.0 then TASK_DATA_PARSING_FAILED
              else if r.leases[m].agentId != c.agentId then RESOURCE_CONFLICT
              else POLICY_REJECTED))
  {
    hide SecToNs, Strip, IsLive;
    StaleIsNotLive(r, c.agentId, now);
  }

  /** A heartbeat registers the agent anew from now, for the timeout asked, and keeps its first
      registration. */
  lemma {:induction false} RegisterBeats(r: Registry, c: Call, now: int)
    requires c.Register?
    ensures var id, r', reply := Strip(c.agentId), Perform(r, c, now).0, Perform(r, c, now).1;
            && (reply.Registered? <==> id != "" && c.metadata.Some? && AskedSeconds(r, c) > 0.0)
            && (!reply.Registered? ==> r' == r && reply == Refused(TASK_DATA_PARSING_FAILED))
            && (reply.Registered? ==>
                  var a := reply.registration;
                  && r' == r.(agents := r.agents[id := a])
                  && a.agentId == id && a.lastHeartbeat == now && a.timeoutSec == AskedSeconds(r, c)
                  && a.metadata == c.metadata.value
                  && a.registeredAt == (if id in r.agents then r.agents[id].registeredAt else now))
  {
    hide Strip;
  }

  /** A release passes exactly when a verification does, and ends the lease at once. */
  lemma {:induction false} ReleaseEnds(r: Registry, c: Call, now: int)
    requires Valid(r) && c.Release?
    ensures var m, r', reply := c.missionId, Perform(r, c, now).0, Perform(r, c, now).1;
            && (reply.Granted? <==>
                  && IsLive(r, c.agentId, now) && IsHeld(r, m, now)
                  && r.leases[m].agentId == c.agentId && r.leases[m].token == c.token)
            && (reply.Granted? ==>
                  && r'.leases == r.leases[m := reply.lease] && r'.agents == r.agents && r'.issued == r.issued
                  && reply.lease == r.leases[m].(released := true, renewedAt := now, expiresAt := now))
            && (!reply.Granted? ==> r' == r)
  {
    hide SecToNs, IsLive;
    StaleIsNotLive(r, c.agentId, now);
    if c.missionId in r.leases {
      StaleIsNotLive(r, r.leases[c.missionId].agentId, now);
    }
  }

  /** Setting a task id answers with the lease, or nothing without one, and changes nothing else. */
  lemma {:induction false} SetTaskIdOnly(r: Registry, m: string, taskId: string, now: int)
    ensures var (r', reply) := Perform(r, SetTaskId(m, taskId), now);
            && (reply.Granted? <==> m in r.leases) && (m !in r.leases ==> reply == Nothing && r' == r)
            && (m in r.leases ==>
                  && reply.lease.taskId == taskId && reply.lease == r.leases[m].(taskId := taskId)
                  && r' == r.(leases := r.leases[m := reply.lease]))
  {
  }

  /** Why a verification or a release is refused. */
  lemma {:induction false} VerifyRefusal(r: Registry, agentId: string, m: string, t: string, now: int)
    requires Valid(r) && VerifyLease(r, agentId, m, t, now).Refused?
    ensures VerifyLease(r, agentId, m, t, now).code
         == if IsLive(r, agentId, now) && IsHeld(r, m, now) && r.leases[m].agentId != agentId then RESOURCE_CONFLICT
            else POLICY_REJECTED
  {
    hide SecToNs, IsLive;
    StaleIsNotLive(r, agentId, now);
    if m in r.leases {
      StaleIsNotLive(r, r.leases[m].agentId, now);
    }
  }

  lemma {:induction false} PerformKeepsValid(r: Registry, c: Call, now: int)
    requires Valid(r) && FreshToken(r, c)
    ensures Valid(Perform(r, c, now).0) && r.issued <= Perform(r, c, now).0.issued
    ensures r.leases.Keys <= Perform(r, c, now).0.leases.Keys
  {
  }

  lemma {:induction false} DeadStaysDead(r: Registry, c: Call, m: string, t: string, seen: int, now: int)
    requires Valid(r) && FreshToken(r, c) && Dead(r, m, t, seen) && seen <= now
    ensures Dead(Perform(r, c, now).0, m, t, now)
  {
    hide SecToNs;
  }

  /** Replacing, releasing or outliving a token kills it. */
  lemma {:induction false} WhatKillsAToken(r: Registry, c: Call, m: string, t: string, now: int)
    requires Valid(r) && FreshToken(r, c) && m in r.leases && r.leases[m].token == t
    ensures var r' := Perform(r, c, now).0;
            || r'.leases[m].token != t
            || (c.Release? && c.missionId == m && Perform(r, c, now).1.Granted?)
            || now >= r.leases[m].expiresAt
            ==> Dead(r', m, t, now)
  {
    hide SecToNs;
  }

  /** Only a forced claim by a live agent takes an active lease from its holder, and it
      gets a fresh token. */
  lemma {:induction false} OnlyForceTakesActiveLease(r: Registry, c: Call, m: string, now: int)
    requires Valid(r) && FreshToken(r, c) && m in r.leases && StatusOf(r, r.leases[m], now) == Active
    ensures var before, after := r.leases[m], Perform(r, c, now).0.leases[m];
            && (after.agentId != before.agentId <==>
                  && c.Claim? && Strip(c.missionId) == m && c.force && c.agentId != before.agentId
                  && Perform(r, c, now).1.Granted?)
            && (after.agentId != before.agentId ==> after.token == c.newToken && !IsStale(r, c.agentId, now))
  {
    hide SecToNs, Strip;
    PerformKeepsValid(r, c, now);
  }

  /** A step that keeps the token keeps the holder and the claim time; the task id
      changes only when it is set. */
  lemma {:induction false} TokenPinsOwner(r: Registry, c: Call, m: string, now: int)
    requires Valid(r) && FreshToken(r, c) && m in r.leases
    ensures var before, after := r.leases[m], Perform(r, c, now).0.leases[m];
            && (after.token == before.token ==> after.agentId == before.agentId && after.claimedAt == before.claimedAt)
            && (after.token != before.token ==> c.Claim? && after.token == c.newToken && after.claimedAt == now)
            && after.taskId == (if c.SetTaskId? && c.missionId == m then c.taskId else before.taskId)
  {
    hide SecToNs, Strip;
    PerformKeepsValid(r, c, now);
  }

  /** A stale lease is not lost: a heartbeat before it expires makes the same token
      pass again. */
  lemma {:induction false} HeartbeatRevives(r: Registry, c: Call, m: string, now: int)
    requires Valid(r) && c.Register? && Perform(r, c, now).1.Registered?
    requires SecToNs(if c.timeoutSec > 0.0 then c.timeoutSec else r.defaultTimeoutSec) > 0
    requires m in r.leases && r.leases[m].agentId == Strip(c.agentId)
    requires !r.leases[m].released && now < r.leases[m].expiresAt
    ensures VerifyLease(Perform(r, c, now).0, Strip(c.agentId), m, r.leases[m].token, now) == Granted(r.leases[m])
  {
    hide Strip;
  }

  // ---------------------------------------------------------------- whole runs

  datatype Event = Event(now: int, call: Call)

  /** A run under a clock that never goes back. */
  ghost predicate IsRun(states: seq<Registry>, events: seq<Event>) {
    && |states| == |events| + 1
    && Valid(states[0])
    && (forall i, j :: 0 <= i < j < |events| ==> events[i].now <= events[j].now)
    && (forall i :: 0 <= i < |events| ==>
          FreshToken(states[i], events[i].call) && states[i + 1] == Perform(states[i], events[i].call, events[i].now).0)
  }

  ghost function ReplyAt(states: seq<Registry>, events: seq<Event>, i: nat): Reply
    requires i < |events| && i < |states|
  {
    Perform(states[i], events[i].call, events[i].now).1
  }

  lemma {:induction false} RunIsValid(states: seq<Registry>, events: seq<Event>, i: nat)
    requires IsRun(states, events) && i < |states|
    ensures Valid(states[i])
  {
    hide Valid, Perform, FreshToken;
    if i > 0 {
      RunIsValid(states, events, i - 1);
      PerformKeepsValid(states[i - 1], events[i - 1].call, events[i - 1].now);
    }
  }

  /** A token dead at one point of a run opens nothing at any later point. */
  lemma {:induction false} DeadForever(states: seq<Registry>, events: seq<Event>, i: nat, k: nat, m: string, t: string)
    requires IsRun(states, events) && i <= k < |events|
    requires Dead(states[i], m, t, events[i].now)
    ensures Dead(states[k], m, t, events[k].now)
    ensures forall a :: events[k].call == Verify(a, m, t) || events[k].call == Release(a, m, t) ==>
              ReplyAt(states, events, k).Refused?
    decreases k
  {
    hide Perform, FreshToken, Valid, Dead;
    if i < k {
      DeadForever(states, events, i, k - 1, m, t);
      RunIsValid(states, events, k - 1);
      DeadStaysDead(states[k - 1], events[k - 1].call, m, t, events[k - 1].now, events[k - 1].now);
      DeadLater(states[k], m, t, events[k - 1].now, events[k].now);
    }
    DeadIsRefused(states[k], events[k].call, m, t, events[k].now);
  }

  lemma {:induction false} DeadLater(r: Registry, m: string, t: string, seen: int, now: int)
    requires Dead(r, m, t, seen) && seen <= now
    ensures Dead(r, m, t, now)
  {
  }

  lemma {:induction false} DeadIsRefused(r: Registry, c: Call, m: string, t: string, now: int)
    requires Dead(r, m, t, now)
    ensures forall a :: c == Verify(a, m, t) || c == Release(a, m, t) ==> Perform(r, c, now).1.Refused?
  {
  }

  /** The event gives or ends a lease of the mission. */
  predicate Moves(r: Registry, e: Event, m: string) {
    && Perform(r, e.call, e.now).1.Granted?
    && ((e.call.Claim? && Strip(e.call.missionId) == m) || (e.call.Release? && e.call.missionId == m))
  }

  /** The event is a heartbeat of the agent. */
  predicate Beats(r: Registry, e: Event, a: string) {
    e.call.Register? && Strip(e.call.agentId) == a && Perform(r, e.call, e.now).1.Registered?
  }

  lemma {:induction false} LeaseStays(r: Registry, e: Event, m: string)
    requires Valid(r) && m in r.leases && !Moves(r, e, m)
    ensures var r' := Perform(r, e.call, e.now).0;
            m in r'.leases && r'.leases[m] == r.leases[m].(taskId := r'.leases[m].taskId)
  {
    hide Strip, SecToNs;
  }

  lemma {:induction false} AgentStays(r: Registry, e: Event, a: string)
    requires a in r.agents && !Beats(r, e, a)
    ensures var r' := Perform(r, e.call, e.now).0;
            a in r'.agents && r'.agents[a] == r.agents[a]
  {
    hide Strip, SecToNs;
  }

  /** Nothing moves the lease from i to k. */
  ghost predicate Unmoved(states: seq<Registry>, events: seq<Event>, m: string, i: nat, k: nat)
    requires k <= |events| <= |states|
  {
    forall j :: i <= j < k ==> !Moves(states[j], events[j], m)
  }

  ghost predicate Unbeaten(states: seq<Registry>, events: seq<Event>, a: string, i: nat, k: nat)
    requires k <= |events| <= |states|
  {
    forall j :: i <= j < k ==> !Beats(states[j], events[j], a)
  }

  lemma {:induction false} LeaseLasts(states: seq<Registry>, events: seq<Event>, m: string, i: nat, k: nat)
    requires IsRun(states, events) && i <= k <= |events| && m in states[i].leases && Unmoved(states, events, m, i, k)
    ensures m in states[k].leases && states[k].leases[m] == states[i].leases[m].(taskId := states[k].leases[m].taskId)
    decreases k
  {
    hide Perform, FreshToken, Valid, Moves;
    if i < k {
      LeaseLasts(states, events, m, i, k - 1);
      RunIsValid(states, events, k - 1);
      LeaseStays(states[k - 1], events[k - 1], m);
    }
  }

  lemma {:induction false} AgentLasts(states: seq<Registry>, events: seq<Event>, a: string, i: nat, k: nat)
    requires IsRun(states, events) && i <= k <= |events| && a in states[i].agents && Unbeaten(states, events, a, i, k)
    ensures a in states[k].agents && states[k].agents[a] == states[i].agents[a]
    decreases k
  {
    hide Perform, FreshToken, Valid, Beats;
    if i < k {
      AgentLasts(states, events, a, i, k - 1);
      AgentStays(states[k - 1], events[k - 1], a);
    }
  }

  /** Over runs: between a claim granted at step i and the next claim or release granted on that
      mission, a verification passes if and only if it is the holder's, under the token
      granted, before the seconds asked for are over, and before the timeout asked for at the
      holder's last heartbeat is over. */
  lemma {:induction false} LeasePassesExactly(states: seq<Registry>, events: seq<Event>, i: nat, j: nat, k: nat,
                                              m: string, a: string, t: string)
    requires IsRun(states, events) && i < k < |events| && j < k
    requires events[i].call.Claim? && Moves(states[i], events[i], m) && Unmoved(states, events, m, i + 1, k)
    requires Beats(states[j], events[j], events[i].call.agentId)
    requires Unbeaten(states, events, events[i].call.agentId, j + 1, k)
    requires events[k].call == Verify(a, m, t)
    ensures ReplyAt(states, events, k).Granted? <==>
            && a == events[i].call.agentId && t == ReplyAt(states, events, i).lease.token
            && Within(events[i].now, AskedSeconds(states[i], events[i].call), events[k].now)
            && Within(events[j].now, AskedSeconds(states[j], events[j].call), events[k].now)
  {
    hide Valid, SecToNs, Strip, WholeNanos, FreshToken, AskedSeconds, Perform, Within;
    var now, holder := events[k].now, events[i].call.agentId;
    RunIsValid(states, events, i);
    RunIsValid(states, events, k);
    ClaimGrantsExactly(states[i], events[i].call, events[i].now);
    RegisterBeats(states[j], events[j].call, events[j].now);
    LeaseLasts(states, events, m, i + 1, k);
    AgentLasts(states, events, holder, j + 1, k);
    VerifyIs(states[k], a, m, t, now);
    ExpiryIs(events[i].now, ReplyAt(states, events, i).lease.expiresAt, AskedSeconds(states[i], events[i].call), now);
  }

  lemma {:induction false} ExpiryIs(start: int, end: int, sec: real, now: int)
    requires WholeNanos(end - start, sec)
    ensures now < end <==> Within(start, sec, now)
  {
    hide SecToNs, WholeNanos;
    if n :| WholeNanos(n, sec) && now < start + n {
      WholeNanosUnique(n, end - start, sec);
    }
    if now < end {
      assert WholeNanos(end - start, sec) && now < start + (end - start);
    }
  }

  lemma {:induction false} VerifyIs(r: Registry, a: string, m: string, t: string, now: int)
    requires Valid(r)
    ensures Perform(r, Verify(a, m, t), now).1.Granted? <==>
            IsLive(r, a, now) && IsHeld(r, m, now) && r.leases[m].agentId == a && r.leases[m].token == t
  {
    hide SecToNs, IsLive;
    StaleIsNotLive(r, a, now);
  }

  /** Fencing: once another token has opened a mission, the earlier one never does
      again. */
  lemma {:induction false} LaterTokenFencesEarlier(states: seq<Registry>, events: seq<Event>, i: nat, j: nat, k: nat,
                                m: string, a1: string, t1: string, a2: string, t2: string, a3: string)
    requires IsRun(states, events) && i < j < k < |events|
    requires events[i].call == Verify(a1, m, t1) && ReplyAt(states, events, i).Granted?
    requires events[j].call == Verify(a2, m, t2) && ReplyAt(states, events, j).Granted? && t1 != t2
    requires events[k].call == Verify(a3, m, t1)
    ensures ReplyAt(states, events, k).Refused?
  {
    RunIsValid(states, events, i);
    IssuedGrows(states, events, i, j);
    assert Dead(states[j], m, t1, events[j].now);
    DeadForever(states, events, j, k, m, t1);
  }

  lemma {:induction false} IssuedGrows(states: seq<Registry>, events: seq<Event>, i: nat, j: nat)
    requires IsRun(states, events) && i <= j < |states|
    ensures states[i].issued <= states[j].issued
    decreases j
  {
    hide Perform, FreshToken, Valid;
    if i < j {
      IssuedGrows(states, events, i, j - 1);
      RunIsValid(states, events, j - 1);
      PerformKeepsValid(states[j - 1], events[j - 1].call, events[j - 1].now);
    }
  }

  // ---------------------------------------------------------------- the registry object

  /** The two dictionaries, overwritten entry by entry. Each method does what the
      transition of the same call says, replies included. */
  class AgentRegistry {
    const defaultTimeoutSec: real
    const defaultDurationSec: real
    var agents: map<string, Registration>
    var leases: map<string, Lease>
    /** uuid4 promises not to repeat; the tokens already handed out stand for that promise. */
    var issued: set<string>

    function State(): Registry
      reads this
    {
      Registry(defaultTimeoutSec, defaultDurationSec, agents, leases, issued)
    }

    constructor (timeoutSec: real, durationSec: real)
      ensures Valid(State()) && agents == map[] && leases == map[]
      ensures defaultTimeoutSec >= 0.001 && defaultTimeoutSec >= timeoutSec
      ensures defaultDurationSec >= 0.001 && defaultDurationSec >= durationSec
    {
      defaultTimeoutSec := if timeoutSec < 0.001 then 0.001 else timeoutSec;
      defaultDurationSec := if durationSec < 0.001 then 0.001 else durationSec;
      agents := map[];
      leases := map[];
      issued := {};
    }

    method RegisterAgent(agentId: string, timeoutSec: real, metadata: Option<string>, now: int) returns (reply: Reply)
      modifies this
      ensures (State(), reply) == Perform(old(State()), Register(agentId, timeoutSec, metadata), now)
    {
      var id := Strip(agentId);
      if id == "" {
        return Refused(TASK_DATA_PARSING_FAILED);
      }
      if metadata == None {
        return Refused(TASK_DATA_PARSING_FAILED);
      }
      var timeout := if timeoutSec > 0.0 then timeoutSec else defaultTimeoutSec;
      if timeout <= 0.0 {
        return Refused(TASK_DATA_PARSING_FAILED);
      }
      var since := now;
      if id in agents {
        since := agents[id].registeredAt;
      }
      var registration := Registration(id, timeout, metadata.value, since, now);
      agents := agents[id := registration];
      reply := Registered(registration);
    }

    method ClaimMission(agentId: string, mission: string, durationSec: real, leaseToken: string, force: bool,
                        metadata: Option<string>, newToken: string, now: int) returns (reply: Reply)
      requires Valid(State()) && FreshToken(State(),
                                            Claim(agentId, mission, durationSec, leaseToken, force, metadata, newToken))
      modifies this
      ensures (State(), reply)
           == Perform(old(State()), Claim(agentId, mission, durationSec, leaseToken, force, metadata, newToken), now)
    {
      if IsStale(State(), agentId, now) {
        return Refused(POLICY_REJECTED);
      }
      var missionId := Strip(mission);
      if missionId == "" || metadata == None {
        return Refused(TASK_DATA_PARSING_FAILED);
      }
      var duration := if durationSec > 0.0 then durationSec else defaultDurationSec;
      if duration <= 0.0 {
        return Refused(TASK_DATA_PARSING_FAILED);
      }
      var token, claimedAt, taskId := newToken, now, "";
      if missionId in leases {
        var existing := leases[missionId];
        taskId := existing.taskId;
        if StatusOf(State(), existing, now) == Active {
          if existing.agentId != agentId {
            if !force {
              return Refused(RESOURCE_CONFLICT);
            }
          } else {
            if leaseToken != "" && leaseToken != existing.token {
              return Refused(POLICY_REJECTED);
            }
            token, claimedAt := existing.token, existing.claimedAt;
          }
        }
      }
      if token == newToken {
        issued := issued + {newToken};
      }
      var lease := Lease(missionId, agentId, token, claimedAt, now, now + SecToNs(duration), metadata.value, taskId,
                         false);
      leases := leases[missionId := lease];
      reply := Granted(lease);
    }

    method ReleaseMission(agentId: string, missionId: string, leaseToken: string, now: int) returns (reply: Reply)
      modifies this
      ensures (State(), reply) == Perform(old(State()), Release(agentId, missionId, leaseToken), now)
    {
      reply := VerifyLease(State(), agentId, missionId, leaseToken, now);
      if reply.Refused? {
        return;
      }
      var lease := leases[missionId].(released := true, renewedAt := now, expiresAt := now);
      leases := leases[missionId := lease];
      reply := Granted(lease);
    }

    method SetMissionTaskId(missionId: string, taskId: string, now: int) returns (reply: Reply)
      modifies this
      ensures (State(), reply) == Perform(old(State()), SetTaskId(missionId, taskId), now)
    {
      if missionId !in leases {
        return Nothing;
      }
      var lease := leases[missionId].(taskId := taskId);
      leases := leases[missionId := lease];
      reply := Granted(lease);
    }
  }
}
