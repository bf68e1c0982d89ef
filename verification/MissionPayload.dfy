/** Reading a mission payload: the checks in the order the parser makes them, what each refuses,
    and which payloads it leaves with an exception that is no validation error. */
module MissionPayload {
  import opened Common
  import opened MissionGraph

  /** A float as Python has it; rounding aside. */
  datatype Double = Finite(x: real) | Infinite(negative: bool) | NaN

  /** A JSON value; Python's reader also takes infinities and NaN. */
  datatype Json =
    | Null
    | Bool(b: bool)
    | Whole(n: int)
    | Number(d: Double)
    | Text(s: string)
    | List(items: seq<Json>)
    | Object(members: map<string, Json>)

  /** What int(), float(), json.loads and lower() make of a text, and float() of an integer,
      which can be too large for it. */
  datatype Readers = Readers(
    intOf: string -> Option<int>, floatOf: string -> Option<Double>, floatOfInt: int -> Option<Double>,
    load: string -> Option<Json>, lower: string -> string)

  /** Refused stands for a MissionTaskValidationError, Raises for any other exception. */
  datatype Parsed<+T> = Good(value: T) | Refused | Raises

  type Members = map<string, Json>

  function Get(o: Members, key: string, default: Json): Json {
    if key in o then o[key] else default
  }

  predicate IsName(v: Json) {
    v.Text? && v.s != ""
  }

  predicate TextOrObject(v: Json) {
    v.Text? || v.Object?
  }

  predicate TextList(v: Json) {
    v.List? && forall i :: 0 <= i < |v.items| ==> v.items[i].Text?
  }

  function Texts(v: Json): seq<string>
    requires TextList(v)
  {
    seq(|v.items|, i requires 0 <= i < |v.items| => v.items[i].s)
  }

  /** int(v): truncates finite numbers, reads texts, and raises on everything else. */
  function IntOf(rd: Readers, v: Json): Option<int> {
    match v
    case Bool(b) => Some(if b then 1 else 0)
    case Whole(n) => Some(n)
    case Number(Finite(x)) => Some(if x >= 0.0 then x.Floor else -(-x).Floor)
    case Text(s) => rd.intOf(s)
    case _ => None
  }

  function FloatOf(rd: Readers, v: Json): Option<Double> {
    match v
    case Bool(b) => Some(Finite(if b then 1.0 else 0.0))
    case Whole(n) => rd.floatOfInt(n)
    case Number(d) => Some(d)
    case Text(s) => rd.floatOf(s)
    case _ => None
  }

  /** Below zero; NaN is not. */
  predicate Negative(d: Double) {
    (d.Finite? && d.x < 0.0) || (d.Infinite? && d.negative)
  }

  predicate Truthy(v: Json) {
    match v
    case Null => false
    case Bool(b) => b
    case Whole(n) => n != 0
    case Number(d) => d != Finite(0.0)
    case Text(s) => s != ""
    case List(items) => items != []
    case Object(members) => members != map[]
  }

  // ---------------------------------------------------------------- the values of a subtask

  function IdValue(o: Members, index: nat): Json {
    Get(o, "subtask_id", Text("subtask-" + Digits(index)))
  }

  function TaskIdValue(o: Members, missionId: string, index: nat): Json
    requires IsName(IdValue(o, index))
  {
    Get(o, "task_id", Text(missionId + "/" + IdValue(o, index).s))
  }

  function DataValue(o: Members): Json {
    Get(o, "task_data_json", Text("{}"))
  }

  /** A null policy is an empty one; None is one that is no object. */
  function PolicyOf(o: Members): Option<Members> {
    match Get(o, "retry_policy", Object(map[]))
    case Null => Some(map[])
    case Object(members) => Some(members)
    case _ => None
  }

  function AttemptsValue(o: Members, p: Members): Json {
    Get(p, "max_attempts", Get(o, "max_attempts", Whole(1)))
  }

  function BackoffValue(o: Members, p: Members): Json {
    Get(p, "backoff_sec", Get(o, "retry_backoff_sec", Number(Finite(0.0))))
  }

  function BackoffType(rd: Readers, o: Members, p: Members): Json {
    if "backoff_type" !in p && "retry_backoff_type" !in o then Text("fixed")
    else
      var v := Get(p, "backoff_type", Get(o, "retry_backoff_type", Null));
      if v.Text? then Text(rd.lower(v.s)) else v
  }

  predicate KnownBackoff(v: Json) {
    v == Text("fixed") || v == Text("exponential")
  }

  function MaxBackoffValue(o: Members, p: Members): Json {
    Get(p, "max_backoff_sec", Get(o, "retry_max_backoff_sec", Number(Finite(0.0))))
  }

  function CodesValue(o: Members, p: Members): Json {
    Get(p, "error_codes", Get(p, "retry_error_codes", Get(o, "retry_error_codes", List([]))))
  }

  function TimeoutValue(o: Members): Json {
    Get(o, "timeout_sec", Number(Finite(0.0)))
  }

  function DependsValue(o: Members): Json {
    Get(o, "depends_on", List([]))
  }

  function ConditionValue(o: Members): Json {
    Get(o, "condition_json", Get(o, "condition", Text("")))
  }

  /** The action a condition names; a text that is no object names none, and means continue. */
  function ActionOf(rd: Readers, v: Json): Option<ConditionAction>
    requires TextOrObject(v)
  {
    var loaded := if v.Object? then Some(v) else if v.s == "" then None else rd.load(v.s);
    var members := if loaded.Some? && loaded.value.Object? then loaded.value.members else map[];
    if "action" !in members then Some(Continue)
    else
      match members["action"]
      case Text(s) =>
        var action := rd.lower(s);
        if action == "continue" then Some(Continue)
        else if action == "skip" then Some(Skip)
        else if action == "retry" then Some(Retry)
        else if action == "abort" then Some(Abort)
        else None
      case _ => None
  }

  // ---------------------------------------------------------------- parsing

  /** One subtask, check by check. */
  function ParseSubtask(rd: Readers, item: Json, missionId: string, index: nat): (r: Parsed<Subtask>)
    ensures r.Good? ==> r.value.maxAttempts >= 1
  {
    if !item.Object? then Refused
    else
      var o := item.members;
      if !IsName(IdValue(o, index)) || !IsName(Get(o, "task_name", Null)) || !IsName(TaskIdValue(o, missionId, index))
         then Refused
      else if !TextOrObject(DataValue(o)) then Refused
      else
        match PolicyOf(o)
        case None => Refused
        case Some(p) => ParseRetries(rd, o, p, missionId, index)
  }

  function ParseRetries(rd: Readers, o: Members, p: Members, missionId: string, index: nat): (r: Parsed<Subtask>)
    requires IsName(IdValue(o, index)) && IsName(Get(o, "task_name", Null)) && IsName(TaskIdValue(o, missionId, index))
    ensures r.Good? ==> r.value.maxAttempts >= 1
  {
    match IntOf(rd, AttemptsValue(o, p))
    case None => Raises
    case Some(attempts) =>
      if attempts < 1 then Refused
      else
        match FloatOf(rd, BackoffValue(o, p))
        case None => Raises
        case Some(backoff) =>
          if Negative(backoff) || !KnownBackoff(BackoffType(rd, o, p)) then Refused
          else
            match FloatOf(rd, MaxBackoffValue(o, p))
            case None => Raises
            case Some(most) =>
              if Negative(most) || !TextList(CodesValue(o, p)) then Refused
              else ParseRest(rd, o, p, missionId, index, attempts)
  }

  function ParseRest(rd: Readers, o: Members, p: Members, missionId: string, index: nat,
                     attempts: nat): (r: Parsed<Subtask>)
    requires IsName(IdValue(o, index)) && IsName(Get(o, "task_name", Null)) && IsName(TaskIdValue(o, missionId, index))
    requires attempts >= 1 && TextList(CodesValue(o, p))
    ensures r.Good? ==> r.value.maxAttempts >= 1
  {
    match FloatOf(rd, TimeoutValue(o))
    case None => Raises
    case Some(timeout) =>
      if Negative(timeout) || !TextList(DependsValue(o)) || !TextOrObject(ConditionValue(o)) then Refused
      else
        match ActionOf(rd, ConditionValue(o))
        case None => Refused
        case Some(action) =>
          Good(Subtask(IdValue(o, index).s, TaskIdValue(o, missionId, index).s, Get(o, "task_name", Null).s,
                       Truthy(Get(o, "allow_skipping", Bool(false))), attempts, Texts(CodesValue(o, p)),
                       Texts(DependsValue(o)), action))
  }

  /** The subtasks in order, up to the first that does not parse; indices count from one. */
  function ParseSubtasks(rd: Readers, items: seq<Json>, missionId: string): (r: Parsed<seq<Subtask>>)
    ensures r.Good? ==> |r.value| == |items|
    ensures r.Good? ==> forall i :: 0 <= i < |r.value| ==> r.value[i].maxAttempts >= 1
  {
    if items == [] then Good([])
    else
      match ParseSubtasks(rd, items[..|items| - 1], missionId)
      case Good(before) =>
        (match ParseSubtask(rd, items[|items| - 1], missionId, |items|)
         case Good(s) => Good(before + [s])
         case Refused => Refused
         case Raises => Raises)
      case failed => failed
  }

  function MissionIdValue(payload: Members, taskId: string): Json {
    Get(payload, "mission_id", Text(taskId))
  }

  function SubtasksValue(payload: Members): Json {
    Get(payload, "subtasks", List([]))
  }

  /** payload is None when the text is no JSON. The graph is checked last. */
  ghost function ParseMission(rd: Readers, payload: Option<Json>, taskId: string): Parsed<seq<Subtask>> {
    match payload
    case Some(Object(members)) =>
      if !IsName(MissionIdValue(members, taskId)) || !SubtasksValue(members).List? then Refused
      else
        (match ParseSubtasks(rd, SubtasksValue(members).items, MissionIdValue(members, taskId).s)
         case Good(subtasks) => if ValidGraph(subtasks) then Good(subtasks) else Refused
         case failed => failed)
    case _ => Refused
  }

  // ---------------------------------------------------------------- the first defect

  datatype Check = Passes | Fails | Unreadable

  function Holds(b: bool): Check {
    if b then Passes else Fails
  }

  function Readable(b: bool): Check {
    if b then Passes else Unreadable
  }

  // What the payload itself says, member by member.

  ghost function Member(o: Members, key: string): Option<Json> {
    if key in o then Some(o[key]) else None
  }

  ghost function FirstOf(a: Option<Json>, b: Option<Json>): Option<Json> {
    if a.Some? then a else b
  }

  /** A member of the retry policy, which may be absent or null. */
  ghost function InPolicy(o: Members, key: string): Option<Json> {
    if "retry_policy" in o && o["retry_policy"].Object? then Member(o["retry_policy"].members, key) else None
  }

  /** v is n to int(): a truth value, an integer, a finite number cut towards zero, or a text. */
  ghost predicate ReadsInt(rd: Readers, v: Json, n: int) {
    || (v.Bool? && n == if v.b then 1 else 0)
    || v == Whole(n)
    || (v.Number? && v.d.Finite? && if v.d.x >= 0.0 then n as real <= v.d.x < (n + 1) as real
                                    else (n - 1) as real < v.d.x <= n as real)
    || (v.Text? && rd.intOf(v.s) == Some(n))
  }

  /** v is d to float(). */
  ghost predicate ReadsFloat(rd: Readers, v: Json, d: Double) {
    || (v.Bool? && d == Finite(if v.b then 1.0 else 0.0))
    || (v.Whole? && rd.floatOfInt(v.n) == Some(d))
    || v == Number(d)
    || (v.Text? && rd.floatOf(v.s) == Some(d))
  }

  /** Not less than zero, as NaN is not. */
  ghost predicate NotBelowZero(d: Double) {
    match d
    case Finite(x) => x >= 0.0
    case Infinite(negative) => !negative
    case NaN => true
  }

  /** The text is that list of texts. */
  ghost predicate AreTexts(v: Json, texts: seq<string>) {
    v.List? && |v.items| == |texts| && forall i :: 0 <= i < |texts| ==> v.items[i] == Text(texts[i])
  }

  /** The condition: its own member, or an alias. */
  ghost function ConditionOf(o: Members): Option<Json> {
    FirstOf(Member(o, "condition_json"), Member(o, "condition"))
  }

  /** The action a condition names, when it is an object or a text that loads as one. */
  ghost function NamedAction(rd: Readers, v: Option<Json>): Option<Json> {
    match v
    case None => None
    case Some(Object(members)) => Member(members, "action")
    case Some(Text(s)) =>
      if s != "" && rd.load(s).Some? && rd.load(s).value.Object? then Member(rd.load(s).value.members, "action")
         else None
    case _ => None
  }

  ghost predicate IsAction(rd: Readers, named: Option<Json>, action: ConditionAction) {
    match named
    case None => action == Continue
    case Some(v) =>
      v.Text? && rd.lower(v.s) == match action
                                  case Continue => "continue"
                                  case Skip => "skip"
                                  case Retry => "retry"
                                  case Abort => "abort"
  }

  /** The checks a subtask goes through, in parse order, as its members decide them. A check
      that means nothing once an earlier one fails counts as failed. */
  ghost function Checks(rd: Readers, item: Json, missionId: string, index: nat): seq<Check> {
    if !item.Object? then [Fails]
    else
      var o := item.members;
      NameConditions(o) + RetryConditions(rd, o) + RestConditions(rd, o)
  }

  ghost predicate Nonempty(v: Option<Json>) {
    v.Some? && v.value.Text? && v.value.s != ""
  }

  ghost function NameConditions(o: Members): seq<Check> {
    var id, taskId, data := Member(o, "subtask_id"), Member(o, "task_id"), Member(o, "task_data_json");
    var policy := Member(o, "retry_policy");
    [Holds(id.None? || Nonempty(id)), Holds(Nonempty(Member(o, "task_name"))),
     Holds((id.None? || Nonempty(id)) && (taskId.None? || Nonempty(taskId))),
     Holds(data.None? || data.value.Text? || data.value.Object?),
     Holds(policy.None? || policy.value.Null? || policy.value.Object?)]
  }

  ghost function RetryConditions(rd: Readers, o: Members): seq<Check> {
    var attempts := FirstOf(InPolicy(o, "max_attempts"), Member(o, "max_attempts"));
    var backoff := FirstOf(InPolicy(o, "backoff_sec"), Member(o, "retry_backoff_sec"));
    var kind := FirstOf(InPolicy(o, "backoff_type"), Member(o, "retry_backoff_type"));
    var most := FirstOf(InPolicy(o, "max_backoff_sec"), Member(o, "retry_max_backoff_sec"));
    var codes := CodesOf(o);
    [Readable(attempts.None? || exists n :: ReadsInt(rd, attempts.value, n)),
     Holds(attempts.None? || exists n :: n >= 1 && ReadsInt(rd, attempts.value, n)),
     Readable(backoff.None? || exists d :: ReadsFloat(rd, backoff.value, d)),
     Holds(backoff.None? || exists d :: NotBelowZero(d) && ReadsFloat(rd, backoff.value, d)),
     Holds(kind.None? || (kind.value.Text? && rd.lower(kind.value.s) in {"fixed", "exponential"})),
     Readable(most.None? || exists d :: ReadsFloat(rd, most.value, d)),
     Holds(most.None? || exists d :: NotBelowZero(d) && ReadsFloat(rd, most.value, d)),
     Holds(codes.None? || exists texts :: AreTexts(codes.value, texts))]
  }

  /** The codes that are retried, from the first of three places that has them. */
  ghost function CodesOf(o: Members): Option<Json> {
    FirstOf(InPolicy(o, "error_codes"), FirstOf(InPolicy(o, "retry_error_codes"), Member(o, "retry_error_codes")))
  }

  ghost function RestConditions(rd: Readers, o: Members): seq<Check> {
    var timeout, depends, condition := Member(o, "timeout_sec"), Member(o, "depends_on"), ConditionOf(o);
    [Readable(timeout.None? || exists d :: ReadsFloat(rd, timeout.value, d)),
     Holds(timeout.None? || exists d :: NotBelowZero(d) && ReadsFloat(rd, timeout.value, d)),
     Holds(depends.None? || exists texts :: AreTexts(depends.value, texts)),
     Holds(condition.None? || condition.value.Text? || condition.value.Object?),
     Holds((condition.None? || condition.value.Text? || condition.value.Object?)
           && exists action :: IsAction(rd, NamedAction(rd, condition), action))]
  }

  /** The same checks on the values the parser reads. */
  function ReadChecks(rd: Readers, item: Json, missionId: string, index: nat): seq<Check> {
    if !item.Object? then [Fails]
    else
      var o := item.members;
      NameChecks(o, missionId, index)
      + RetryChecks(rd, o, if PolicyOf(o).Some? then PolicyOf(o).value else map[])
      + RestChecks(rd, o)
  }

  function NameChecks(o: Members, missionId: string, index: nat): seq<Check> {
    [Holds(IsName(IdValue(o, index))), Holds(IsName(Get(o, "task_name", Null))),
     Holds(IsName(IdValue(o, index)) && IsName(TaskIdValue(o, missionId, index))),
     Holds(TextOrObject(DataValue(o))), Holds(PolicyOf(o).Some?)]
  }

  function RetryChecks(rd: Readers, o: Members, p: Members): seq<Check> {
    var attempts, backoff, most := IntOf(rd, AttemptsValue(o, p)), FloatOf(rd, BackoffValue(o, p)),
      FloatOf(rd, MaxBackoffValue(o, p));
    [Readable(attempts.Some?), Holds(attempts.Some? && attempts.value >= 1),
     Readable(backoff.Some?), Holds(backoff.Some? && !Negative(backoff.value)),
       Holds(KnownBackoff(BackoffType(rd, o, p))),
     Readable(most.Some?), Holds(most.Some? && !Negative(most.value)), Holds(TextList(CodesValue(o, p)))]
  }

  function RestChecks(rd: Readers, o: Members): seq<Check> {
    var timeout := FloatOf(rd, TimeoutValue(o));
    [Readable(timeout.Some?), Holds(timeout.Some? && !Negative(timeout.value)), Holds(TextList(DependsValue(o))),
     Holds(TextOrObject(ConditionValue(o))),
     Holds(TextOrObject(ConditionValue(o)) && ActionOf(rd, ConditionValue(o)).Some?)]
  }

  /** The first check that does not pass is that one. */
  ghost predicate FirstIs(checks: seq<Check>, j: nat, c: Check) {
    && j < |checks| && checks[j] == c && c != Passes
    && forall i :: 0 <= i < j ==> checks[i] == Passes
  }

  ghost predicate AllPass(checks: seq<Check>) {
    forall i :: 0 <= i < |checks| ==> checks[i] == Passes
  }

  ghost function Verdict(checks: seq<Check>): Check {
    if checks == [] then Passes else if checks[0] == Passes then Verdict(checks[1..]) else checks[0]
  }

  lemma {:induction false} VerdictThen(a: seq<Check>, b: seq<Check>)
    ensures Verdict(a + b) == if Verdict(a) == Passes then Verdict(b) else Verdict(a)
  {
    if a == [] {
      assert a + b == b;
    } else {
      assert (a + b)[1..] == a[1..] + b;
      VerdictThen(a[1..], b);
    }
  }

  lemma {:induction false} VerdictMeans(checks: seq<Check>, c: Check)
    requires c != Passes
    ensures Verdict(checks) == Passes <==> AllPass(checks)
    ensures Verdict(checks) == c <==> exists j: nat :: FirstIs(checks, j, c)
  {
    if checks != [] {
      VerdictMeans(checks[1..], c);
      if checks[0] == Passes {
        assert checks == [Passes] + checks[1..];
        if j: nat :| FirstIs(checks[1..], j, c) {
          assert FirstIs(checks, j + 1, c);
        }
        if j: nat :| FirstIs(checks, j, c) {
          assert FirstIs(checks[1..], j - 1, c);
        }
      } else {
        assert FirstIs(checks, 0, checks[0]);
      }
    }
  }

  lemma {:induction false} VerdictCons(c: Check, rest: seq<Check>)
    ensures Verdict([c] + rest) == if c == Passes then Verdict(rest) else c
  {
    assert ([c] + rest)[1..] == rest;
  }

  lemma {:induction false} VerdictOfFive(a: Check, b: Check, c: Check, d: Check, e: Check)
    ensures Verdict([a, b, c, d, e])
         == if a != Passes then a else if b != Passes then b else if c != Passes then c else if d != Passes then d
         else e
  {
    hide Verdict;
    VerdictCons(a, [b, c, d, e]);
    VerdictCons(b, [c, d, e]);
    VerdictCons(c, [d, e]);
    VerdictCons(d, [e]);
    VerdictCons(e, []);
    assert [a] + [b, c, d, e] == [a, b, c, d, e] && [b] + [c, d, e] == [b, c, d, e];
    assert [c] + [d, e] == [c, d, e] && [d] + [e] == [d, e] && [e] + [] == [e];
    assert Verdict([]) == Passes by {
      NoVerdict();
    }
  }

  lemma {:induction false} NoVerdict()
    ensures Verdict([]) == Passes
  {
  }

  lemma {:induction false} VerdictOfThree(a: Check, b: Check, c: Check)
    ensures Verdict([a, b, c]) == if a != Passes then a else if b != Passes then b else c
  {
    hide Verdict;
    VerdictCons(a, [b, c]);
    VerdictCons(b, [c]);
    VerdictCons(c, []);
    assert [a] + [b, c] == [a, b, c] && [b] + [c] == [b, c] && [c] + [] == [c];
    NoVerdict();
  }

  /** What the verdict of all checks makes of a subtask. */
  ghost predicate Follows(r: Parsed<Subtask>, verdict: Check) {
    match verdict
    case Passes => r.Good?
    case Fails => r.Refused?
    case Unreadable => r.Raises?
  }

  lemma {:induction false} RestFollows(rd: Readers, o: Members, p: Members, missionId: string, index: nat,
                                       attempts: nat)
    requires IsName(IdValue(o, index)) && IsName(Get(o, "task_name", Null)) && IsName(TaskIdValue(o, missionId, index))
    requires attempts >= 1 && TextList(CodesValue(o, p))
    ensures Follows(ParseRest(rd, o, p, missionId, index, attempts), Verdict(RestChecks(rd, o)))
  {
    hide Verdict, IdValue, TaskIdValue, CodesValue, DependsValue, ConditionValue, TimeoutValue, TextList, TextOrObject,
      ActionOf, FloatOf;
    var timeout := FloatOf(rd, TimeoutValue(o));
    VerdictOfFive(Readable(timeout.Some?), Holds(timeout.Some? && !Negative(timeout.value)),
                  Holds(TextList(DependsValue(o))),
                  Holds(TextOrObject(ConditionValue(o))),
                  Holds(TextOrObject(ConditionValue(o)) && ActionOf(rd, ConditionValue(o)).Some?));
  }

  lemma {:induction false} RetriesFollow(rd: Readers, o: Members, p: Members, missionId: string, index: nat)
    requires IsName(IdValue(o, index)) && IsName(Get(o, "task_name", Null)) && IsName(TaskIdValue(o, missionId, index))
    ensures Follows(ParseRetries(rd, o, p, missionId, index), Verdict(RetryChecks(rd, o, p) + RestChecks(rd, o)))
  {
    hide Verdict, IdValue, TaskIdValue, CodesValue, AttemptsValue, BackoffValue, MaxBackoffValue, BackoffType,
      KnownBackoff, TextList;
    hide IntOf, FloatOf, ParseRest, RestChecks, Follows;
    var attempts, backoff, most := IntOf(rd, AttemptsValue(o, p)), FloatOf(rd, BackoffValue(o, p)),
      FloatOf(rd, MaxBackoffValue(o, p));
    var first := [Readable(attempts.Some?), Holds(attempts.Some? && attempts.value >= 1), Readable(backoff.Some?),
                  Holds(backoff.Some? && !Negative(backoff.value)), Holds(KnownBackoff(BackoffType(rd, o, p)))];
    var second := [Readable(most.Some?), Holds(most.Some? && !Negative(most.value)), Holds(TextList(CodesValue(o, p)))];
    assert RetryChecks(rd, o, p) == first + second;
    VerdictOfFive(first[0], first[1], first[2], first[3], first[4]);
    VerdictOfThree(second[0], second[1], second[2]);
    VerdictThen(first, second);
    VerdictThen(first + second, RestChecks(rd, o));
    if Verdict(first + second) == Passes {
      RestFollows(rd, o, p, missionId, index, attempts.value);
    } else {
      FollowsIs(ParseRetries(rd, o, p, missionId, index));
    }
  }

  lemma {:induction false} IntIs(rd: Readers, v: Json)
    ensures forall n :: ReadsInt(rd, v, n) <==> IntOf(rd, v) == Some(n)
  {
  }

  lemma {:induction false} FloatIs(rd: Readers, v: Json)
    ensures forall d :: ReadsFloat(rd, v, d) <==> FloatOf(rd, v) == Some(d)
    ensures forall d :: NotBelowZero(d) <==> !Negative(d)
  {
  }

  lemma {:induction false} IntChecks(rd: Readers, v: Json)
    ensures IntOf(rd, v).Some? <==> exists n :: ReadsInt(rd, v, n)
    ensures IntOf(rd, v).Some? && IntOf(rd, v).value >= 1 <==> exists n :: n >= 1 && ReadsInt(rd, v, n)
  {
    hide ReadsInt, IntOf;
    IntIs(rd, v);
    if IntOf(rd, v).Some? {
      assert ReadsInt(rd, v, IntOf(rd, v).value);
    }
  }

  lemma {:induction false} FloatChecks(rd: Readers, v: Json)
    ensures FloatOf(rd, v).Some? <==> exists d :: ReadsFloat(rd, v, d)
    ensures FloatOf(rd, v).Some? && !Negative(FloatOf(rd, v).value) <==>
            exists d :: NotBelowZero(d) && ReadsFloat(rd, v, d)
  {
    hide ReadsFloat, FloatOf, NotBelowZero, Negative;
    FloatIs(rd, v);
    if FloatOf(rd, v).Some? {
      assert ReadsFloat(rd, v, FloatOf(rd, v).value);
    }
  }

  lemma {:induction false} TextsAre(v: Json)
    ensures TextList(v) <==> exists texts :: AreTexts(v, texts)
    ensures TextList(v) ==> AreTexts(v, Texts(v))
  {
    if TextList(v) {
      assert AreTexts(v, Texts(v));
    }
  }

  lemma {:induction false} ActionIs(rd: Readers, v: Json, action: ConditionAction)
    requires TextOrObject(v)
    ensures IsAction(rd, NamedAction(rd, Some(v)), action) <==> ActionOf(rd, v) == Some(action)
  {
  }

  lemma {:induction false} NoConditionContinues(rd: Readers)
    ensures ActionOf(rd, Text("")) == Some(Continue) && IsAction(rd, NamedAction(rd, None), Continue)
    ensures forall action :: IsAction(rd, NamedAction(rd, None), action) ==> action == Continue
  {
  }

  lemma {:induction false} SameNameChecks(o: Members, missionId: string, index: nat)
    ensures NameConditions(o) == NameChecks(o, missionId, index)
  {
  }

  lemma {:induction false} TwoPlaces(o: Members, key: string, other: string, default: Json)
    ensures var p := if PolicyOf(o).Some? then PolicyOf(o).value else map[];
            Get(p, key, Get(o, other, default))
              == FirstOf(FirstOf(InPolicy(o, key), Member(o, other)), Some(default)).value
  {
  }

  lemma {:induction false} CodesPlaces(o: Members)
    ensures var p := if PolicyOf(o).Some? then PolicyOf(o).value else map[];
            CodesValue(o, p) == FirstOf(CodesOf(o), Some(List([]))).value
  {
  }

  lemma {:induction false} KindCheck(rd: Readers, o: Members)
    ensures var p := if PolicyOf(o).Some? then PolicyOf(o).value else map[];
            var kind := FirstOf(InPolicy(o, "backoff_type"), Member(o, "retry_backoff_type"));
            KnownBackoff(BackoffType(rd, o, p)) <==>
            kind.None? || (kind.value.Text? && rd.lower(kind.value.s) in {"fixed", "exponential"})
  {
  }

  lemma {:induction false} SameRetryChecks(rd: Readers, o: Members)
    ensures RetryConditions(rd, o) == RetryChecks(rd, o, if PolicyOf(o).Some? then PolicyOf(o).value else map[])
  {
    hide ReadsInt, IntOf, ReadsFloat, FloatOf, NotBelowZero, Negative, AreTexts, TextList, PolicyOf, Get, InPolicy,
      Member;
    hide CodesOf, CodesValue, BackoffType, KnownBackoff;
    var p := if PolicyOf(o).Some? then PolicyOf(o).value else map[];
    TwoPlaces(o, "max_attempts", "max_attempts", Whole(1));
    TwoPlaces(o, "backoff_sec", "retry_backoff_sec", Number(Finite(0.0)));
    TwoPlaces(o, "max_backoff_sec", "retry_max_backoff_sec", Number(Finite(0.0)));
    CodesPlaces(o);
    KindCheck(rd, o);
    IntChecks(rd, AttemptsValue(o, p));
    FloatChecks(rd, BackoffValue(o, p));
    FloatChecks(rd, MaxBackoffValue(o, p));
    TextsAre(CodesValue(o, p));
    Defaults(rd);
  }

  lemma {:induction false} Defaults(rd: Readers)
    ensures IntOf(rd, Whole(1)) == Some(1)
    ensures FloatOf(rd, Number(Finite(0.0))) == Some(Finite(0.0)) && !Negative(Finite(0.0))
    ensures TextList(List([])) && Texts(List([])) == []
  {
  }

  lemma {:induction false} SameRestChecks(rd: Readers, o: Members)
    ensures RestConditions(rd, o) == RestChecks(rd, o)
  {
    hide ReadsFloat, FloatOf, NotBelowZero, Negative, AreTexts, TextList, IsAction, NamedAction, ActionOf;
    FloatChecks(rd, TimeoutValue(o));
    TextsAre(DependsValue(o));
    Defaults(rd);
    NoConditionContinues(rd);
    var v := ConditionValue(o);
    if TextOrObject(v) {
      forall action ensures IsAction(rd, NamedAction(rd, Some(v)), action) <==> ActionOf(rd, v) == Some(action) {
        ActionIs(rd, v, action);
      }
    }
  }

  lemma {:induction false} SameChecks(rd: Readers, item: Json, missionId: string, index: nat)
    ensures Checks(rd, item, missionId, index) == ReadChecks(rd, item, missionId, index)
  {
    hide NameConditions, NameChecks, RetryConditions, RetryChecks, RestConditions, RestChecks, PolicyOf;
    if item.Object? {
      SameNameChecks(item.members, missionId, index);
      SameRetryChecks(rd, item.members);
      SameRestChecks(rd, item.members);
    }
  }

  lemma {:induction false} FollowsIs(r: Parsed<Subtask>)
    ensures Follows(r, Passes) == r.Good? && Follows(r, Fails) == r.Refused? && Follows(r, Unreadable) == r.Raises?
  {
  }

  /** A subtask parses exactly when every check passes; otherwise it is refused, or raises,
      exactly as its first check that does not pass says. */
  lemma {:induction false} ParseSubtaskFollows(rd: Readers, item: Json, missionId: string, index: nat)
    ensures var r, checks := ParseSubtask(rd, item, missionId, index), Checks(rd, item, missionId, index);
            && (r.Good? <==> AllPass(checks))
            && (r.Refused? <==> exists j: nat :: FirstIs(checks, j, Fails))
            && (r.Raises? <==> exists j: nat :: FirstIs(checks, j, Unreadable))
  {
    hide Verdict, FirstIs, AllPass, IdValue, TaskIdValue, DataValue, PolicyOf, IsName, TextOrObject, ParseRetries,
      RetryChecks, RestChecks;
    hide Follows, Checks;
    var r, checks := ParseSubtask(rd, item, missionId, index), ReadChecks(rd, item, missionId, index);
    SameChecks(rd, item, missionId, index);
    VerdictMeans(checks, Fails);
    VerdictMeans(checks, Unreadable);
    FollowsIs(r);
    if !item.Object? {
      VerdictCons(Fails, []);
      assert [Fails] + [] == [Fails];
    } else {
      var o := item.members;
      var p := if PolicyOf(o).Some? then PolicyOf(o).value else map[];
      VerdictOfFive(Holds(IsName(IdValue(o, index))), Holds(IsName(Get(o, "task_name", Null))),
                    Holds(IsName(IdValue(o, index)) && IsName(TaskIdValue(o, missionId, index))),
                    Holds(TextOrObject(DataValue(o))), Holds(PolicyOf(o).Some?));
      VerdictThen(NameChecks(o, missionId, index), RetryChecks(rd, o, p) + RestChecks(rd, o));
      assert checks == NameChecks(o, missionId, index) + (RetryChecks(rd, o, p) + RestChecks(rd, o));
      if Verdict(NameChecks(o, missionId, index)) == Passes {
        RetriesFollow(rd, o, p, missionId, index);
      }
    }
  }

  // ---------------------------------------------------------------- the subtask read

  /** s is the subtask the payload's item describes, the index-th of its mission. */
  ghost predicate Describes(rd: Readers, item: Json, missionId: string, index: nat, s: Subtask) {
    && item.Object?
    && var o := item.members;
       && Named(o, "subtask_id", "subtask-" + Digits(index), s.subtaskId)
       && Named(o, "task_id", missionId + "/" + s.subtaskId, s.taskId)
       && Member(o, "task_name") == Some(Text(s.taskName))
       && (s.allowSkipping <==> "allow_skipping" in o && !Falsy(o["allow_skipping"]))
       && ListsTexts(CodesOf(o), s.retryErrorCodes)
       && ListsTexts(Member(o, "depends_on"), s.dependsOn)
       && Tries(rd, FirstOf(InPolicy(o, "max_attempts"), Member(o, "max_attempts")), s.maxAttempts)
       && IsAction(rd, NamedAction(rd, ConditionOf(o)), s.condition)
  }

  /** The member's text, or the default without one. */
  ghost predicate Named(o: Members, key: string, default: string, name: string) {
    if key in o then o[key] == Text(name) else name == default
  }

  ghost predicate ListsTexts(v: Option<Json>, texts: seq<string>) {
    if v.Some? then AreTexts(v.value, texts) else texts == []
  }

  ghost predicate Tries(rd: Readers, v: Option<Json>, attempts: nat) {
    attempts >= 1 && if v.Some? then ReadsInt(rd, v.value, attempts) else attempts == 1
  }

  ghost predicate Falsy(v: Json) {
    v in {Null, Bool(false), Whole(0), Number(Finite(0.0)), Text(""), List([]), Object(map[])}
  }

  lemma {:induction false} FalsyIs(v: Json)
    ensures Falsy(v) <==> !Truthy(v)
  {
  }

  lemma {:induction false} TextsUnique(v: Option<Json>, a: seq<string>, b: seq<string>)
    requires ListsTexts(v, a) && ListsTexts(v, b)
    ensures a == b
  {
    if v.Some? {
      forall i | 0 <= i < |a| ensures a[i] == b[i] {
        assert v.value.items[i] == Text(a[i]);
      }
    }
  }

  lemma {:induction false} TriesUnique(rd: Readers, v: Option<Json>, m: nat, n: nat)
    requires Tries(rd, v, m) && Tries(rd, v, n)
    ensures m == n
  {
    if v.Some? {
      IntIs(rd, v.value);
    }
  }

  lemma {:induction false} ActionUnique(rd: Readers, named: Option<Json>, a: ConditionAction, b: ConditionAction)
    requires IsAction(rd, named, a) && IsAction(rd, named, b)
    ensures a == b
  {
  }

  lemma {:induction false} DescribesUnique(rd: Readers, item: Json, missionId: string, index: nat, a: Subtask,
                                           b: Subtask)
    requires Describes(rd, item, missionId, index, a) && Describes(rd, item, missionId, index, b)
    ensures a == b
  {
    hide ListsTexts, Tries, IsAction, NamedAction, Falsy, CodesOf, InPolicy, ConditionOf, FirstOf;
    var o := item.members;
    TextsUnique(CodesOf(o), a.retryErrorCodes, b.retryErrorCodes);
    TextsUnique(Member(o, "depends_on"), a.dependsOn, b.dependsOn);
    TriesUnique(rd, FirstOf(InPolicy(o, "max_attempts"), Member(o, "max_attempts")), a.maxAttempts, b.maxAttempts);
    ActionUnique(rd, NamedAction(rd, ConditionOf(o)), a.condition, b.condition);
  }

  /** An accepted subtask is the one its item describes. */
  lemma {:induction false} SubtaskIsDescribed(rd: Readers, item: Json, missionId: string, index: nat)
    requires ParseSubtask(rd, item, missionId, index).Good?
    ensures Describes(rd, item, missionId, index, ParseSubtask(rd, item, missionId, index).value)
  {
    hide ListsTexts, Tries, IsAction, NamedAction, ActionOf, Falsy, Truthy, CodesOf, CodesValue, AttemptsValue,
      InPolicy;
    hide TextList, IntOf, FloatOf, PolicyOf, BackoffType, KnownBackoff;
    var o := item.members;
    var p, r := PolicyOf(o).value, ParseSubtask(rd, item, missionId, index).value;
    CodesRead(o);
    DependsRead(o);
    AttemptsRead(rd, o);
    ConditionRead(rd, o, r.condition);
    FalsyIs(Get(o, "allow_skipping", Bool(false)));
    AbsentIsFalsy();
  }

  lemma {:induction false} AbsentIsFalsy()
    ensures Falsy(Bool(false))
  {
  }

  lemma {:induction false} CodesRead(o: Members)
    requires PolicyOf(o).Some? && TextList(CodesValue(o, PolicyOf(o).value))
    ensures ListsTexts(CodesOf(o), Texts(CodesValue(o, PolicyOf(o).value)))
  {
    hide AreTexts, TextList, CodesOf, CodesValue, PolicyOf, Texts;
    CodesPlaces(o);
    TextsAre(CodesValue(o, PolicyOf(o).value));
    NoTexts();
  }

  lemma {:induction false} NoTexts()
    ensures TextList(List([])) && Texts(List([])) == []
  {
  }

  lemma {:induction false} DependsRead(o: Members)
    requires TextList(DependsValue(o))
    ensures ListsTexts(Member(o, "depends_on"), Texts(DependsValue(o)))
  {
    hide AreTexts, TextList, Texts;
    TextsAre(DependsValue(o));
    NoTexts();
  }

  lemma {:induction false} AttemptsRead(rd: Readers, o: Members)
    requires PolicyOf(o).Some? && IntOf(rd, AttemptsValue(o, PolicyOf(o).value)).Some?
    requires IntOf(rd, AttemptsValue(o, PolicyOf(o).value)).value >= 1
    ensures Tries(rd, FirstOf(InPolicy(o, "max_attempts"), Member(o, "max_attempts")),
                  IntOf(rd, AttemptsValue(o, PolicyOf(o).value)).value)
  {
    hide IntOf, ReadsInt, PolicyOf, InPolicy, Member;
    TwoPlaces(o, "max_attempts", "max_attempts", Whole(1));
    IntIs(rd, AttemptsValue(o, PolicyOf(o).value));
    Defaults(rd);
  }

  lemma {:induction false} ConditionRead(rd: Readers, o: Members, action: ConditionAction)
    requires TextOrObject(ConditionValue(o)) && ActionOf(rd, ConditionValue(o)) == Some(action)
    ensures IsAction(rd, NamedAction(rd, ConditionOf(o)), action)
  {
    hide ActionOf, NamedAction, IsAction;
    ActionIs(rd, ConditionValue(o), action);
    NoConditionContinues(rd);
  }

  /** The items describe those subtasks, in order. */
  ghost predicate AllDescribed(rd: Readers, items: seq<Json>, missionId: string, subtasks: seq<Subtask>) {
    && |items| == |subtasks|
    && forall i :: 0 <= i < |items| ==> Describes(rd, items[i], missionId, i + 1, subtasks[i])
  }

  lemma {:induction false} SubtasksAreDescribed(rd: Readers, items: seq<Json>, missionId: string)
    requires ParseSubtasks(rd, items, missionId).Good?
    ensures AllDescribed(rd, items, missionId, ParseSubtasks(rd, items, missionId).value)
  {
    hide Describes, ParseSubtask;
    if items != [] {
      var front := items[..|items| - 1];
      SubtasksAreDescribed(rd, front, missionId);
      SubtaskIsDescribed(rd, items[|items| - 1], missionId, |items|);
    }
  }

  lemma {:induction false} AllDescribedUnique(rd: Readers, items: seq<Json>, missionId: string, a: seq<Subtask>,
                                              b: seq<Subtask>)
    requires AllDescribed(rd, items, missionId, a) && AllDescribed(rd, items, missionId, b)
    ensures a == b
  {
    hide Describes;
    forall i | 0 <= i < |items| ensures a[i] == b[i] {
      DescribesUnique(rd, items[i], missionId, i + 1, a[i], b[i]);
    }
  }

  // ---------------------------------------------------------------- whole payloads

  /** The j-th check of the i-th subtask is the first of the payload that does not pass. */
  ghost predicate FirstDefect(rd: Readers, items: seq<Json>, missionId: string, i: nat, j: nat, c: Check) {
    && i < |items| && FirstIs(Checks(rd, items[i], missionId, i + 1), j, c)
    && forall k :: 0 <= k < i ==> AllPass(Checks(rd, items[k], missionId, k + 1))
  }

  ghost predicate AllSubtasksPass(rd: Readers, items: seq<Json>, missionId: string) {
    forall k :: 0 <= k < |items| ==> AllPass(Checks(rd, items[k], missionId, k + 1))
  }

  lemma {:induction false} ParseSubtasksFollows(rd: Readers, items: seq<Json>, missionId: string)
    ensures var r := ParseSubtasks(rd, items, missionId);
            && (r.Good? <==> AllSubtasksPass(rd, items, missionId))
            && (r.Raises? <==> exists i: nat, j: nat :: FirstDefect(rd, items, missionId, i, j, Unreadable))
  {
    hide Checks, FirstIs, AllPass, ParseSubtask;
    if items != [] {
      var front, last := items[..|items| - 1], items[|items| - 1];
      ParseSubtasksFollows(rd, front, missionId);
      ParseSubtaskFollows(rd, last, missionId, |items|);
      assert AllSubtasksPass(rd, items, missionId) <==>
             AllSubtasksPass(rd, front, missionId) && AllPass(Checks(rd, last, missionId, |items|));
      if i: nat, j: nat :| FirstDefect(rd, front, missionId, i, j, Unreadable) {
        assert FirstDefect(rd, items, missionId, i, j, Unreadable);
      }
      if i: nat, j: nat :| FirstDefect(rd, items, missionId, i, j, Unreadable) {
        if i < |front| {
          assert FirstDefect(rd, front, missionId, i, j, Unreadable);
        } else {
          assert AllSubtasksPass(rd, front, missionId);
        }
      }
      if AllSubtasksPass(rd, front, missionId) {
        if j: nat :| FirstIs(Checks(rd, last, missionId, |items|), j, Unreadable) {
          assert FirstDefect(rd, items, missionId, |front|, j, Unreadable);
        }
      }
    }
  }

  /** The payload is an object with a usable mission id and a list of subtasks. */
  predicate WellShaped(payload: Option<Json>, taskId: string) {
    && payload.Some? && payload.value.Object?
    && IsName(MissionIdValue(payload.value.members, taskId)) && SubtasksValue(payload.value.members).List?
  }

  /** The payload is an object with that mission id, or the task id for want of one, and those
      items for subtasks. */
  ghost predicate MissionOf(payload: Option<Json>, taskId: string, missionId: string, items: seq<Json>) {
    && payload.Some? && payload.value.Object? && missionId != ""
    && Named(payload.value.members, "mission_id", taskId, missionId)
    && var listed := Member(payload.value.members, "subtasks");
       if listed.Some? then listed.value == List(items) else items == []
  }

  lemma {:induction false} MissionOfIs(payload: Option<Json>, taskId: string)
    ensures forall missionId, items :: MissionOf(payload, taskId, missionId, items) <==>
              && WellShaped(payload, taskId)
              && MissionIdValue(payload.value.members, taskId) == Text(missionId)
              && SubtasksValue(payload.value.members) == List(items)
  {
  }

  /** Some item of the payload is the first whose checks do not all pass, and the first of them
      that does not is a number that cannot be read. */
  ghost predicate MeetsUnreadable(rd: Readers, payload: Option<Json>, taskId: string) {
    exists missionId, items, i: nat, j: nat ::
      MissionOf(payload, taskId, missionId, items) && FirstDefect(rd, items, missionId, i, j, Unreadable)
  }

  /** Every item of the payload passes its checks, and they describe those subtasks. */
  ghost predicate Accepts(rd: Readers, payload: Option<Json>, taskId: string, subtasks: seq<Subtask>) {
    exists missionId, items ::
      && MissionOf(payload, taskId, missionId, items) && AllSubtasksPass(rd, items, missionId)
      && AllDescribed(rd, items, missionId, subtasks)
  }

  /** Parsing raises what no handler names if and only if the first defect of the payload, in
      the order it is read, is a number that cannot be read; and it accepts exactly the
      payloads without a defect whose graph is valid, as the subtasks they describe. */
  lemma {:induction false} MissionRaisesExactly(rd: Readers, payload: Option<Json>, taskId: string)
    ensures ParseMission(rd, payload, taskId).Raises? <==> MeetsUnreadable(rd, payload, taskId)
    ensures forall subtasks :: ParseMission(rd, payload, taskId) == Good(subtasks) <==>
              Accepts(rd, payload, taskId, subtasks) && ValidGraph(subtasks)
  {
    hide FirstDefect, AllSubtasksPass, ValidGraph, ParseSubtasks, WellShaped, MissionOf, AllDescribed;
    MissionOfIs(payload, taskId);
    if WellShaped(payload, taskId) {
      ShapedMission(rd, payload, taskId);
      var missionId, items := MissionIdValue(payload.value.members, taskId).s,
        SubtasksValue(payload.value.members).items;
      assert MissionOf(payload, taskId, missionId, items);
      ParseSubtasksFollows(rd, items, missionId);
      var r := ParseSubtasks(rd, items, missionId);
      if r.Good? {
        SubtasksAreDescribed(rd, items, missionId);
        forall subtasks | AllDescribed(rd, items, missionId, subtasks) ensures subtasks == r.value {
          AllDescribedUnique(rd, items, missionId, subtasks, r.value);
        }
      }
    } else {
      assert ParseMission(rd, payload, taskId).Refused? by {
        UnshapedMission(rd, payload, taskId);
      }
    }
  }

  lemma {:induction false} ShapedMission(rd: Readers, payload: Option<Json>, taskId: string)
    requires WellShaped(payload, taskId)
    ensures payload.Some? && payload.value.Object?
    ensures var members := payload.value.members;
            var r := ParseSubtasks(rd, SubtasksValue(members).items, MissionIdValue(members, taskId).s);
            && (ParseMission(rd, payload, taskId).Raises? <==> r.Raises?)
            && (forall subtasks :: ParseMission(rd, payload, taskId) == Good(subtasks) <==>
                  r == Good(subtasks) && ValidGraph(subtasks))
    ensures SubtasksValue(payload.value.members).List? && MissionIdValue(payload.value.members, taskId).Text?
  {
    hide ParseSubtasks, ValidGraph;
  }

  lemma {:induction false} UnshapedMission(rd: Readers, payload: Option<Json>, taskId: string)
    requires !WellShaped(payload, taskId)
    ensures ParseMission(rd, payload, taskId).Refused?
  {
    hide ParseSubtasks, ValidGraph;
  }

  /** Such a payload: one subtask whose attempt count is null. */
  lemma {:induction false} NullAttemptsRaise(rd: Readers, taskId: string)
    requires taskId != ""
    ensures var item := Object(map["task_name" := Text("move"), "max_attempts" := Null]);
            ParseMission(rd, Some(Object(map["subtasks" := List([item])])), taskId).Raises?
  {
    var item := Object(map["task_name" := Text("move"), "max_attempts" := Null]);
    var payload := Object(map["subtasks" := List([item])]);
    assert [item][..0] == [];
    assert ParseSubtask(rd, item, taskId, 1).Raises?;
    assert ParseSubtasks(rd, [item], taskId).Raises?;
  }
}
