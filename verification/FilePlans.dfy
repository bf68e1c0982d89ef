/** Sequences of counted file steps: the bytes each adds, whether a quota lets them through,
    and every disk a run of them can leave behind. */
module FilePlans {
  import opened Common
  import opened SpoolFiles

  /** How an operation ends: QuotaFull and DiskLow are the two SpoolQuotaExceeded cases,
      IoFailed an OSError. */
  datatype Outcome = Ok | QuotaFull | DiskLow | IoFailed | AlreadyExists | TooSmall

  predicate WithinQuota(used: int, maxBytes: nat) {
    maxBytes > 0 ==> used <= maxBytes
  }

  /** The disk states a reader cannot tell from d. */
  ghost function Seen(d: Disk): iset<Disk> {
    iset t: Disk | Live(t) == Live(d)
  }

  /** Every state recorded since before is one of allowed. */
  ghost predicate Added(before: seq<Disk>, after: seq<Disk>, allowed: iset<Disk>) {
    && |before| <= |after|
    && after[..|before|] == before
    && forall i :: |before| <= i < |after| ==> after[i] in allowed
  }

  lemma {:induction false} AddedThen(a: seq<Disk>, b: seq<Disk>, c: seq<Disk>, s: iset<Disk>, t: iset<Disk>,
                                     u: iset<Disk>)
    requires Added(a, b, s) && Added(b, c, t) && s <= u && t <= u
    ensures Added(a, c, u)
  {
    assert c[..|a|] == a by {
      assert c[..|a|] == c[..|b|][..|a|];
    }
    forall i | |a| <= i < |c| ensures c[i] in u {
      if i < |b| {
        assert c[i] == c[..|b|][i];
        assert b[i] in s;
      } else {
        assert c[i] in t;
      }
    }
  }

  lemma {:induction false} NothingAdded(a: seq<Disk>, s: iset<Disk>)
    ensures Added(a, a, s)
  {
  }

  lemma {:induction false} AddedOne(a: seq<Disk>, b: seq<Disk>, d: Disk, u: iset<Disk>)
    requires Added(a, b, u) && d in u
    ensures Added(a, b + [d], u)
  {
    assert (b + [d])[..|a|] == b[..|a|];
  }

  ghost predicate SameFile(d: Disk, t: Disk, p: Path) {
    (p in d <==> p in t) && (p in d ==> d[p] == t[p])
  }

  lemma {:induction false} SeenSame(d: Disk, t: Disk)
    requires t in Seen(d)
    ensures forall p: Path :: !p.Temp? ==> SameFile(d, t, p)
  {
    forall p: Path | !p.Temp? ensures SameFile(d, t, p) {
      assert p in Live(t) <==> p in t;
      assert p in Live(d) <==> p in d;
      assert p in d ==> Live(t)[p] == t[p] && Live(d)[p] == d[p];
    }
  }

  // ---------------------------------------------------------------- steps and plans

  /** A whole file written, a file unlinked if it is there, a file renamed unless the new
      name is taken. */
  datatype FileStep = Put(path: Path, data: string) | Drop(path: Path) | Place(path: Path, to: Path)

  function Do(d: Disk, s: FileStep): Disk {
    match s
    case Put(p, data) => d[p := data]
    case Drop(p) => d - {p}
    case Place(p, to) => if p in d && to !in d then (d - {p})[to := d[p]] else d
  }

  function After(d: Disk, plan: seq<FileStep>): Disk
    decreases |plan|
  {
    if plan == [] then d else After(Do(d, plan[0]), plan[1..])
  }

  function Grows(d: Disk, s: FileStep): int {
    match s
    case Put(p, data) => |data| - Size(d, p)
    case Drop(p) => 0 - Size(d, p)
    case Place(_, _) => 0
  }

  function Growth(d: Disk, plan: seq<FileStep>): int
    decreases |plan|
  {
    if plan == [] then 0 else Grows(d, plan[0]) + Growth(Do(d, plan[0]), plan[1..])
  }

  /** Only a step that adds bytes asks the quota. */
  predicate Admits(d: Disk, used: int, maxBytes: nat, s: FileStep) {
    Grows(d, s) > 0 ==> WithinQuota(used + Grows(d, s), maxBytes)
  }

  /** Every step of the plan gets past the quota. */
  predicate Fits(d: Disk, used: int, maxBytes: nat, plan: seq<FileStep>)
    decreases |plan|
  {
    plan == [] || (Admits(d, used, maxBytes, plan[0])
                   && Fits(Do(d, plan[0]), used + Grows(d, plan[0]), maxBytes, plan[1..]))
  }

  /** The most bytes the plan ever needs beyond those in use when it starts. */
  function Peak(d: Disk, plan: seq<FileStep>): nat
    decreases |plan|
  {
    if plan == [] then 0 else Max(0, Grows(d, plan[0]) + Peak(Do(d, plan[0]), plan[1..]))
  }

  /** What a crash anywhere in the plan can leave. */
  ghost function States(d: Disk, plan: seq<FileStep>): iset<Disk>
    decreases |plan|
  {
    Seen(d) + if plan == [] then iset{} else States(Do(d, plan[0]), plan[1..])
  }

  /** The states of the disk while a step is taken: before, after, and for a write with any
      piece of the text in a new temporary file. */
  ghost function Taking(d: Disk, s: FileStep): iset<Disk> {
    iset{d, Do(d, s)} + if s.Put? then HalfWritten(d, s.data) else iset{}
  }

  ghost function HalfWritten(d: Disk, data: string): iset<Disk> {
    iset t: Disk | HasHalf(d, data, t)
  }

  ghost predicate HasHalf(d: Disk, data: string, t: Disk) {
    exists temp: Path, k :: IsHalf(d, data, t, temp, k)
  }

  ghost predicate IsHalf(d: Disk, data: string, t: Disk, temp: Path, k: int) {
    temp.Temp? && temp !in d && 0 <= k <= |data| && t == d[temp := data[..k]]
  }

  /** The very states a crash anywhere in the plan can leave, temporary files included. */
  ghost function Crashes(d: Disk, plan: seq<FileStep>): iset<Disk>
    decreases |plan|
  {
    iset{d} + if plan == [] then iset{} else Taking(d, plan[0]) + Crashes(Do(d, plan[0]), plan[1..])
  }

  lemma {:induction false} TakingSeen(d: Disk, s: FileStep)
    ensures Taking(d, s) <= Seen(d) + Seen(Do(d, s))
  {
    hide Do;
    forall t | t in Taking(d, s) ensures t in Seen(d) + Seen(Do(d, s)) {
      if t != d && t != Do(d, s) {
        var temp: Path, k :| IsHalf(d, s.data, t, temp, k);
        LiveWithTemp(d, temp.target, temp.token, s.data[..k]);
      }
    }
  }

  lemma {:induction false} CrashesSeen(d: Disk, plan: seq<FileStep>)
    ensures Crashes(d, plan) <= States(d, plan)
    decreases |plan|
  {
    hide Do, Taking, Seen;
    SeenSelf(d);
    if plan != [] {
      TakingSeen(d, plan[0]);
      CrashesSeen(Do(d, plan[0]), plan[1..]);
      FirstSeen(Do(d, plan[0]), plan[1..]);
    }
  }

  lemma {:induction false} FirstSeen(d: Disk, plan: seq<FileStep>)
    ensures Seen(d) <= States(d, plan)
  {
    hide Seen, Do;
  }

  lemma {:induction false} CrashesThen(d: Disk, p: seq<FileStep>, q: seq<FileStep>)
    ensures Crashes(d, p + q) == Crashes(d, p) + Crashes(After(d, p), q)
    decreases |p|
  {
    hide Do, Taking;
    if p == [] {
      assert p + q == q;
      assert Crashes(d, p) == iset{d} && d in Crashes(d, q);
    } else {
      assert (p + q)[1..] == p[1..] + q;
      CrashesThen(Do(d, p[0]), p[1..], q);
    }
  }

  /** The plan was carried out up to its end or to a step that failed; only a step the quota
      refuses fails for quota, and only one that adds bytes for a floor of free ones. */
  ghost predicate Performed(d: Disk, used: int, maxBytes: nat, plan: seq<FileStep>, r: Outcome, d': Disk, used': int)
    decreases |plan|
  {
    || (d' == d && used' == used && if plan == [] then r == Ok else r != Ok && MayFail(d, used, maxBytes, plan[0], r))
    || (plan != [] && Admits(d, used, maxBytes, plan[0])
        && Performed(Do(d, plan[0]), used + Grows(d, plan[0]), maxBytes, plan[1..], r, d', used'))
  }

  predicate MayFail(d: Disk, used: int, maxBytes: nat, s: FileStep, r: Outcome) {
    (r == QuotaFull ==> !Admits(d, used, maxBytes, s)) && (r == DiskLow ==> Grows(d, s) > 0)
  }

  /** Some step adds bytes. */
  predicate EverGrows(d: Disk, plan: seq<FileStep>)
    decreases |plan|
  {
    plan != [] && (Grows(d, plan[0]) > 0 || EverGrows(Do(d, plan[0]), plan[1..]))
  }

  /** A store at one time: its files, its byte counter, and the states recorded so far. */
  datatype Moment = Moment(disk: Disk, used: int, trace: seq<Disk>)

  ghost predicate Ran(a: Moment, maxBytes: nat, plan: seq<FileStep>, r: Outcome, b: Moment) {
    Performed(a.disk, a.used, maxBytes, plan, r, b.disk, b.used) && Added(a.trace, b.trace, Crashes(a.disk, plan))
  }

  lemma {:induction false} RanNothing(a: Moment, maxBytes: nat)
    ensures Ran(a, maxBytes, [], Ok, a)
  {
  }

  /** One step: it is carried out, or nothing changes. */
  lemma {:induction false} RanStep(a: Moment, maxBytes: nat, s: FileStep, r: Outcome, b: Moment)
    requires Added(a.trace, b.trace, Taking(a.disk, s))
    requires if r == Ok then
               b.disk == Do(a.disk, s) && b.used == a.used + Grows(a.disk, s) && Admits(a.disk, a.used, maxBytes, s)
             else b.disk == a.disk && b.used == a.used && MayFail(a.disk, a.used, maxBytes, s, r)
    ensures Ran(a, maxBytes, [s], r, b)
  {
    hide Do, Grows, Admits, Taking, MayFail;
    assert [s][1..] == [];
    assert Performed(Do(a.disk, s), a.used + Grows(a.disk, s), maxBytes, [], Ok, Do(a.disk, s),
                     a.used + Grows(a.disk, s));
    assert Taking(a.disk, s) <= Crashes(a.disk, [s]);
  }

  lemma {:induction false} RanThen(a: Moment, b: Moment, c: Moment, maxBytes: nat, p: seq<FileStep>, q: seq<FileStep>,
                                   r: Outcome)
    requires Ran(a, maxBytes, p, Ok, b) && Ran(b, maxBytes, q, r, c)
    ensures Ran(a, maxBytes, p + q, r, c)
  {
    hide Performed, Crashes;
    PerformedThen(a.disk, a.used, maxBytes, p, b.disk, b.used, q, r, c.disk, c.used);
    CrashesThen(a.disk, p, q);
    AddedThen(a.trace, b.trace, c.trace, Crashes(a.disk, p), Crashes(b.disk, q), Crashes(a.disk, p + q));
  }

  lemma {:induction false} RanStopped(a: Moment, b: Moment, maxBytes: nat, p: seq<FileStep>, q: seq<FileStep>,
                                      r: Outcome)
    requires Ran(a, maxBytes, p, r, b) && r != Ok
    ensures Ran(a, maxBytes, p + q, r, b)
  {
    hide Performed, Crashes;
    PerformedStopped(a.disk, a.used, maxBytes, p, q, r, b.disk, b.used);
    CrashesThen(a.disk, p, q);
    NothingAdded(b.trace, iset{});
    AddedThen(a.trace, b.trace, b.trace, Crashes(a.disk, p), iset{}, Crashes(a.disk, p + q));
  }

  lemma {:induction false} PerformedThen(d: Disk, used: int, maxBytes: nat, p: seq<FileStep>, d1: Disk, used1: int,
                                         q: seq<FileStep>, r: Outcome, d2: Disk, used2: int)
    requires Performed(d, used, maxBytes, p, Ok, d1, used1) && Performed(d1, used1, maxBytes, q, r, d2, used2)
    ensures Performed(d, used, maxBytes, p + q, r, d2, used2)
    ensures d1 == After(d, p)
    decreases |p|
  {
    hide Do, Grows, Admits, MayFail;
    if p == [] {
      assert p + q == q;
    } else {
      assert (p + q)[1..] == p[1..] + q;
      PerformedThen(Do(d, p[0]), used + Grows(d, p[0]), maxBytes, p[1..], d1, used1, q, r, d2, used2);
    }
  }

  lemma {:induction false} PerformedStopped(d: Disk, used: int, maxBytes: nat, p: seq<FileStep>, q: seq<FileStep>,
                                            r: Outcome, d1: Disk, used1: int)
    requires Performed(d, used, maxBytes, p, r, d1, used1) && r != Ok
    ensures Performed(d, used, maxBytes, p + q, r, d1, used1)
    decreases |p|
  {
    hide Do, Grows, Admits;
    if p != [] {
      assert (p + q)[1..] == p[1..] + q && (p + q)[0] == p[0];
      if Performed(Do(d, p[0]), used + Grows(d, p[0]), maxBytes, p[1..], r, d1, used1) {
        PerformedStopped(Do(d, p[0]), used + Grows(d, p[0]), maxBytes, p[1..], q, r, d1, used1);
      }
    }
  }

  // ---------------------------------------------------------------- what a run means

  /** A run that ends well did the whole plan and fitted; one that ran out of quota did not
      fit; and none ever used more than the plan's peak. */
  lemma {:induction false} PerformedMeans(d: Disk, used: int, maxBytes: nat, plan: seq<FileStep>, r: Outcome, d': Disk,
                                          used': int)
    requires Performed(d, used, maxBytes, plan, r, d', used')
    ensures r == Ok ==> Fits(d, used, maxBytes, plan) && d' == After(d, plan) && used' == used + Growth(d, plan)
    ensures r == QuotaFull ==> !Fits(d, used, maxBytes, plan)
    ensures r == QuotaFull || r == DiskLow ==> EverGrows(d, plan)
    ensures used' <= used + Peak(d, plan) && (WithinQuota(used, maxBytes) ==> WithinQuota(used', maxBytes))
    ensures d' in States(d, plan)
    decreases |plan|
  {
    hide Do, Grows;
    if plan != [] {
      if Admits(d, used, maxBytes, plan[0])
        && Performed(Do(d, plan[0]), used + Grows(d, plan[0]), maxBytes, plan[1..], r, d', used') {
        PerformedMeans(Do(d, plan[0]), used + Grows(d, plan[0]), maxBytes, plan[1..], r, d', used');
      }
    }
  }

  /** Room for its peak lets every step of a plan through. */
  lemma {:induction false} PeakSuffices(d: Disk, used: int, maxBytes: nat, plan: seq<FileStep>)
    requires WithinQuota(used + Peak(d, plan), maxBytes)
    ensures Fits(d, used, maxBytes, plan)
    decreases |plan|
  {
    hide Do, Grows;
    if plan != [] {
      PeakSuffices(Do(d, plan[0]), used + Grows(d, plan[0]), maxBytes, plan[1..]);
    }
  }

  /** For a store within its quota it is the exact condition. */
  lemma {:induction false} PeakNeeded(d: Disk, used: int, maxBytes: nat, plan: seq<FileStep>)
    requires WithinQuota(used, maxBytes)
    ensures Fits(d, used, maxBytes, plan) <==> WithinQuota(used + Peak(d, plan), maxBytes)
    decreases |plan|
  {
    hide Do, Grows;
    if plan != [] && Admits(d, used, maxBytes, plan[0]) {
      PeakNeeded(Do(d, plan[0]), used + Grows(d, plan[0]), maxBytes, plan[1..]);
    }
  }

  /** The most bytes in use after any step that asks the quota; nothing where none does. */
  function Reach(d: Disk, used: int, plan: seq<FileStep>): int
    decreases |plan|
  {
    if plan == [] then 0
    else
      var next := used + Grows(d, plan[0]);
      Max(if Grows(d, plan[0]) > 0 then next else 0, Reach(Do(d, plan[0]), next, plan[1..]))
  }

  /** It is the least quota that lets the plan through. */
  lemma {:induction false} FitsReach(d: Disk, used: int, maxBytes: nat, plan: seq<FileStep>)
    ensures Fits(d, used, maxBytes, plan) <==> WithinQuota(Reach(d, used, plan), maxBytes)
    ensures Reach(d, used, plan) >= 0
    decreases |plan|
  {
    hide Do, Grows;
    if plan != [] {
      FitsReach(Do(d, plan[0]), used + Grows(d, plan[0]), maxBytes, plan[1..]);
    }
  }

  /** The same for a run, with the states it passed through. */
  lemma {:induction false} RanMeans(a: Moment, maxBytes: nat, plan: seq<FileStep>, r: Outcome, b: Moment,
                                    allowed: iset<Disk>)
    requires Ran(a, maxBytes, plan, r, b) && States(a.disk, plan) <= allowed
    ensures r == Ok ==>
              && Fits(a.disk, a.used, maxBytes, plan) && b.disk == After(a.disk, plan)
                 && b.used == a.used + Growth(a.disk, plan)
    ensures r == QuotaFull ==> !Fits(a.disk, a.used, maxBytes, plan)
    ensures WithinQuota(a.used, maxBytes) ==> WithinQuota(b.used, maxBytes)
    ensures Added(a.trace, b.trace, allowed) && b.disk in allowed
  {
    hide Performed, States, Crashes, Fits, After, Growth;
    CrashesSeen(a.disk, plan);
    PerformedMeans(a.disk, a.used, maxBytes, plan, r, b.disk, b.used);
  }

  /** A run that stopped short never took the last step. */
  lemma {:induction false} StoppedShort(d: Disk, used: int, maxBytes: nat, front: seq<FileStep>, last: FileStep,
                                        r: Outcome,
                                        d': Disk, used': int)
    requires Performed(d, used, maxBytes, front + [last], r, d', used') && r != Ok
    ensures d' in States(d, front)
    decreases |front|
  {
    hide Do, Grows, Admits;
    if front == [] {
      assert front + [last] == [last] && [last][1..] == [];
    } else {
      assert (front + [last])[1..] == front[1..] + [last];
      if Performed(Do(d, front[0]), used + Grows(d, front[0]), maxBytes, front[1..] + [last], r, d', used') {
        StoppedShort(Do(d, front[0]), used + Grows(d, front[0]), maxBytes, front[1..], last, r, d', used');
      }
    }
  }

  lemma {:induction false} RanLonger(a: Moment, maxBytes: nat, plan: seq<FileStep>, r: Outcome, b: Moment)
    requires Ran(a, maxBytes, plan, r, b)
    ensures |a.trace| <= |b.trace|
  {
  }

  lemma {:induction false} RanShort(a: Moment, maxBytes: nat, front: seq<FileStep>, last: FileStep, r: Outcome,
                                    b: Moment)
    requires Ran(a, maxBytes, front + [last], r, b) && r != Ok
    ensures b.disk in States(a.disk, front)
  {
    hide Performed, States;
    StoppedShort(a.disk, a.used, maxBytes, front, last, r, b.disk, b.used);
  }

  lemma {:induction false} StatesThen(d: Disk, p: seq<FileStep>, q: seq<FileStep>)
    ensures States(d, p + q) == States(d, p) + States(After(d, p), q) && After(d, p + q) == After(After(d, p), q)
    decreases |p|
  {
    hide Do, Seen;
    if p == [] {
      assert p + q == q;
      assert States(d, p) == Seen(d) + iset{};
    } else {
      assert (p + q)[1..] == p[1..] + q;
      StatesThen(Do(d, p[0]), p[1..], q);
    }
  }

  lemma {:induction false} LastStep(d: Disk, plan: seq<FileStep>, s: FileStep)
    ensures States(d, plan + [s]) == States(d, plan) + Seen(Do(After(d, plan), s))
    ensures After(d, plan + [s]) == Do(After(d, plan), s) && After(d, plan) in States(d, plan)
  {
    hide Do, Seen;
    var t := After(d, plan);
    StatesThen(d, plan, [s]);
    assert [s][1..] == [];
    assert States(t, [s]) == Seen(t) + (Seen(Do(t, s)) + iset{});
    assert Seen(t) <= States(d, plan) by {
      EndSeen(d, plan);
    }
    assert t in Seen(t) by {
      SeenSelf(t);
    }
  }

  lemma {:induction false} FitsLast(d: Disk, used: int, maxBytes: nat, plan: seq<FileStep>, s: FileStep)
    ensures Fits(d, used, maxBytes, plan + [s])
       <==> Fits(d, used, maxBytes, plan) && Admits(After(d, plan), used + Growth(d, plan), maxBytes, s)
    ensures Growth(d, plan + [s]) == Growth(d, plan) + Grows(After(d, plan), s)
    decreases |plan|
  {
    hide Do, Grows, Admits;
    if plan == [] {
      assert plan + [s] == [s] && [s][1..] == [];
    } else {
      assert (plan + [s])[1..] == plan[1..] + [s];
      FitsLast(Do(d, plan[0]), used + Grows(d, plan[0]), maxBytes, plan[1..], s);
    }
  }

  lemma {:induction false} OneStep(d: Disk, used: int, maxBytes: nat, s: FileStep)
    ensures After(d, [s]) == Do(d, s) && Growth(d, [s]) == Grows(d, s)
    ensures Fits(d, used, maxBytes, [s]) <==> Admits(d, used, maxBytes, s)
  {
    hide Do, Grows, Admits;
    assert [s][1..] == [];
  }

  lemma {:induction false} EndSeen(d: Disk, plan: seq<FileStep>)
    ensures Seen(After(d, plan)) <= States(d, plan)
    decreases |plan|
  {
    hide Do, Seen;
    if plan != [] {
      EndSeen(Do(d, plan[0]), plan[1..]);
    }
  }

  lemma {:induction false} SeenSelf(d: Disk)
    ensures d in Seen(d)
  {
  }

  lemma {:induction false} UntouchedFile(d: Disk, plan: seq<FileStep>, p: Path, t: Disk)
    requires !p.Temp? && t in States(d, plan)
    requires forall i :: 0 <= i < |plan| ==> plan[i].path != p && (plan[i].Place? ==> plan[i].to != p)
    ensures SameFile(d, t, p)
    decreases |plan|
  {
    hide Seen;
    if t in Seen(d) {
      SeenSame(d, t);
    } else {
      UntouchedFile(Do(d, plan[0]), plan[1..], p, t);
    }
  }

  // ---------------------------------------------------------------- plans inside one session

  predicate Inside(plan: seq<FileStep>, dir: string) {
    forall i :: 0 <= i < |plan| ==> InSession(plan[i].path, dir) && (plan[i].Place? ==> InSession(plan[i].to, dir))
  }

  /** Temporary files aside, nothing outside the session differs. */
  ghost predicate OthersKept(d: Disk, t: Disk, dir: string) {
    forall p: Path :: !p.Temp? && !InSession(p, dir) ==> SameFile(d, t, p)
  }

  lemma {:induction false} InsideKeeps(d: Disk, plan: seq<FileStep>, dir: string, t: Disk)
    requires Inside(plan, dir) && t in States(d, plan)
    ensures OthersKept(d, t, dir)
    decreases |plan|
  {
    hide Seen;
    if t in Seen(d) {
      SeenSame(d, t);
    } else {
      assert plan[0] == plan[0] && InSession(plan[0].path, dir);
      assert Inside(plan[1..], dir);
      InsideKeeps(Do(d, plan[0]), plan[1..], dir, t);
      StepKeeps(d, plan[0], dir);
      forall p: Path | !p.Temp? && !InSession(p, dir) ensures SameFile(d, t, p) {
        assert SameFile(d, Do(d, plan[0]), p) && SameFile(Do(d, plan[0]), t, p);
      }
    }
  }

  lemma {:induction false} StepKeeps(d: Disk, s: FileStep, dir: string)
    requires InSession(s.path, dir) && (s.Place? ==> InSession(s.to, dir))
    ensures OthersKept(d, Do(d, s), dir)
  {
  }

  // ---------------------------------------------------------------- starting again after a crash

  /** The bytes readers see, those of temporary files, and all that a restart counts. */
  ghost function LiveBytes(d: Disk): nat {
    Sum(Sizes(Live(d)))
  }

  ghost function TempBytes(d: Disk): nat {
    Sum(Sizes(Temps(d)))
  }

  ghost function Temps(d: Disk): Disk {
    map p | p in d && p.Temp? :: d[p]
  }

  ghost function Bytes(d: Disk): nat {
    Sum(Sizes(d))
  }

  lemma {:induction false} BytesSplit(d: Disk)
    ensures Bytes(d) == LiveBytes(d) + TempBytes(d)
  {
    hide Sum;
    SumAddsUp(Sizes(d), Sizes(Live(d)), Sizes(Temps(d)));
  }

  /** The longest text the plan writes. */
  function Longest(plan: seq<FileStep>): nat {
    if plan == [] then 0 else Max(if plan[0].Put? then |plan[0].data| else 0, Longest(plan[1..]))
  }

  /** A crash leaves at most a part of one text in a temporary file, and a plan that ended or
      failed leaves none. */
  lemma {:induction false} CrashTemps(d: Disk, plan: seq<FileStep>, t: Disk)
    requires Lasting(plan) && t in Crashes(d, plan)
    ensures TempBytes(d) <= TempBytes(t) <= TempBytes(d) + Longest(plan)
    decreases |plan|
  {
    hide Do, Taking, TempBytes;
    if t != d {
      assert Lasting([plan[0]]) && Lasting(plan[1..]);
      TakingTemps(d, plan[0]);
      if t !in Taking(d, plan[0]) {
        CrashTemps(Do(d, plan[0]), plan[1..], t);
      }
    }
  }

  lemma {:induction false} TakingTemps(d: Disk, s: FileStep)
    requires Lasting([s])
    ensures Temps(Do(d, s)) == Temps(d) && TempBytes(Do(d, s)) == TempBytes(d)
    ensures forall t :: t in Taking(d, s) ==>
              TempBytes(d) <= TempBytes(t) <= TempBytes(d) + if s.Put? then |s.data| else 0
  {
    hide Sum;
    assert [s][0] == s;
    assert Temps(Do(d, s)) == Temps(d);
    forall t | t in Taking(d, s) ensures TempBytes(d) <= TempBytes(t) <= TempBytes(d) + if s.Put? then |s.data| else 0 {
      if t != d && t != Do(d, s) {
        var temp: Path, k :| IsHalf(d, s.data, t, temp, k);
        SumWith(Sizes(Temps(d)), temp, k);
        assert Sizes(Temps(t)) == Sizes(Temps(d))[temp := k];
      }
    }
  }

  lemma {:induction false} PerformedTemps(d: Disk, used: int, maxBytes: nat, plan: seq<FileStep>, r: Outcome, d': Disk,
                                          used': int)
    requires Lasting(plan) && Performed(d, used, maxBytes, plan, r, d', used')
    ensures TempBytes(d') == TempBytes(d) && d' in Crashes(d, plan)
    decreases |plan|
  {
    hide Do, Taking, TempBytes, Grows, Admits, MayFail;
    if plan != [] {
      assert Lasting([plan[0]]) && Lasting(plan[1..]);
      TakingTemps(d, plan[0]);
      if Admits(d, used, maxBytes, plan[0])
        && Performed(Do(d, plan[0]), used + Grows(d, plan[0]), maxBytes, plan[1..], r, d', used') {
        PerformedTemps(Do(d, plan[0]), used + Grows(d, plan[0]), maxBytes, plan[1..], r, d', used');
      }
    }
  }

  lemma {:induction false} StepBytes(d: Disk, s: FileStep)
    requires !s.path.Temp? && (s.Place? ==> !s.to.Temp?)
    ensures LiveBytes(Do(d, s)) == LiveBytes(d) + Grows(d, s)
  {
    hide Sum;
    var was := Sizes(Live(d));
    match s
    case Put(p, data) =>
      SumWith(was, p, |data|);
      assert Sizes(Live(d[p := data])) == was[p := |data|];
    case Drop(p) =>
      SumMinus(was, p);
      assert Sizes(Live(d - {p})) == was - {p};
    case Place(p, to) =>
      if p in d && to !in d {
        SumMinus(was, p);
        SumWith(was - {p}, to, |d[p]|);
        assert Sizes(Live(Do(d, s))) == (was - {p})[to := |d[p]|];
      }
  }

  /** The step has been taken: taking it again changes nothing. */
  predicate Taken(t: Disk, s: FileStep) {
    match s
    case Put(p, data) => p in t && t[p] == data
    case Drop(p) => p !in t
    case Place(p, _) => p !in t
  }

  /** No later step of the plan touches the file an earlier one was about, and whatever is to
      be placed finds its name free. */
  predicate Orderly(d: Disk, plan: seq<FileStep>) {
    && Lasting(plan)
    && (forall i :: 0 <= i < |plan| && plan[i].Place? ==>
          plan[i].to != plan[i].path && !(plan[i].path in d && plan[i].to in d))
    && (forall i, j :: 0 <= i < j < |plan| ==> Apart(plan[i], plan[j]))
  }

  /** No step is about a temporary file. */
  predicate Lasting(plan: seq<FileStep>) {
    forall i :: 0 <= i < |plan| ==> !plan[i].path.Temp? && (plan[i].Place? ==> !plan[i].to.Temp?)
  }

  predicate Apart(s: FileStep, later: FileStep) {
    && s.path != later.path
    && (later.Place? ==> later.to != s.path && (s.Place? ==> s.to != later.path && s.to != later.to))
  }

  lemma {:induction false} OrderlyNext(d: Disk, plan: seq<FileStep>)
    requires Orderly(d, plan) && plan != []
    ensures Orderly(Do(d, plan[0]), plan[1..]) && Taken(Do(d, plan[0]), plan[0])
    ensures forall j :: 0 < j < |plan| ==> Apart(plan[0], plan[j])
  {
    forall i | 0 <= i < |plan| - 1 && plan[1..][i].Place?
      ensures plan[1..][i].to != plan[1..][i].path
              && !(plan[1..][i].path in Do(d, plan[0]) && plan[1..][i].to in Do(d, plan[0]))
    {
      assert plan[1..][i] == plan[i + 1] && Apart(plan[0], plan[i + 1]);
    }
    forall i, j | 0 <= i < j < |plan| - 1 ensures Apart(plan[1..][i], plan[1..][j]) {
      assert Apart(plan[i + 1], plan[j + 1]);
    }
  }

  lemma {:induction false} StillTaken(d: Disk, s: FileStep, later: FileStep)
    requires Taken(d, s) && Apart(s, later)
    ensures Taken(Do(d, later), s)
  {
  }

  /** From any crash state of a plan, the bytes on disk plus what the whole plan may then still
      need exceed what they were at its start by the new temporary bytes at the most. */
  lemma {:induction false} RerunNeedsNoMore(d: Disk, plan: seq<FileStep>, t: Disk)
    requires Orderly(d, plan) && t in Crashes(d, plan)
    ensures Bytes(t) + Peak(t, plan) <= Bytes(d) + Peak(d, plan) + TempBytes(t) - TempBytes(d)
    ensures TempBytes(d) <= TempBytes(t) <= TempBytes(d) + Longest(plan)
  {
    hide LiveBytes, Bytes, TempBytes, Crashes, States, Peak, Orderly;
    CrashesSeen(d, plan);
    BytesSplit(d);
    BytesSplit(t);
    OrderlyLasts(d, plan);
    CrashTemps(d, plan, t);
    RerunLive(d, plan, t);
  }

  lemma {:induction false} RerunLive(d: Disk, plan: seq<FileStep>, t: Disk)
    requires Orderly(d, plan) && t in States(d, plan)
    ensures LiveBytes(t) + Peak(t, plan) <= LiveBytes(d) + Peak(d, plan)
  {
    assert [] + plan == plan;
    RerunFrom(d, [], plan, t);
  }

  lemma {:induction false} RerunFrom(d: Disk, done: seq<FileStep>, plan: seq<FileStep>, t: Disk)
    requires Orderly(d, plan) && t in States(d, plan)
    requires Lasting(done) && forall i :: 0 <= i < |done| ==> Taken(d, done[i])
    requires forall i, j :: 0 <= i < |done| && 0 <= j < |plan| ==> Apart(done[i], plan[j])
    ensures LiveBytes(t) + Peak(t, done + plan) <= LiveBytes(d) + Peak(d, plan)
    decreases |plan|
  {
    hide Seen, LiveBytes, Do, Grows, Apart, Taken, Orderly;
    if t in Seen(d) {
      assert Lasting(done + plan) by {
        OrderlyLasts(d, plan);
      }
      SeenPeak(d, t, done + plan);
      PeakOfTaken(d, done, plan);
    } else {
      var s := plan[0];
      DoneLonger(d, done, plan);
      OrderlyNext(d, plan);
      RerunFrom(Do(d, s), done + [s], plan[1..], t);
      assert done + [s] + plan[1..] == done + plan;
      FirstStep(d, plan);
      StepBytes(d, s);
    }
  }

  lemma {:induction false} OrderlyLasts(d: Disk, plan: seq<FileStep>)
    requires Orderly(d, plan)
    ensures Lasting(plan)
  {
  }

  lemma {:induction false} FirstStep(d: Disk, plan: seq<FileStep>)
    requires Orderly(d, plan) && plan != []
    ensures !plan[0].path.Temp? && (plan[0].Place? ==> !plan[0].to.Temp?)
    ensures Grows(d, plan[0]) + Peak(Do(d, plan[0]), plan[1..]) <= Peak(d, plan)
  {
  }

  lemma {:induction false} PeakOfTaken(d: Disk, done: seq<FileStep>, plan: seq<FileStep>)
    requires forall i :: 0 <= i < |done| ==> Taken(d, done[i])
    ensures Peak(d, done + plan) == Peak(d, plan)
    decreases |done|
  {
    if done == [] {
      assert done + plan == plan;
    } else {
      TakenAgain(d, done[0]);
      assert (done + plan)[1..] == done[1..] + plan;
      PeakOfTaken(d, done[1..], plan);
    }
  }

  lemma {:induction false} TakenAgain(d: Disk, s: FileStep)
    requires Taken(d, s)
    ensures Do(d, s) == d && Grows(d, s) == 0
  {
  }

  lemma {:induction false} SeenPeak(d: Disk, t: Disk, plan: seq<FileStep>)
    requires t in Seen(d)
    requires Lasting(plan)
    ensures LiveBytes(t) == LiveBytes(d) && Peak(t, plan) == Peak(d, plan)
    decreases |plan|
  {
    if plan != [] {
      SeenStep(d, t, plan[0]);
      SeenPeak(Do(d, plan[0]), Do(t, plan[0]), plan[1..]);
    }
  }

  lemma {:induction false} SeenStep(d: Disk, t: Disk, s: FileStep)
    requires t in Seen(d) && !s.path.Temp? && (s.Place? ==> !s.to.Temp?)
    ensures Do(t, s) in Seen(Do(d, s)) && Grows(t, s) == Grows(d, s)
  {
    SeenSame(d, t);
    assert SameFile(d, t, s.path);
    assert s.Place? ==> SameFile(d, t, s.to);
    assert Live(Do(t, s)) == Live(Do(d, s)) by {
      forall p: Path | !p.Temp? ensures SameFile(Do(d, s), Do(t, s), p) {
        assert SameFile(d, t, p);
      }
      SameLive(Do(d, s), Do(t, s));
    }
  }

  lemma {:induction false} SameLive(d: Disk, t: Disk)
    requires forall p: Path :: !p.Temp? ==> SameFile(d, t, p)
    ensures Live(d) == Live(t)
  {
    forall p ensures p in Live(d) <==> p in Live(t) {
      if !p.Temp? {
        assert SameFile(d, t, p);
      }
    }
    forall p | p in Live(d) ensures Live(d)[p] == Live(t)[p] {
      assert SameFile(d, t, p);
    }
  }

  // ---------------------------------------------------------------- the least quota, again after a crash

  ghost predicate Raised(before: int, after: int, c: nat) {
    after == if before == 0 then 0 else before + c
  }

  /** Bytes no step touches raise the least quota by as much, if there is one. */
  lemma {:induction false} ReachShift(d: Disk, used: int, c: nat, plan: seq<FileStep>)
    requires Lasting(plan) && used >= LiveBytes(d)
    ensures Raised(Reach(d, used, plan), Reach(d, used + c, plan), c) && Reach(d, used, plan) >= 0
    decreases |plan|
  {
    hide Do, Grows, LiveBytes;
    if plan != [] {
      StepBytes(d, plan[0]);
      ReachShift(Do(d, plan[0]), used + Grows(d, plan[0]), c, plan[1..]);
    }
  }

  /** Taking a plan up again asks for no more than the plan did, and ends with as many bytes. */
  lemma {:induction false} RerunReach(d: Disk, used: int, plan: seq<FileStep>, t: Disk)
    requires Orderly(d, plan) && t in States(d, plan)
    ensures Reach(t, used + LiveBytes(t) - LiveBytes(d), plan) <= Reach(d, used, plan)
    ensures LiveBytes(t) + Growth(t, plan) == LiveBytes(d) + Growth(d, plan)
  {
    assert [] + plan == plan;
    RerunReachFrom(d, used, [], plan, t);
  }

  lemma {:induction false} RerunReachFrom(d: Disk, used: int, done: seq<FileStep>, plan: seq<FileStep>, t: Disk)
    requires Orderly(d, plan) && t in States(d, plan)
    requires Lasting(done) && forall i :: 0 <= i < |done| ==> Taken(d, done[i])
    requires forall i, j :: 0 <= i < |done| && 0 <= j < |plan| ==> Apart(done[i], plan[j])
    ensures Reach(t, used + LiveBytes(t) - LiveBytes(d), done + plan) <= Reach(d, used, plan)
    ensures LiveBytes(t) + Growth(t, done + plan) == LiveBytes(d) + Growth(d, plan)
    decreases |plan|
  {
    hide Seen, LiveBytes, Do, Grows, Apart, Taken, Orderly;
    if t in Seen(d) {
      assert Lasting(done + plan) by {
        OrderlyLasts(d, plan);
      }
      SeenReach(d, t, used, done + plan);
      ReachOfTaken(d, used, done, plan);
    } else {
      var s := plan[0];
      DoneLonger(d, done, plan);
      OrderlyNext(d, plan);
      RerunReachFrom(Do(d, s), used + Grows(d, s), done + [s], plan[1..], t);
      assert done + [s] + plan[1..] == done + plan;
      FirstStep(d, plan);
      StepBytes(d, s);
    }
  }

  /** The step just taken joins the ones done. */
  lemma {:induction false} DoneLonger(d: Disk, done: seq<FileStep>, plan: seq<FileStep>)
    requires Orderly(d, plan) && plan != []
    requires Lasting(done) && forall i :: 0 <= i < |done| ==> Taken(d, done[i])
    requires forall i, j :: 0 <= i < |done| && 0 <= j < |plan| ==> Apart(done[i], plan[j])
    ensures var longer, d' := done + [plan[0]], Do(d, plan[0]);
            && Lasting(longer) && (forall i :: 0 <= i < |longer| ==> Taken(d', longer[i]))
            && forall i, j :: 0 <= i < |longer| && 0 <= j < |plan[1..]| ==> Apart(longer[i], plan[1..][j])
  {
    hide Do, Apart, Taken, Orderly;
    var s := plan[0];
    OrderlyNext(d, plan);
    OrderlyLasts(d, plan);
    assert Lasting(done + [s]);
    forall i | 0 <= i < |done + [s]| ensures Taken(Do(d, s), (done + [s])[i]) {
      if i < |done| {
        assert Apart(done[i], plan[0]);
        StillTaken(d, done[i], s);
      }
    }
    forall i, j | 0 <= i < |done + [s]| && 0 <= j < |plan[1..]| ensures Apart((done + [s])[i], plan[1..][j]) {
      assert plan[1..][j] == plan[j + 1];
    }
  }

  lemma {:induction false} ReachOfTaken(d: Disk, used: int, done: seq<FileStep>, plan: seq<FileStep>)
    requires forall i :: 0 <= i < |done| ==> Taken(d, done[i])
    ensures Reach(d, used, done + plan) == Reach(d, used, plan) && Growth(d, done + plan) == Growth(d, plan)
    decreases |done|
  {
    if done == [] {
      assert done + plan == plan;
    } else {
      TakenAgain(d, done[0]);
      assert (done + plan)[1..] == done[1..] + plan;
      ReachOfTaken(d, used, done[1..], plan);
      FitsReach(d, used, 0, done[1..] + plan);
    }
  }

  lemma {:induction false} SeenReach(d: Disk, t: Disk, used: int, plan: seq<FileStep>)
    requires t in Seen(d) && Lasting(plan)
    ensures LiveBytes(t) == LiveBytes(d) && Reach(t, used, plan) == Reach(d, used, plan)
            && Growth(t, plan) == Growth(d, plan)
    decreases |plan|
  {
    hide Do, Grows, Seen;
    assert LiveBytes(t) == LiveBytes(d) by {
      SeenBytes(d, t);
    }
    if plan != [] {
      SeenStep(d, t, plan[0]);
      SeenReach(Do(d, plan[0]), Do(t, plan[0]), used + Grows(d, plan[0]), plan[1..]);
    }
  }

  lemma {:induction false} SeenBytes(d: Disk, t: Disk)
    requires t in Seen(d)
    ensures LiveBytes(t) == LiveBytes(d)
  {
  }
}
