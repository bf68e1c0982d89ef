/** Recovery taken up again after a crash: which quotas let the later attempt through, given
    that they let the first one through, and a run in which interruptions use the quota up. */
module RecoveryRestart {
  import opened Common
  import opened SpoolFiles
  import opened FilePlans
  import opened Spool
  import opened Journal
  import opened FrameRecording
  import opened Finalization
  import opened VideoFinalization
  import opened RecoveryRoom

  /** The file steps of a whole recovery. */
  ghost function RecoveryPlan(f: Formats, d: Disk, dirs: seq<string>, now: string -> int): seq<FileStep>
    decreases |dirs|
  {
    if dirs == [] then [] else PlanAt(f, d, dirs[0], now(dirs[0])) + RecoveryPlan(f, d, dirs[1..], now)
  }

  lemma {:induction false} RecoveryPlanThen(f: Formats, d: Disk, p: seq<string>, q: seq<string>, now: string -> int)
    ensures RecoveryPlan(f, d, p + q, now) == RecoveryPlan(f, d, p, now) + RecoveryPlan(f, d, q, now)
    decreases |p|
  {
    hide PlanAt;
    if p == [] {
      assert p + q == q;
    } else {
      assert (p + q)[1..] == p[1..] + q;
      RecoveryPlanThen(f, d, p[1..], q, now);
    }
  }

  lemma {:induction false} OneRecovery(f: Formats, d: Disk, dir: string, now: string -> int)
    ensures RecoveryPlan(f, d, [dir], now) == PlanAt(f, d, dir, now(dir))
  {
    hide PlanAt;
    assert [dir][1..] == [];
  }

  // ---------------------------------------------------------------- other sessions' files

  predicate Among(plan: seq<FileStep>, dirs: seq<string>) {
    forall i :: 0 <= i < |plan| ==> StepAmong(plan[i], dirs)
  }

  predicate StepAmong(s: FileStep, dirs: seq<string>) {
    exists k :: 0 <= k < |dirs| && InSession(s.path, dirs[k]) && (s.Place? ==> InSession(s.to, dirs[k]))
  }

  lemma {:induction false} PlanAmong(f: Formats, d: Disk, dirs: seq<string>, now: string -> int)
    ensures Among(RecoveryPlan(f, d, dirs, now), dirs)
    decreases |dirs|
  {
    hide PlanAt;
    if dirs != [] {
      var first, rest := PlanAt(f, d, dirs[0], now(dirs[0])), RecoveryPlan(f, d, dirs[1..], now);
      PlanInside(f, d, dirs[0], now(dirs[0]));
      PlanAmong(f, d, dirs[1..], now);
      forall i | 0 <= i < |first + rest| ensures StepAmong((first + rest)[i], dirs) {
        if i >= |first| {
          assert StepAmong(rest[i - |first|], dirs[1..]);
          var k :| 0 <= k < |dirs[1..]| && InSession(rest[i - |first|].path, dirs[1..][k])
                   && (rest[i - |first|].Place? ==> InSession(rest[i - |first|].to, dirs[1..][k]));
          assert dirs[k + 1] == dirs[1..][k];
        }
      }
    }
  }

  /** Closing some sessions leaves the files of every other one alone at every crash point. */
  lemma {:induction false} AmongKeeps(d: Disk, plan: seq<FileStep>, dirs: seq<string>, dir: string, t: Disk)
    requires Among(plan, dirs) && dir !in dirs && t in States(d, plan)
    ensures OwnSame(d, t, dir)
  {
    hide States;
    forall p: Path | InSession(p, dir) ensures SameFile(d, t, p) {
      forall i | 0 <= i < |plan| ensures plan[i].path != p && (plan[i].Place? ==> plan[i].to != p) {
        assert StepAmong(plan[i], dirs);
      }
      UntouchedFile(d, plan, p, t);
    }
  }

  ghost predicate AllOwnSame(d: Disk, t: Disk, dirs: seq<string>) {
    forall i :: 0 <= i < |dirs| ==> OwnSame(d, t, dirs[i])
  }

  lemma {:induction false} SameRecovery(f: Formats, d: Disk, t: Disk, used: int, dirs: seq<string>, now: string -> int)
    requires AllOwnSame(d, t, dirs)
    ensures RecoveryPlan(f, t, dirs, now) == RecoveryPlan(f, d, dirs, now)
    ensures AllReach(f, t, used, dirs, now) == AllReach(f, d, used, dirs, now)
    decreases |dirs|
  {
    hide OwnSame, PlanAt, Reach, Growth;
    if dirs != [] {
      assert OwnSame(d, t, dirs[0]);
      SameSteps(f, d, t, dirs[0], now(dirs[0]));
      assert AllOwnSame(d, t, dirs[1..]);
      SameRecovery(f, d, t, used + Growth(d, PlanAt(f, d, dirs[0], now(dirs[0]))), dirs[1..], now);
    }
  }

  lemma {:induction false} FirstKeepsRest(f: Formats, d: Disk, dirs: seq<string>, now: string -> int, t: Disk)
    requires dirs != [] && Distinct(dirs) && t in States(d, PlanAt(f, d, dirs[0], now(dirs[0])))
    ensures AllOwnSame(d, t, dirs[1..])
  {
    hide OwnSame, PlanAt, States, OthersKept;
    PlanInside(f, d, dirs[0], now(dirs[0]));
    InsideKeeps(d, PlanAt(f, d, dirs[0], now(dirs[0])), dirs[0], t);
    forall i | 0 <= i < |dirs[1..]| ensures OwnSame(d, t, dirs[1..][i]) {
      assert dirs[1..][i] == dirs[i + 1];
      KeptIsOwnSame(d, t, dirs[0], dirs[i + 1]);
    }
  }

  // ---------------------------------------------------------------- the least quota of a later attempt

  /** Up to and in the middle of the session the crash struck, the later attempt asks for no
      more, were there no temporary files. */
  lemma {:induction false} LaterReach(f: Formats, d: Disk, used: int, dirs: seq<string>, now: string -> int, t: Disk)
    requires GoodFormats(f) && AllWhole(f, d) && Distinct(dirs) && t in States(d, RecoveryPlan(f, d, dirs, now))
    ensures AllReach(f, t, used + LiveBytes(t) - LiveBytes(d), dirs, now) <= AllReach(f, d, used, dirs, now)
    decreases |dirs|
  {
    hide PlanAt, States, AllWhole, GoodFormats, LiveBytes, Reach, Growth, AllOwnSame, Whole, After;
    if dirs == [] {
      return;
    }
    var dir, rest := dirs[0], dirs[1..];
    var plan, more := PlanAt(f, d, dir, now(dir)), RecoveryPlan(f, d, rest, now);
    StatesThen(d, plan, more);
    if t in States(d, plan) {
      WholeOne(f, d, dir);
      CrashedNumbers(f, d, dir, now(dir), t, used);
      FirstKeepsRest(f, d, dirs, now, t);
      SameRecovery(f, d, t, used + Growth(d, plan), rest, now);
    } else {
      LaterReachRest(f, d, used, dirs, now, t);
    }
  }

  lemma {:induction false} LaterReachRest(f: Formats, d: Disk, used: int, dirs: seq<string>, now: string -> int,
                                          t: Disk)
    requires GoodFormats(f) && AllWhole(f, d) && Distinct(dirs) && dirs != []
    requires t in States(After(d, PlanAt(f, d, dirs[0], now(dirs[0]))), RecoveryPlan(f, d, dirs[1..], now))
    ensures AllReach(f, t, used + LiveBytes(t) - LiveBytes(d), dirs, now) <= AllReach(f, d, used, dirs, now)
    decreases |dirs|, 0
  {
    hide PlanAt, States, AllWhole, GoodFormats, LiveBytes, Reach, Growth, AllOwnSame, Whole, After, Orderly;
    var dir, rest := dirs[0], dirs[1..];
    var plan := PlanAt(f, d, dir, now(dir));
    var d1, used1 := After(d, plan), used + Growth(d, plan);
    AfterFirst(f, d, dirs, now);
    SameRecovery(f, d, d1, used1, rest, now);
    LaterReach(f, d1, used1, rest, now, t);
    PlanAmong(f, d1, rest, now);
    AmongKeeps(d1, RecoveryPlan(f, d1, rest, now), rest, dir, t);
    SameSteps(f, d1, t, dir, now(dir));
    NoStepsNoBytes(t, used + LiveBytes(t) - LiveBytes(d));
    FitsReach(d, used, 0, plan);
  }

  /** Once the first session is closed: it needs nothing more, the others are as they were. */
  lemma {:induction false} AfterFirst(f: Formats, d: Disk, dirs: seq<string>, now: string -> int)
    requires GoodFormats(f) && AllWhole(f, d) && Distinct(dirs) && dirs != []
    ensures var plan := PlanAt(f, d, dirs[0], now(dirs[0]));
            var d1 := After(d, plan);
            && AllWhole(f, d1) && AllOwnSame(d, d1, dirs[1..]) && PlanAt(f, d1, dirs[0], now(dirs[0])) == []
            && LiveBytes(d1) == LiveBytes(d) + Growth(d, plan) && dirs[0] !in dirs[1..] && Distinct(dirs[1..])
            && Lasting(plan) && d1 in States(d, plan)
  {
    hide PlanAt, States, AllWhole, GoodFormats, LiveBytes, Growth, AllOwnSame, Whole, After, Orderly, Seen;
    var plan := PlanAt(f, d, dirs[0], now(dirs[0]));
    EndSeen(d, plan);
    SeenSelf(After(d, plan));
    CrashedWhole(f, d, dirs[0], now(dirs[0]), After(d, plan));
    FirstKeepsRest(f, d, dirs, now, After(d, plan));
    ClosedAfter(f, d, dirs[0], now(dirs[0]));
    WholeOne(f, d, dirs[0]);
    PlanIsOrderly(f, d, dirs[0], now(dirs[0]));
    OrderlyLasts(d, plan);
    GrowthBytes(d, plan);
  }

  lemma {:induction false} WholeOne(f: Formats, d: Disk, dir: string)
    requires AllWhole(f, d)
    ensures Whole(f, d, dir)
  {
  }

  /** Bytes that no session touches raise the least quota by as much, if there is one. */
  lemma {:induction false} AllReachShift(f: Formats, d: Disk, used: int, c: nat, dirs: seq<string>, now: string -> int)
    requires GoodFormats(f) && AllWhole(f, d) && Distinct(dirs) && used >= LiveBytes(d)
    ensures Raised(AllReach(f, d, used, dirs, now), AllReach(f, d, used + c, dirs, now), c)
    ensures AllReach(f, d, used, dirs, now) >= 0
    decreases |dirs|
  {
    hide PlanAt, States, AllWhole, GoodFormats, LiveBytes, Reach, Growth, AllOwnSame, After;
    if dirs != [] {
      var plan := PlanAt(f, d, dirs[0], now(dirs[0]));
      var d1, used1 := After(d, plan), used + Growth(d, plan);
      AfterFirst(f, d, dirs, now);
      ReachShift(d, used, c, plan);
      AllReachShift(f, d1, used1, c, dirs[1..], now);
      SameRecovery(f, d, d1, used1, dirs[1..], now);
      SameRecovery(f, d, d1, used1 + c, dirs[1..], now);
    }
  }

  /** The least quota, counting only the bytes readers see. */
  ghost function LiveReach(f: Formats, d: Disk, dirs: seq<string>, now: string -> int): int {
    AllReach(f, d, LiveBytes(d), dirs, now)
  }

  /** The steps taken have freed the bytes the crash left in temporary files: it left no more
      of them than the most the recovery still has to hold has come down by. */
  ghost predicate Freed(f: Formats, d: Disk, t: Disk, dirs: seq<string>, now: string -> int) {
    LiveReach(f, t, dirs, now) == 0
    || TempBytes(t) - TempBytes(d) <= LiveReach(f, d, dirs, now) - LiveReach(f, t, dirs, now)
  }

  /** Every quota that let the first attempt through lets a later one through that starts from
      a crash of the first, if and only if the steps taken had freed the temporary bytes it
      left. Without such bytes they always have. */
  lemma {:induction false} LaterAttemptFits(f: Formats, d: Disk, dirs: seq<string>, now: string -> int,
                                            later: string -> int, t: Disk)
    requires GoodFormats(f) && AllWhole(f, d) && Distinct(dirs) && AllSameLengths(f, dirs, now, later)
    requires t in Crashes(d, RecoveryPlan(f, d, dirs, now))
    ensures Freed(f, d, t, dirs, now) <==>
            forall maxBytes: nat :: AllFit(f, d, Bytes(d), maxBytes, dirs, now) ==>
              AllFit(f, t, Bytes(t), maxBytes, dirs, later)
    ensures 0 <= LiveReach(f, t, dirs, now) <= LiveReach(f, d, dirs, now)
    ensures TempBytes(t) == TempBytes(d) ==> Freed(f, d, t, dirs, now)
  {
    hide AllWhole, GoodFormats, LiveBytes, TempBytes, Bytes, AllReach, AllFit, Crashes, States, AllSameLengths,
      RecoveryPlan;
    CrashesSeen(d, RecoveryPlan(f, d, dirs, now));
    CrashesWhole(f, d, dirs, now, t);
    LaterReach(f, d, LiveBytes(d), dirs, now, t);
    BytesSplit(d);
    BytesSplit(t);
    AllReachShift(f, d, LiveBytes(d), TempBytes(d), dirs, now);
    AllReachShift(f, t, LiveBytes(t), TempBytes(t), dirs, now);
    NeedAtAnotherTime(f, t, Bytes(t), dirs, now, later);
    var first, again := AllReach(f, d, Bytes(d), dirs, now), AllReach(f, t, Bytes(t), dirs, later);
    assert Freed(f, d, t, dirs, now) <==> again == 0 || again <= first;
    if Freed(f, d, t, dirs, now) {
      forall maxBytes: nat | AllFit(f, d, Bytes(d), maxBytes, dirs, now)
        ensures AllFit(f, t, Bytes(t), maxBytes, dirs, later) {
        AllFitReach(f, d, Bytes(d), maxBytes, dirs, now);
        AllFitReach(f, t, Bytes(t), maxBytes, dirs, later);
      }
    } else {
      AllFitReach(f, d, Bytes(d), first, dirs, now);
      AllFitReach(f, t, Bytes(t), first, dirs, later);
      assert AllFit(f, d, Bytes(d), first, dirs, now) && !AllFit(f, t, Bytes(t), first, dirs, later);
    }
  }

  lemma {:induction false} CrashesWhole(f: Formats, d: Disk, dirs: seq<string>, now: string -> int, t: Disk)
    requires GoodFormats(f) && AllWhole(f, d) && Distinct(dirs) && t in States(d, RecoveryPlan(f, d, dirs, now))
    ensures AllWhole(f, t)
    decreases |dirs|
  {
    hide PlanAt, States, AllWhole, GoodFormats, AllOwnSame, After, Seen, LiveBytes, Growth;
    if dirs == [] {
      NobodyOpened(f, d, t);
      return;
    }
    var plan, rest := PlanAt(f, d, dirs[0], now(dirs[0])), dirs[1..];
    StatesThen(d, plan, RecoveryPlan(f, d, rest, now));
    if t in States(d, plan) {
      CrashedWhole(f, d, dirs[0], now(dirs[0]), t);
    } else {
      AfterFirst(f, d, dirs, now);
      SameRecovery(f, d, After(d, plan), 0, rest, now);
      CrashesWhole(f, After(d, plan), rest, now, t);
    }
  }

  lemma {:induction false} NobodyOpened(f: Formats, d: Disk, t: Disk)
    requires AllWhole(f, d) && t in States(d, [])
    ensures AllWhole(f, t)
  {
    hide Whole, Seen;
    assert States(d, []) == Seen(d) + iset{};
    SeenSame(d, t);
    forall dir ensures Whole(f, t, dir) {
      assert OwnSame(d, t, dir);
      StaysWhole(f, d, t, dir);
    }
  }

  /** A crash anywhere in a recovery leaves a disk that needs no more room but for the
      temporary bytes left. */
  lemma {:induction false} CrashesRoomy(f: Formats, d: Disk, dirs: seq<string>, all: seq<string>, now: string -> int,
                                        t: Disk)
    requires GoodFormats(f) && AllWhole(f, d) && Distinct(dirs) && Distinct(all) && Elements(dirs) <= Elements(all)
    requires t in Crashes(d, RecoveryPlan(f, d, dirs, now))
    ensures t in Roomy(f, d, all, now)
    decreases |dirs|
  {
    hide PlanAt, Crashes, States, AllWhole, GoodFormats, AllOwnSame, After, LiveBytes, Growth, Roomy, Need, LongestOf,
      TempBytes;
    if dirs == [] {
      assert t == d by {
        NoCrash(d, t);
      }
      RoomySelf(f, d, all, now);
      return;
    }
    var plan, rest := PlanAt(f, d, dirs[0], now(dirs[0])), dirs[1..];
    var d1 := After(d, plan);
    assert dirs[0] in Elements(dirs);
    CrashesThen(d, plan, RecoveryPlan(f, d, rest, now));
    NeedGrowsByTemps(f, d, all, now, dirs[0]);
    if t !in Crashes(d, plan) {
      AfterFirst(f, d, dirs, now);
      EndCrash(d, plan);
      SameRecovery(f, d, d1, 0, rest, now);
      assert Elements(rest) <= Elements(dirs);
      CrashesRoomy(f, d1, rest, all, now, t);
      RoomyTrans(f, d, d1, t, all, now);
    }
  }

  lemma {:induction false} NoCrash(d: Disk, t: Disk)
    requires t in Crashes(d, [])
    ensures t == d
  {
    assert Crashes(d, []) == iset{d} + iset{};
  }

  lemma {:induction false} RoomySelf(f: Formats, d: Disk, dirs: seq<string>, now: string -> int)
    requires AllWhole(f, d)
    ensures d in Roomy(f, d, dirs, now)
  {
    hide Need, LongestOf, TempBytes, AllWhole;
  }

  lemma {:induction false} RoomyTrans(f: Formats, d: Disk, t: Disk, u: Disk, dirs: seq<string>, now: string -> int)
    requires t in Roomy(f, d, dirs, now) && u in Roomy(f, t, dirs, now) && TempBytes(t) == TempBytes(d)
    ensures u in Roomy(f, d, dirs, now)
  {
    hide Need, LongestOf, TempBytes, AllWhole;
  }

  lemma {:induction false} EndCrash(d: Disk, plan: seq<FileStep>)
    requires Lasting(plan)
    ensures After(d, plan) in Crashes(d, plan) && TempBytes(After(d, plan)) == TempBytes(d)
    decreases |plan|
  {
    hide Do, Taking, TempBytes;
    if plan != [] {
      assert Lasting([plan[0]]) && Lasting(plan[1..]);
      TakingTemps(d, plan[0]);
      EndCrash(Do(d, plan[0]), plan[1..]);
    }
  }

  /** It also leaves every session reporting the same. */
  lemma {:induction false} CrashesReport(f: Formats, d: Disk, dirs: seq<string>, now: string -> int, t: Disk)
    requires GoodFormats(f) && AllWhole(f, d) && Distinct(dirs) && ReservesGone(f, d)
    requires t in States(d, RecoveryPlan(f, d, dirs, now))
    ensures SameReports(f, d, t)
    decreases |dirs|
  {
    hide PlanAt, States, AllWhole, GoodFormats, AllOwnSame, After, LiveBytes, Growth, SameReports, ReservesGone, Seen,
      Whole;
    if dirs == [] {
      assert States(d, []) == Seen(d) + iset{} by {
        NoStates(d);
      }
      SeenReports(f, d, t);
      return;
    }
    var plan, rest := PlanAt(f, d, dirs[0], now(dirs[0])), dirs[1..];
    var d1 := After(d, plan);
    StatesThen(d, plan, RecoveryPlan(f, d, rest, now));
    AfterFirst(f, d, dirs, now);
    WholeOne(f, d, dirs[0]);
    PlanReports(f, d, dirs[0], now(dirs[0]));
    if t !in States(d, plan) {
      SameRecovery(f, d, d1, 0, rest, now);
      ReportsImply(f, d, d1);
      CrashesReport(f, d1, rest, now, t);
      SameReportsTrans(f, d, d1, t);
    }
  }

  lemma {:induction false} NoStates(d: Disk)
    ensures States(d, []) == Seen(d) + iset{}
  {
  }

  lemma {:induction false} PlanReports(f: Formats, d: Disk, dir: string, now: int)
    requires GoodFormats(f) && Whole(f, d, dir) && ReservesGone(f, d)
    ensures forall t :: t in States(d, PlanAt(f, d, dir, now)) ==> SameReports(f, d, t)
  {
    hide States, SameReports, ReservesGone, GoodFormats, ChunksAt, Recoverable, VideoPlan, FramesPlan, VideoBytes, Seen;
    if OpenVideo(f, d, dir) {
      var s := Revived(SessionAt(f, d, dir).value, now);
      var entries, audio := ChunksAt(f, d, VideoJournal(dir)), ChunksAt(f, d, AudioJournal(dir));
      VideoStates(f, d, dir, s, entries, audio, s.separateAudio, now);
      assert forall t :: t in States(d, PlanAt(f, d, dir, now)) ==> t in Resumable(f, d);
    } else if OpenAt(f, d, dir) {
      FramesStates(f, d, dir, Revived(SessionAt(f, d, dir).value, now), Recoverable(f, d, dir), now);
      assert forall t :: t in States(d, PlanAt(f, d, dir, now)) ==> t in Resumable(f, d);
    } else {
      NoStates(d);
      forall t | t in Seen(d) ensures SameReports(f, d, t) {
        SeenReports(f, d, t);
      }
    }
  }

  // ---------------------------------------------------------------- interruptions that use the quota up

  /** An image sequence that holds no frame, its reserve gone, and n temporary files, each a
      whole terminal record that a crash kept from being renamed. */
  function Littered(dir: string, open: string, record: string, n: nat): Disk {
    if n == 0 then map[SessionFile(dir) := open]
    else Littered(dir, open, record, n - 1)[Temp(SessionFile(dir), n - 1) := record]
  }

  lemma {:induction false} LitteredFiles(dir: string, open: string, record: string, n: nat)
    ensures var d := Littered(dir, open, record, n);
            && SessionFile(dir) in d && d[SessionFile(dir)] == open && ReserveFile(dir) !in d && FrameJournal(dir) !in d
            && (forall p :: p in d && p.Temp? ==> p.token < n) && Bytes(d) == |open| + n * |record|
  {
    hide Sum;
    if n == 0 {
      OneFile(SessionFile(dir), open);
    } else {
      var before := Littered(dir, open, record, n - 1);
      var temp := Temp(SessionFile(dir), n - 1);
      LitteredFiles(dir, open, record, n - 1);
      SumWith(Sizes(before), temp, |record|);
      assert Sizes(before[temp := record]) == Sizes(before)[temp := |record|];
      assert n * |record| == (n - 1) * |record| + |record|;
    }
  }

  lemma {:induction false} OneFile(p: Path, data: string)
    ensures Bytes(map[p := data]) == |data|
  {
    hide Sum;
    var none: map<Path, nat> := map[];
    SumWith(none, p, |data|);
    SumZero(none);
    assert Sizes(map[p := data]) == none[p := |data|];
  }

  function TerminalText(f: Formats, dir: string, s: Session, now: int): string {
    f.sessions.encode(ConcludeFrames(Revived(s, now), now, dir, []))
  }

  lemma {:induction false} EmptySequencePlan(f: Formats, d: Disk, dir: string, s: Session, now: int)
    requires GoodFormats(f) && s.state.Recording? && s.backend.FrameSequence?
    requires SessionFile(dir) in d && d[SessionFile(dir)] == f.sessions.encode(s) && FrameJournal(dir) !in d
    ensures PlanAt(f, d, dir, now) == [Drop(ReserveFile(dir)), Put(SessionFile(dir), TerminalText(f, dir, s, now))]
    ensures forall used, maxBytes: nat ::
              Fits(d, used, maxBytes, PlanAt(f, d, dir, now))
              <==> FramesFit(used, maxBytes, Size(d, ReserveFile(dir)), 0,
                             |TerminalText(f, dir, s, now)| - |f.sessions.encode(s)|)
  {
    hide Recoverable, ConcludeFrames, Fits;
    NothingRecoverable(f, d, dir);
    forall used, maxBytes: nat
      ensures Fits(d, used, maxBytes, PlanAt(f, d, dir, now))
         <==> FramesFit(used, maxBytes, Size(d, ReserveFile(dir)), 0,
                        |TerminalText(f, dir, s, now)| - |f.sessions.encode(s)|)
    {
      FramesPlanFits(f, d, used, maxBytes, dir, Revived(s, now), [], now);
    }
  }

  /** A crash in the middle of writing the record leaves one temporary file more. */
  lemma {:induction false} CrashLitters(d: Disk, dir: string, record: string, temp: Path)
    requires temp.Temp? && temp !in d
    ensures (d - {ReserveFile(dir)})[temp := record] in Crashes(d,
                                                                [Drop(ReserveFile(dir)), Put(SessionFile(dir), record)])
  {
    hide Taking;
    var drop, put := Drop(ReserveFile(dir)), Put(SessionFile(dir), record);
    var t := d - {ReserveFile(dir)};
    assert [drop, put][1..] == [put];
    assert t[temp := record] in Taking(t, put) by {
      TakingHas(t, SessionFile(dir), record, temp);
      assert record[..|record|] == record;
    }
    assert Taking(t, put) <= Crashes(t, [put]) && Crashes(t, [put]) <= Crashes(d, [drop, put]);
  }

  /** A full spool, and what is left after the recovery of its one session has been interrupted
      i times, each time with the terminal record written but not renamed. */
  function Interrupted(dir: string, open: string, reserve: string, record: string, i: nat): Disk {
    if i == 0 then map[SessionFile(dir) := open, ReserveFile(dir) := reserve] else Littered(dir, open, record, i)
  }

  lemma {:induction false} InterruptedFiles(dir: string, open: string, reserve: string, record: string, i: nat)
    ensures var d := Interrupted(dir, open, reserve, record, i);
            && SessionFile(dir) in d && d[SessionFile(dir)] == open && FrameJournal(dir) !in d
            && Temp(SessionFile(dir), i) !in d
            && Size(d, ReserveFile(dir)) == (if i == 0 then |reserve| else 0)
            && Bytes(d) == (if i == 0 then |open| + |reserve| else |open| + i * |record|)
            && (d - {ReserveFile(dir)})[Temp(SessionFile(dir), i) := record]
               == Interrupted(dir, open, reserve, record, i + 1)
  {
    hide Bytes;
    var d, temp := Interrupted(dir, open, reserve, record, i), Temp(SessionFile(dir), i);
    LitteredFiles(dir, open, record, i);
    if i == 0 {
      TwoFiles(SessionFile(dir), open, ReserveFile(dir), reserve);
      assert d - {ReserveFile(dir)} == map[SessionFile(dir) := open];
    } else {
      assert d - {ReserveFile(dir)} == d;
    }
    assert Littered(dir, open, record, i + 1) == Littered(dir, open, record, i)[temp := record];
  }

  lemma {:induction false} TwoFiles(p: Path, x: string, q: Path, y: string)
    requires p != q
    ensures Bytes(map[p := x, q := y]) == |x| + |y|
  {
    hide Sum;
    OneFile(p, x);
    SumWith(Sizes(map[p := x]), q, |y|);
    assert Sizes(map[p := x, q := y]) == Sizes(map[p := x])[q := |y|];
  }

  /** An attempt gets through exactly as long as the record fits once more beside the copies
      already left; so enough interruptions leave a session that the quota lets no later
      attempt close, although it let the first one. */
  lemma {:induction false} InterruptionsUseUpQuota(f: Formats, dir: string, s: Session, reserve: string, now: int,
                                                   i: nat)
    requires GoodFormats(f) && s.state.Recording? && s.backend.FrameSequence?
    requires |TerminalText(f, dir, s, now)| > |f.sessions.encode(s)| > 0
    ensures var open, record := f.sessions.encode(s), TerminalText(f, dir, s, now);
            var d := Interrupted(dir, open, reserve, record, i);
            && Interrupted(dir, open, reserve, record, i + 1) in Crashes(d, PlanAt(f, d, dir, now))
            && (Fits(d, Bytes(d), |open| + |reserve|, PlanAt(f, d, dir, now)) <==>
                (i + 1) * |record| <= |open| + |reserve|)
  {
    hide PlanAt, Fits, Crashes, TerminalText, Interrupted, Bytes, GoodFormats;
    var open, record := f.sessions.encode(s), TerminalText(f, dir, s, now);
    var d := Interrupted(dir, open, reserve, record, i);
    InterruptedFiles(dir, open, reserve, record, i);
    EmptySequencePlan(f, d, dir, s, now);
    CrashLitters(d, dir, record, Temp(SessionFile(dir), i));
    assert (i + 1) * |record| == i * |record| + |record|;
  }
}
