/** Startup recovery: sessions a crash left RECORDING are finalized from their journals. */
module SpoolRecovery {
  import opened Common
  import opened SpoolFiles
  import opened FilePlans
  import opened Spool
  import opened Journal
  import opened FrameRecording
  import opened Finalization
  import opened VideoFinalization
  import opened RecoveryRoom
  import opened RecoveryRestart

  /** Listed sessions are returned; a skipped one failed with an OSError or could not be
      decoded; running out of quota is not caught and ends the whole recovery. */
  datatype Recovery = Listed(session: Session) | PassedOver | Aborted

  method ReadVideoJournal(f: Formats, disk: Disk, p: Path) returns (entries: seq<ChunkEntry>)
    requires Lawful(f.chunks)
    ensures entries == ChunksAt(f, disk, p)
  {
    hide Lines;
    entries := [];
    if p !in disk {
      EmptyHasNoLines();
      return;
    }
    var lines := Lines(disk[p]);
    for i := 0 to |lines|
      invariant entries == Parsed(f.chunks, lines[..i])
    {
      assert lines[..i + 1] == lines[..i] + [lines[i]];
      SnocParsed(f.chunks, lines[..i], lines[i]);
      var decoded := f.chunks.decode(lines[i]);
      if decoded.Some? {
        entries := entries + [decoded.value];
      }
    }
    assert lines[..|lines|] == lines;
  }

  /** The terminal record recovery writes: the session as found, stopped now, with what its
      journals and its media on d hold; failed when that is nothing and no other error is known. */
  ghost predicate RecoveredAs(f: Formats, d: Disk, dir: string, found: Session, final: Session, now: int) {
    && final.id == found.id && final.backend == found.backend && final.startedNs == found.startedNs
    && final.separateAudio == found.separateAudio && final.stoppedNs == now
    && var entries, frames := ChunksAt(f, d, VideoJournal(dir)), Recoverable(f, d, dir);
       var audio := ChunksAt(f, d, AudioJournal(dir));
       var empty := if found.backend.FfmpegMp4? then entries == [] || VideoBytes(d, dir) == 0 else frames == [];
       && (if found.backend.FfmpegMp4? then final.frameCount == |entries| && final.audioChunkCount == |audio|
           else final.frameCount == |frames| && final.sizeBytes == TotalSize(frames))
       && (if empty && found.errorCode == "" then final.state == Failed && final.errorCode == NO_FRAMES
           else final.state == Recovered && final.errorCode == found.errorCode)
  }

  lemma {:induction false} FramesRecovered(f: Formats, d: Disk, dir: string, found: Session, final: Session, now: int)
    requires found.backend.FrameSequence?
    requires ConcludesFrames(Revived(found, now), final, dir, Recoverable(f, d, dir)) && final.stoppedNs == now
    ensures RecoveredAs(f, d, dir, found, final, now) && !final.state.Recording?
  {
    hide TotalSize, Recoverable, ChunksAt;
  }

  lemma {:induction false} VideoRecovered(f: Formats, d: Disk, dir: string, found: Session, final: Session, now: int)
    requires found.backend.FfmpegMp4? && final.stoppedNs == now
    requires ConcludesVideo(Revived(found, now), final, dir, ChunksAt(f, d, VideoJournal(dir)),
                            ChunksAt(f, d, AudioJournal(dir)), found.separateAudio, VideoBytes(d, dir),
                            AudioBytes(d, dir, found.separateAudio))
    ensures RecoveredAs(f, d, dir, found, final, now) && !final.state.Recording?
  {
    hide TotalSize, Recoverable, ChunksAt, VideoBytes, AudioBytes;
  }

  /** One open session closed, with its plan as the measure of what can stop it. */
  method CloseSession(store: SpoolStore, f: Formats, dir: string, found: Session, now: int)
    returns (r: Outcome, final: Session)
    requires store.Valid() && GoodFormats(f) && ReservesGone(f, store.disk) && HandedOver(store, dir)
    requires SessionAt(f, store.disk, dir) == Some(found) && found.state.Recording?
    modifies store`disk, store`usedBytes, store`nextToken, store`trace, store`faults
    ensures Excused(r, store.maxBytes, store.minFreeBytes, old(store.faults), store.faults)
    ensures store.Valid() && ReservesGone(f, store.disk)
    ensures Ran(old(store.Now()), store.maxBytes, PlanAt(f, old(store.disk), dir, now), r, store.Now())
    ensures Healthy(f, old(store.disk), dir) ==>
              SameReports(f, old(store.disk), store.disk)
                && Added(old(store.trace), store.trace, Resumable(f, old(store.disk)))
    ensures r == Ok ==> SameReports(f, old(store.disk), store.disk) && SessionAt(f, store.disk, dir) == Some(final)
    ensures r == Ok ==> RecoveredAs(f, old(store.disk), dir, found, final, now) && !final.state.Recording?
    ensures r != Ok ==> SessionAt(f, store.disk, dir) == SessionAt(f, old(store.disk), dir)
    ensures StaysTerminal(f, old(store.disk), store.disk) && SameReadable(f, old(store.disk), store.disk)
  {
    hide SameReports, Resumable, Added, Sum, Booked, TempsBelow, Accounted, ReservesGone, Seen, ReportsOneOf, Recounts,
      PassingCounts;
    hide Recoverable, ChunksAt, Lines, Parsed, VideoBytes, AudioBytes, Lawful, Ran, FramesPlan, VideoPlan, Fits, Filed;
    hide RecoveredAs, ConcludesFrames, ConcludesVideo;
    ghost var d0 := store.disk;
    var session := Revived(found, now);
    if session.backend.FfmpegMp4? {
      var entries := ReadVideoJournal(f, store.disk, VideoJournal(dir));
      var audio := ReadVideoJournal(f, store.disk, AudioJournal(dir));
      UnhealthyMeans(f, d0, dir);
      r, final := FinalizeVideoRecording(store, f, dir, session, entries, audio, session.separateAudio, now);
      if r == Ok {
        VideoRecovered(f, d0, dir, found, final, now);
      }
      OneOfKeeps(f, d0, store.disk, dir, PassingCounts(f, d0, dir, entries, audio));
    } else {
      var entries := ReadJournal(f, store.disk, dir);
      r, final := FinalizeRecording(store, f, dir, session, entries, now);
      FramesRecovered(f, d0, dir, found, final, now);
      ReportsKeep(f, d0, store.disk);
    }
  }

  /** Every state recorded since is one a crash in the session's own steps can leave, and no
      temporary file stays when they end or fail. */
  ghost predicate OwnSteps(f: Formats, a: Moment, b: Moment, dir: string, now: int) {
    var crashes := Crashes(a.disk, PlanAt(f, a.disk, dir, now));
    && Added(a.trace, b.trace, crashes) && b.disk in crashes
    && OthersKept(a.disk, b.disk, dir) && TempBytes(b.disk) == TempBytes(a.disk)
  }

  /** All of the session's steps were taken. */
  ghost predicate Closes(f: Formats, a: Moment, maxBytes: nat, b: Moment, dir: string, now: int) {
    var plan := PlanAt(f, a.disk, dir, now);
    Passes(f, a, maxBytes, dir, now) && b.used == a.used + Growth(a.disk, plan) && b.disk == After(a.disk, plan)
  }

  /** Whether the session's steps get past the quota from what is in use. */
  ghost predicate Passes(f: Formats, a: Moment, maxBytes: nat, dir: string, now: int) {
    Fits(a.disk, a.used, maxBytes, PlanAt(f, a.disk, dir, now))
  }

  /** A session that is open is closed; it can run out of quota only if its steps do not fit,
      be stopped by quota or floor only if one of them adds bytes, and never uses more than
      their peak. Any other session is left as it is. */
  method RecoverSession(store: SpoolStore, f: Formats, dir: string, now: int) returns (r: Recovery)
    requires store.Valid() && GoodFormats(f) && ReservesGone(f, store.disk) && HandedOver(store, dir)
    modifies store`disk, store`usedBytes, store`nextToken, store`trace, store`faults
    ensures WithinQuota(old(store.usedBytes), store.maxBytes) ==> WithinQuota(store.usedBytes, store.maxBytes)
    ensures store.Valid() && ReservesGone(f, store.disk)
    ensures Healthy(f, old(store.disk), dir) ==>
              SameReports(f, old(store.disk), store.disk)
                && Added(old(store.trace), store.trace, Resumable(f, old(store.disk)))
    ensures r.Listed? ==>
              && SameReports(f, old(store.disk), store.disk)
              && TerminalAt(f, store.disk, dir) && SessionAt(f, store.disk, dir) == Some(r.session)
    ensures r.Listed? || SessionAt(f, old(store.disk), dir).None? ==>
              Closes(f, old(store.Now()), store.maxBytes, store.Now(), dir, now)
    ensures !r.Listed? ==> SessionAt(f, store.disk, dir) == SessionAt(f, old(store.disk), dir)
    ensures !OpenAt(f, old(store.disk), dir) ==> store.disk == old(store.disk) && store.trace == old(store.trace)
    ensures r.Listed? ==> ResultOf(f, old(store.disk), dir, r.session, now)
    ensures TerminalAt(f, old(store.disk), dir) ==> r.Listed?
    ensures StaysTerminal(f, old(store.disk), store.disk)
    ensures SameReadable(f, old(store.disk), store.disk)
    ensures r.PassedOver? ==> SessionAt(f, old(store.disk), dir).None? || store.faults > old(store.faults)
    ensures r.Aborted? ==>
              OpenAt(f, old(store.disk), dir) && EverGrows(old(store.disk), PlanAt(f, old(store.disk), dir, now))
    ensures r.Aborted? ==> store.minFreeBytes > 0 || !Passes(f, old(store.Now()), store.maxBytes, dir, now)
    ensures store.usedBytes <= old(store.usedBytes) + Peak(old(store.disk), PlanAt(f, old(store.disk), dir, now))
    ensures OwnSteps(f, old(store.Now()), store.Now(), dir, now)
    ensures store.faults >= old(store.faults)
  {
    hide SameReports, Resumable, Added, Sum, Booked, TempsBelow, Accounted, ReservesGone, Seen, Healthy, Lawful, Ran,
      PlanAt, Passes;
    hide OwnSteps, Closes, Peak, Growth, EverGrows, OpenAt, RecoveredAs;
    ghost var d0, a := store.disk, store.Now();
    NoChange(f, d0, a.trace);
    StandsStill(f, a, store.maxBytes, dir, now);
    var decoded := if SessionFile(dir) in store.disk then f.sessions.decode(store.disk[SessionFile(dir)]) else None;
    if decoded.None? {
      return PassedOver;
    }
    if !decoded.value.state.Recording? {
      return Listed(decoded.value);
    }
    var outcome, final := CloseSession(store, f, dir, decoded.value, now);
    RunOfOne(f, a, store.maxBytes, store.Now(), outcome, dir, now);
    match outcome {
      case Ok => r := Listed(final);
      case QuotaFull => r := Aborted;
      case DiskLow => r := Aborted;
      case _ => r := PassedOver;
    }
  }

  lemma {:induction false} StandsStill(f: Formats, a: Moment, maxBytes: nat, dir: string, now: int)
    ensures OwnSteps(f, a, a, dir, now)
    ensures !OpenAt(f, a.disk, dir) ==>
              PlanAt(f, a.disk, dir, now) == [] && Closes(f, a, maxBytes, a, dir, now)
    ensures OpenAt(f, a.disk, dir) <==>
            SessionAt(f, a.disk, dir).Some? && SessionAt(f, a.disk, dir).value.state.Recording?
    ensures Peak(a.disk, PlanAt(f, a.disk, dir, now)) >= 0
  {
  }

  lemma {:induction false} RunOfOne(f: Formats, a: Moment, maxBytes: nat, b: Moment, r: Outcome, dir: string, now: int)
    requires Ran(a, maxBytes, PlanAt(f, a.disk, dir, now), r, b)
    ensures OwnSteps(f, a, b, dir, now) && b.used <= a.used + Peak(a.disk, PlanAt(f, a.disk, dir, now))
    ensures WithinQuota(a.used, maxBytes) ==> WithinQuota(b.used, maxBytes)
    ensures r == Ok ==> Closes(f, a, maxBytes, b, dir, now)
    ensures r == QuotaFull ==> !Passes(f, a, maxBytes, dir, now)
    ensures r == QuotaFull || r == DiskLow ==> EverGrows(a.disk, PlanAt(f, a.disk, dir, now))
  {
    hide PlanAt, States, Crashes, Performed, Peak, Growth, Fits, After, EverGrows;
    var plan := PlanAt(f, a.disk, dir, now);
    PerformedMeans(a.disk, a.used, maxBytes, plan, r, b.disk, b.used);
    PlanLasts(f, a.disk, dir, now);
    PerformedTemps(a.disk, a.used, maxBytes, plan, r, b.disk, b.used);
    PlanInside(f, a.disk, dir, now);
    InsideKeeps(a.disk, plan, dir, b.disk);
  }

  lemma {:induction false} UnhealthyMeans(f: Formats, d: Disk, dir: string)
    requires OpenVideo(f, d, dir)
    ensures Healthy(f, d, dir) <==>
            KeepsCounts(f, d, dir, ChunksAt(f, d, VideoJournal(dir)), ChunksAt(f, d, AudioJournal(dir)))
  {
  }

  lemma {:induction false} ReportsKeep(f: Formats, d: Disk, t: Disk)
    ensures SameReports(f, d, t) ==> ReservesGone(f, t) && StaysTerminal(f, d, t)
    ensures SameReports(f, d, t) ==> SameReadable(f, d, t)
  {
    if SameReports(f, d, t) {
      forall dir ensures SessionAt(f, t, dir).Some? <==> SessionAt(f, d, dir).Some? {
        assert FinalCounts(f, t, dir) == FinalCounts(f, d, dir);
      }
    }
  }

  lemma {:induction false} OneOfKeeps(f: Formats, d: Disk, t: Disk, dir: string, counts: set<(nat, nat)>)
    requires ReportsOneOf(f, d, t, dir, counts) && SessionAt(f, d, dir).Some?
    ensures ReservesGone(f, t) && StaysTerminal(f, d, t) && SameReadable(f, d, t)
  {
    forall other ensures SessionAt(f, t, other).Some? <==> SessionAt(f, d, other).Some? {
      assert other != dir ==> FinalCounts(f, t, other) == FinalCounts(f, d, other);
    }
  }

  lemma {:induction false} NoChange(f: Formats, d: Disk, t: seq<Disk>)
    requires ReservesGone(f, d)
    ensures SameReports(f, d, d) && Added(t, t, Resumable(f, d)) && StaysTerminal(f, d, d)
  {
  }

  /** All encoded sessions are healthy. */
  ghost predicate AllHealthy(f: Formats, disk: Disk) {
    forall dir :: Healthy(f, disk, dir)
  }

  lemma {:induction false} ReportsChain(f: Formats, d0: Disk, d1: Disk, d2: Disk, t0: seq<Disk>, t1: seq<Disk>,
                                        t2: seq<Disk>)
    requires SameReports(f, d0, d1) && SameReports(f, d1, d2)
    requires Added(t0, t1, Resumable(f, d0)) && Added(t1, t2, Resumable(f, d1))
    ensures SameReports(f, d0, d2) && Added(t0, t2, Resumable(f, d0))
  {
    hide SameReports, Added;
    SameReportsTrans(f, d0, d1, d2);
    forall t | t in Resumable(f, d1) ensures t in Resumable(f, d0) {
      SameReportsTrans(f, d0, d1, t);
    }
    AddedThen(t0, t1, t2, Resumable(f, d0), Resumable(f, d1), Resumable(f, d0));
  }

  // ---------------------------------------------------------------- room, session by session

  /** What recovery that started at a knows at b, before it comes to dirs[i..]: those sessions
      are as they were; those before all fitted and were closed, unless a system call has
      failed since; and the room still needed has not grown. */
  ghost predicate Track(f: Formats, a: Moment, maxBytes: nat, dirs: seq<string>, i: nat, now: string -> int, b: Moment,
                        quiet: bool)
    requires i <= |dirs|
  {
    && (forall j :: i <= j < |dirs| ==> OwnSame(a.disk, b.disk, dirs[j]))
    && TempBytes(b.disk) == TempBytes(a.disk)
    && (quiet ==> Quiet(f, a, maxBytes, dirs[..i], now, b))
    && b.used + Peaks(f, a.disk, dirs[i..], now) <= a.used + Peaks(f, a.disk, dirs, now)
    && (AllWhole(f, a.disk) ==>
        b.disk in Roomy(f, a.disk, dirs, now) && Added(a.trace, b.trace, Roomy(f, a.disk, dirs, now)))
  }

  /** The sessions have been closed one after the other and nothing else happened. */
  ghost predicate Quiet(f: Formats, a: Moment, maxBytes: nat, dirs: seq<string>, now: string -> int, b: Moment) {
    var plan := RecoveryPlan(f, a.disk, dirs, now);
    && AllFit(f, a.disk, a.used, maxBytes, dirs, now) && b.used == a.used + GrowthOf(f, a.disk, dirs, now)
    && b.disk == After(a.disk, plan) && Added(a.trace, b.trace, Crashes(a.disk, plan))
  }

  lemma {:induction false} TrackStart(f: Formats, a: Moment, maxBytes: nat, dirs: seq<string>, now: string -> int)
    ensures Track(f, a, maxBytes, dirs, 0, now, a, true)
  {
    hide Peaks, AllWhole, Need, LongestOf, TempBytes;
    assert dirs[0..] == dirs && dirs[..0] == [];
  }

  lemma {:induction false} QuietNext(f: Formats, a: Moment, maxBytes: nat, before: seq<string>, dir: string,
                                     now: string -> int, b: Moment, c: Moment)
    requires Quiet(f, a, maxBytes, before, now, b) && OwnSame(a.disk, b.disk, dir)
    requires OwnSteps(f, b, c, dir, now(dir)) && Closes(f, b, maxBytes, c, dir, now(dir))
    ensures Quiet(f, a, maxBytes, before + [dir], now, c)
  {
    hide PlanAt, RecoveryPlan, AllFit, GrowthOf, Growth, Fits, OwnSame, OthersKept, Crashes, States, After, TempBytes,
      Added;
    var plan, steps := RecoveryPlan(f, a.disk, before, now), PlanAt(f, a.disk, dir, now(dir));
    SameSteps(f, a.disk, b.disk, dir, now(dir));
    AllFitThen(f, a.disk, a.used, maxBytes, before, [dir], now);
    OneFits(f, a.disk, b.used, maxBytes, dir, now);
    RecoveryPlanThen(f, a.disk, before, [dir], now);
    OneRecovery(f, a.disk, dir, now);
    CrashesThen(a.disk, plan, steps);
    StatesThen(a.disk, plan, steps);
    AddedThen(a.trace, b.trace, c.trace, Crashes(a.disk, plan), Crashes(b.disk, steps), Crashes(a.disk, plan + steps));
  }

  /** Also where a session is not closed, the states are those of the whole recovery. */
  lemma {:induction false} QuietStops(f: Formats, a: Moment, maxBytes: nat, dirs: seq<string>, i: nat,
                                      now: string -> int, b: Moment, c: Moment)
    requires i < |dirs| && Quiet(f, a, maxBytes, dirs[..i], now, b) && OwnSame(a.disk, b.disk, dirs[i])
    requires OwnSteps(f, b, c, dirs[i], now(dirs[i]))
    ensures Added(a.trace, c.trace, Crashes(a.disk, RecoveryPlan(f, a.disk, dirs, now)))
  {
    hide PlanAt, RecoveryPlan, AllFit, GrowthOf, Growth, Fits, OwnSame, OthersKept, Crashes, States, After, TempBytes,
      Added;
    var plan, steps := RecoveryPlan(f, a.disk, dirs[..i], now), PlanAt(f, a.disk, dirs[i], now(dirs[i]));
    SameSteps(f, a.disk, b.disk, dirs[i], now(dirs[i]));
    RecoveryPlanThen(f, a.disk, dirs[..i], [dirs[i]], now);
    OneRecovery(f, a.disk, dirs[i], now);
    RecoveryPlanThen(f, a.disk, dirs[..i] + [dirs[i]], dirs[i + 1..], now);
    assert dirs[..i] + [dirs[i]] + dirs[i + 1..] == dirs;
    CrashesThen(a.disk, plan, steps);
    CrashesThen(a.disk, plan + steps, RecoveryPlan(f, a.disk, dirs[i + 1..], now));
    AddedThen(a.trace, b.trace, c.trace, Crashes(a.disk, plan), Crashes(b.disk, steps),
              Crashes(a.disk, RecoveryPlan(f, a.disk, dirs, now)));
  }

  lemma {:induction false} OneFits(f: Formats, d: Disk, used: int, maxBytes: nat, dir: string, now: string -> int)
    ensures AllFit(f, d, used, maxBytes, [dir], now) <==> Fits(d, used, maxBytes, PlanAt(f, d, dir, now(dir)))
    ensures GrowthOf(f, d, [dir], now) == Growth(d, PlanAt(f, d, dir, now(dir)))
  {
    hide PlanAt, Fits, Growth;
    assert [dir][1..] == [];
  }

  lemma {:induction false} TrackStep(f: Formats, a: Moment, maxBytes: nat, dirs: seq<string>, i: nat,
                                     now: string -> int, b: Moment, c: Moment, quiet: bool, still: bool)
    requires GoodFormats(f) && Distinct(dirs) && i < |dirs| && Track(f, a, maxBytes, dirs, i, now, b, quiet)
    requires OwnSteps(f, b, c, dirs[i], now(dirs[i]))
    requires c.used <= b.used + Peak(b.disk, PlanAt(f, b.disk, dirs[i], now(dirs[i])))
    requires still ==> quiet && Closes(f, b, maxBytes, c, dirs[i], now(dirs[i]))
    ensures Track(f, a, maxBytes, dirs, i + 1, now, c, still)
  {
    hide Need, AllWhole, OwnSame, PlanAt, OthersKept, GoodFormats, Peak, Quiet, Closes, Added, Crashes, TempBytes,
      Roomy;
    var dir := dirs[i];
    assert dirs[i..][0] == dir && dirs[i..][1..] == dirs[i + 1..];
    SameSteps(f, a.disk, b.disk, dir, now(dir));
    assert dirs[..i + 1] == dirs[..i] + [dir];
    if still {
      QuietNext(f, a, maxBytes, dirs[..i], dir, now, b, c);
    }
    forall j | i + 1 <= j < |dirs| ensures OwnSame(a.disk, c.disk, dirs[j]) {
      KeptIsOwnSame(b.disk, c.disk, dir, dirs[j]);
      OwnSameThen(a.disk, b.disk, c.disk, dirs[j]);
    }
    if AllWhole(f, a.disk) {
      RoomyWhole(f, a.disk, b.disk, dirs, now);
      NeedGrowsByTemps(f, b.disk, dirs, now, dir);
      RoomyThen(f, a, b, c, dirs, now, Crashes(b.disk, PlanAt(f, b.disk, dir, now(dir))));
    }
  }

  lemma {:induction false} RoomyWhole(f: Formats, d: Disk, t: Disk, dirs: seq<string>, now: string -> int)
    requires t in Roomy(f, d, dirs, now)
    ensures AllWhole(f, t)
  {
  }

  lemma {:induction false} RoomyThen(f: Formats, a: Moment, b: Moment, c: Moment, dirs: seq<string>, now: string -> int,
                                     states: iset<Disk>)
    requires b.disk in Roomy(f, a.disk, dirs, now) && Added(a.trace, b.trace, Roomy(f, a.disk, dirs, now))
    requires TempBytes(b.disk) == TempBytes(a.disk)
    requires states <= Roomy(f, b.disk, dirs, now) && Added(b.trace, c.trace, states) && c.disk in states
    ensures c.disk in Roomy(f, a.disk, dirs, now) && Added(a.trace, c.trace, Roomy(f, a.disk, dirs, now))
  {
    hide Need, AllWhole, Added, TempBytes, LongestOf;
    assert states <= Roomy(f, a.disk, dirs, now) by {
      forall t | t in states ensures t in Roomy(f, a.disk, dirs, now) {
        assert t in Roomy(f, b.disk, dirs, now);
      }
    }
    AddedThen(a.trace, b.trace, c.trace, Roomy(f, a.disk, dirs, now), states, Roomy(f, a.disk, dirs, now));
  }

  /** A session that does not fit means that not all do, and that the peaks do not. */
  lemma {:induction false} TrackStops(f: Formats, a: Moment, maxBytes: nat, dirs: seq<string>, i: nat,
                                      now: string -> int, b: Moment, quiet: bool)
    requires i < |dirs| && Track(f, a, maxBytes, dirs, i, now, b, quiet)
             && !Passes(f, b, maxBytes, dirs[i], now(dirs[i]))
    ensures quiet ==>
              && AllFit(f, a.disk, a.used, maxBytes, dirs[..i], now)
              && !AllFit(f, a.disk, a.used, maxBytes, dirs[..i + 1], now)
    ensures quiet ==> !AllFit(f, a.disk, a.used, maxBytes, dirs, now)
    ensures !WithinQuota(a.used + Peaks(f, a.disk, dirs, now), maxBytes)
  {
    hide Need, AllWhole, OwnSame, PlanAt, Peak, Growth, Fits, Added, Crashes, RecoveryPlan, After, TempBytes, Roomy;
    assert dirs[i..][0] == dirs[i];
    SameSteps(f, a.disk, b.disk, dirs[i], now(dirs[i]));
    assert dirs[..i + 1] == dirs[..i] + [dirs[i]] && dirs == dirs[..i + 1] + dirs[i + 1..];
    AllFitThen(f, a.disk, a.used, maxBytes, dirs[..i], [dirs[i]], now);
    AllFitThen(f, a.disk, a.used, maxBytes, dirs[..i + 1], dirs[i + 1..], now);
    OneFits(f, a.disk, b.used, maxBytes, dirs[i], now);
    if WithinQuota(a.used + Peaks(f, a.disk, dirs, now), maxBytes) {
      PeakSuffices(b.disk, b.used, maxBytes, PlanAt(f, b.disk, dirs[i], now(dirs[i])));
    }
  }

  lemma {:induction false} TrackEnds(f: Formats, a: Moment, maxBytes: nat, dirs: seq<string>, now: string -> int,
                                     b: Moment)
    requires Track(f, a, maxBytes, dirs, |dirs|, now, b, true)
    ensures AllFit(f, a.disk, a.used, maxBytes, dirs, now)
    ensures Added(a.trace, b.trace, Crashes(a.disk, RecoveryPlan(f, a.disk, dirs, now)))
  {
    hide Added, Crashes, Need, TempBytes;
    assert dirs[..|dirs|] == dirs;
  }

  /** The session at i is open and some step to close it adds bytes; it and all later ones are
      as they were. */
  ghost predicate StoppedAt(f: Formats, d: Disk, t: Disk, dirs: seq<string>, i: nat, now: string -> int)
    requires i < |dirs|
  {
    && OpenAt(f, d, dirs[i]) && SessionAt(f, t, dirs[i]) == SessionAt(f, d, dirs[i])
    && EverGrows(d, PlanAt(f, d, dirs[i], now(dirs[i])))
    && forall j :: i < j < |dirs| ==> OwnSame(d, t, dirs[j])
  }

  // ---------------------------------------------------------------- the whole recovery

  /** The loop over every session file found, at the time now gives for each. Whether it
      completes, passes sessions over or aborts, a spool of healthy sessions reports the same
      at every point a crash could strike; what it lists is terminal with its reserve gone; a
      spool whose sessions are all terminal is left as it is. Without a floor of free bytes it
      aborts exactly when not all open sessions fit the quota one after the other, and leaves
      the one that did not and all later ones open; room for their peaks rules that out
      whatever system calls fail, and no interruption makes a later recovery need more. */
  method RecoverSessions(store: SpoolStore, f: Formats, dirs: seq<string>, now: string -> int)
    returns (sessions: seq<Session>, listed: seq<string>, aborted: bool)
    requires store.Valid() && GoodFormats(f) && ReservesGone(f, store.disk) && store.external == {}
    modifies store`disk, store`usedBytes, store`nextToken, store`trace, store`faults
    ensures WithinQuota(old(store.usedBytes), store.maxBytes) ==> WithinQuota(store.usedBytes, store.maxBytes)
    ensures store.Valid() && ReservesGone(f, store.disk) && StaysTerminal(f, old(store.disk), store.disk)
    ensures AllHealthy(f, old(store.disk)) ==>
              && SameReports(f, old(store.disk), store.disk) && AllHealthy(f, store.disk)
              && Added(old(store.trace), store.trace, Resumable(f, old(store.disk)))
    ensures |sessions| == |listed| && forall i :: 0 <= i < |listed| ==>
              && listed[i] in dirs && TerminalAt(f, store.disk, listed[i])
              && ReserveFile(listed[i]) !in store.disk && SessionAt(f, store.disk, listed[i]) == Some(sessions[i])
    ensures Distinct(dirs) ==> ListedRecovered(f, old(store.disk), listed, sessions, now)
    ensures (forall i :: 0 <= i < |dirs| ==> TerminalAt(f, old(store.disk), dirs[i])) ==>
              store.disk == old(store.disk) && store.trace == old(store.trace) && !aborted && listed == dirs
    ensures Distinct(dirs) && store.minFreeBytes == 0 && store.faults == old(store.faults) ==>
              (aborted <==> !AllFit(f, old(store.disk), old(store.usedBytes), store.maxBytes, dirs, now))
    ensures Distinct(dirs) && store.minFreeBytes == 0 && aborted ==>
              !WithinQuota(old(store.usedBytes) + Peaks(f, old(store.disk), dirs, now), store.maxBytes)
    ensures Distinct(dirs) && aborted ==>
              exists i: nat :: i < |dirs| && StoppedAt(f, old(store.disk), store.disk, dirs, i, now)
                && Elements(listed) <= Elements(dirs[..i])
                && (store.minFreeBytes == 0 && store.faults == old(store.faults) ==>
                      && AllFit(f, old(store.disk), old(store.usedBytes), store.maxBytes, dirs[..i], now)
                      && !AllFit(f, old(store.disk), old(store.usedBytes), store.maxBytes, dirs[..i + 1], now))
    ensures Distinct(dirs) && AllWhole(f, old(store.disk)) ==>
              && Added(old(store.trace), store.trace, Roomy(f, old(store.disk), dirs, now))
              && store.disk in Roomy(f, old(store.disk), dirs, now)
    ensures Distinct(dirs) && store.faults == old(store.faults) ==>
              Added(old(store.trace), store.trace,
                    Crashes(old(store.disk), RecoveryPlan(f, old(store.disk), dirs, now)))
    ensures !aborted && store.faults == old(store.faults) ==>
              forall i :: 0 <= i < |dirs| && SessionAt(f, old(store.disk), dirs[i]).Some? ==> dirs[i] in listed
  {
    hide SameReports, Resumable, Added, Sum, Booked, TempsBelow, TornFits, ReservesGone, Healthy, Accounted,
      GoodFormats, TerminalAt;
    hide Track, OwnSteps, Passes, PlanAt, AllFit, Peaks, Roomy, AllWhole, Growth, Peak, OpenAt, StoppedAt, AllHealthy,
      SessionAt;
    hide KeptReports, Listing, ListedTerminal, ListedRecovered, ResultOf, RecoveredAs, SameReadable, StaysTerminal,
      OwnSame, GrowthOf, TempBytes, LongestOf;
    hide WithinQuota, Crashes, RecoveryPlan, Closes, EverGrows;
    ghost var a, d0, t0 := store.Now(), store.disk, store.trace;
    sessions, listed, aborted := [], [], false;
    NoChange(f, d0, t0);
    KeptReportsStart(f, a);
    NothingListed(f, d0, dirs, now);
    TrackStart(f, a, store.maxBytes, dirs, now);
    for i := 0 to |dirs|
      invariant WithinQuota(old(store.usedBytes), store.maxBytes) ==> WithinQuota(store.usedBytes, store.maxBytes)
      invariant store.Valid() && ReservesGone(f, store.disk) && store.external == {} && StaysTerminal(f, d0, store.disk)
      invariant KeptReports(f, a, store.Now())
      invariant store.faults >= old(store.faults) && SameReadable(f, d0, store.disk)
      invariant Distinct(dirs) ==> Track(f, a, store.maxBytes, dirs, i, now, store.Now(),
                                         store.faults == old(store.faults))
      invariant store.faults == old(store.faults) ==>
                  forall j :: 0 <= j < i && SessionAt(f, d0, dirs[j]).Some? ==> dirs[j] in listed
      invariant Listing(f, d0, store.disk, dirs, listed, sessions, now)
      invariant Elements(listed) <= Elements(dirs[..i])
      invariant (forall i :: 0 <= i < |dirs| ==> TerminalAt(f, d0, dirs[i])) ==>
                  store.disk == d0 && store.trace == t0 && listed == dirs[..i]
    {
      MoreElements(dirs, i);
      ghost var d1, b, quiet := store.disk, store.Now(), store.faults == old(store.faults);
      ClosedIsClosed(f, d1, dirs[i]);
      StillReadable(f, d0, d1, dirs[i]);
      var r := RecoverSession(store, f, dirs[i], now(dirs[i]));
      KeptReportsNext(f, a, b, store.Now(), dirs[i]);
      StaysListed(f, d0, d1, store.disk, dirs, listed, sessions, now);
      if Distinct(dirs) {
        NextTrack(f, a, store.maxBytes, store.minFreeBytes, dirs, i, now, b, store.Now(), r, quiet,
                  store.faults == old(store.faults));
      }
      match r {
        case Listed(session) =>
          ListedNext(f, a, store.maxBytes, dirs, i, now, b, quiet, store.disk, listed, sessions, session);
          sessions, listed := sessions + [session], listed + [dirs[i]];
        case PassedOver =>
        case Aborted =>
          aborted := true;
          ListedReserves(f, d0, store.disk, dirs, listed, sessions, now);
          KeptReportsMean(f, a, store.Now());
          return;
      }
    }
    ListedReserves(f, d0, store.disk, dirs, listed, sessions, now);
    KeptReportsMean(f, a, store.Now());
    if Distinct(dirs) {
      TrackGives(f, a, store.maxBytes, dirs, now, store.Now(), store.faults == old(store.faults));
    }
    assert dirs[..|dirs|] == dirs;
  }

  lemma {:induction false} StillReadable(f: Formats, d: Disk, t: Disk, dir: string)
    requires SameReadable(f, d, t)
    ensures SessionAt(f, d, dir).Some? <==> SessionAt(f, t, dir).Some?
  {
  }

  lemma {:induction false} ClosedIsClosed(f: Formats, d: Disk, dir: string)
    ensures TerminalAt(f, d, dir) ==> !OpenAt(f, d, dir)
  {
  }

  lemma {:induction false} MoreElements(dirs: seq<string>, i: nat)
    requires i < |dirs|
    ensures Elements(dirs[..i + 1]) == Elements(dirs[..i]) + {dirs[i]}
  {
    assert dirs[..i + 1] == dirs[..i] + [dirs[i]];
  }

  /** Each listed session is the one found, or what recovery makes of it when it was open. */
  ghost predicate ListedRecovered(f: Formats, d0: Disk, listed: seq<string>, sessions: seq<Session>,
                                  now: string -> int) {
    |sessions| == |listed| && forall i :: 0 <= i < |listed| ==> ResultOf(f, d0, listed[i], sessions[i], now(listed[i]))
  }

  ghost predicate ResultOf(f: Formats, d0: Disk, dir: string, session: Session, now: int) {
    && SessionAt(f, d0, dir).Some?
    && var found := SessionAt(f, d0, dir).value;
       if found.state.Recording? then RecoveredAs(f, d0, dir, found, session, now) else session == found
  }

  lemma {:induction false} RecoveredSame(f: Formats, d: Disk, t: Disk, dir: string, found: Session, session: Session,
                                         now: int)
    requires OwnSame(d, t, dir)
    ensures SessionAt(f, t, dir) == SessionAt(f, d, dir)
    ensures RecoveredAs(f, t, dir, found, session, now) <==> RecoveredAs(f, d, dir, found, session, now)
  {
    hide Recoverable, Lines, Parsed, TotalSize;
    assert SameFile(d, t, SessionFile(dir)) && SameFile(d, t, FrameJournal(dir)) && SameFile(d, t, VideoJournal(dir));
    assert SameFile(d, t, AudioJournal(dir)) && SameFile(d, t, Video(dir)) && SameFile(d, t, VideoPart(dir));
    assert forall n: nat, x: string {:trigger FrameFile(dir, n, x)} :: SameFile(d, t, FrameFile(dir, n, x));
    SameRecoverable(f, d, t, dir);
  }

  lemma {:induction false} RecoveredMore(f: Formats, d0: Disk, d1: Disk, listed: seq<string>, sessions: seq<Session>,
                                         now: string -> int, dir: string, session: Session)
    requires ListedRecovered(f, d0, listed, sessions, now) && OwnSame(d0, d1, dir)
    requires ResultOf(f, d1, dir, session, now(dir))
    ensures ListedRecovered(f, d0, listed + [dir], sessions + [session], now)
  {
    hide RecoveredAs, OwnSame;
    RecoveredSame(f, d0, d1, dir, SessionAt(f, d1, dir).value, session, now(dir));
  }

  lemma {:induction false} TrackSame(f: Formats, a: Moment, maxBytes: nat, dirs: seq<string>, i: nat,
                                     now: string -> int, b: Moment, quiet: bool)
    requires i < |dirs| && Track(f, a, maxBytes, dirs, i, now, b, quiet)
    ensures OwnSame(a.disk, b.disk, dirs[i])
  {
  }

  /** A spool of healthy sessions has reported the same since. */
  ghost predicate KeptReports(f: Formats, a: Moment, b: Moment) {
    AllHealthy(f, a.disk) ==>
      SameReports(f, a.disk, b.disk) && AllHealthy(f, b.disk) && Added(a.trace, b.trace, Resumable(f, a.disk))
  }

  lemma {:induction false} KeptReportsStart(f: Formats, a: Moment)
    requires ReservesGone(f, a.disk)
    ensures KeptReports(f, a, a)
  {
    NoChange(f, a.disk, a.trace);
  }

  lemma {:induction false} KeptReportsNext(f: Formats, a: Moment, b: Moment, c: Moment, dir: string)
    requires KeptReports(f, a, b)
    requires Healthy(f, b.disk, dir) ==> SameReports(f, b.disk, c.disk) && Added(b.trace, c.trace, Resumable(f, b.disk))
    ensures KeptReports(f, a, c)
  {
    hide SameReports, Resumable, Added, AllHealthy, Healthy;
    if AllHealthy(f, a.disk) {
      HealthOf(f, b.disk, dir);
      ReportsChain(f, a.disk, b.disk, c.disk, a.trace, b.trace, c.trace);
      HealthKept(f, b.disk, c.disk);
    }
  }

  lemma {:induction false} KeptReportsMean(f: Formats, a: Moment, b: Moment)
    requires KeptReports(f, a, b)
    ensures AllHealthy(f, a.disk) ==>
              SameReports(f, a.disk, b.disk) && AllHealthy(f, b.disk) && Added(a.trace, b.trace, Resumable(f, a.disk))
  {
  }

  lemma {:induction false} NothingListed(f: Formats, d: Disk, dirs: seq<string>, now: string -> int)
    ensures SameReadable(f, d, d) && Listing(f, d, d, dirs, [], [], now)
  {
  }

  lemma {:induction false} ListedNext(f: Formats, a: Moment, maxBytes: nat, dirs: seq<string>, i: nat,
                                      now: string -> int, b: Moment, quiet: bool, t: Disk, listed: seq<string>,
                                      sessions: seq<Session>, session: Session)
    requires Listing(f, a.disk, t, dirs, listed, sessions, now) && i < |dirs|
    requires Distinct(dirs) ==> Track(f, a, maxBytes, dirs, i, now, b, quiet)
    requires ResultOf(f, b.disk, dirs[i], session, now(dirs[i]))
    requires TerminalAt(f, t, dirs[i]) && SessionAt(f, t, dirs[i]) == Some(session)
    ensures Listing(f, a.disk, t, dirs, listed + [dirs[i]], sessions + [session], now)
  {
    hide ResultOf, ListedRecovered, Track, OwnSame;
    if Distinct(dirs) {
      TrackSame(f, a, maxBytes, dirs, i, now, b, quiet);
      RecoveredMore(f, a.disk, b.disk, listed, sessions, now, dirs[i], session);
    }
  }

  lemma {:induction false} HealthOf(f: Formats, d: Disk, dir: string)
    requires AllHealthy(f, d)
    ensures Healthy(f, d, dir)
  {
  }

  lemma {:induction false} TrackGives(f: Formats, a: Moment, maxBytes: nat, dirs: seq<string>, now: string -> int,
                                      b: Moment, quiet: bool)
    requires Track(f, a, maxBytes, dirs, |dirs|, now, b, quiet)
    ensures quiet ==>
              && AllFit(f, a.disk, a.used, maxBytes, dirs, now)
              && Added(a.trace, b.trace, Crashes(a.disk, RecoveryPlan(f, a.disk, dirs, now)))
    ensures AllWhole(f, a.disk) ==>
              b.disk in Roomy(f, a.disk, dirs, now) && Added(a.trace, b.trace, Roomy(f, a.disk, dirs, now))
  {
    hide AllWhole, Added, Crashes, Roomy, TempBytes;
    if quiet {
      TrackEnds(f, a, maxBytes, dirs, now, b);
    }
  }

  lemma {:induction false} NextTrack(f: Formats, a: Moment, maxBytes: nat, minFreeBytes: nat, dirs: seq<string>, i: nat,
                                     now: string -> int, b: Moment, c: Moment, r: Recovery, quiet: bool, still: bool)
    requires GoodFormats(f) && Distinct(dirs) && i < |dirs| && Track(f, a, maxBytes, dirs, i, now, b, quiet)
             && (still ==> quiet)
    requires OwnSteps(f, b, c, dirs[i], now(dirs[i]))
    requires c.used <= b.used + Peak(b.disk, PlanAt(f, b.disk, dirs[i], now(dirs[i])))
    requires r.Listed? || SessionAt(f, b.disk, dirs[i]).None? ==> Closes(f, b, maxBytes, c, dirs[i], now(dirs[i]))
    requires r.PassedOver? ==> SessionAt(f, b.disk, dirs[i]).None? || !still
    requires !r.Listed? ==> SessionAt(f, c.disk, dirs[i]) == SessionAt(f, b.disk, dirs[i])
    requires r.Aborted? ==> EverGrows(b.disk, PlanAt(f, b.disk, dirs[i], now(dirs[i])))
    requires r.Aborted? ==>
               OpenAt(f, b.disk, dirs[i]) && (minFreeBytes > 0 || !Passes(f, b, maxBytes, dirs[i], now(dirs[i])))
    ensures !r.Aborted? ==> Track(f, a, maxBytes, dirs, i + 1, now, c, still)
    ensures r.Aborted? ==> StoppedAt(f, a.disk, c.disk, dirs, i, now)
    ensures r.Aborted? && quiet ==> Added(a.trace, c.trace, Crashes(a.disk, RecoveryPlan(f, a.disk, dirs, now)))
    ensures r.Aborted? && minFreeBytes == 0 ==>
              && (still ==> && !AllFit(f, a.disk, a.used, maxBytes, dirs, now)
                            && AllFit(f, a.disk, a.used, maxBytes, dirs[..i], now)
                            && !AllFit(f, a.disk, a.used, maxBytes, dirs[..i + 1], now))
              && !WithinQuota(a.used + Peaks(f, a.disk, dirs, now), maxBytes)
    ensures AllWhole(f, a.disk) ==>
              c.disk in Roomy(f, a.disk, dirs, now) && Added(a.trace, c.trace, Roomy(f, a.disk, dirs, now))
  {
    hide OwnSteps, PlanAt, Passes, Closes, AllFit, Peaks, Peak, AllWhole, Roomy, Added, GoodFormats, OwnSame, SessionAt;
    hide Crashes, RecoveryPlan, Quiet, EverGrows, TempBytes;
    TrackStep(f, a, maxBytes, dirs, i, now, b, c, quiet, still && !r.Aborted?);
    SameSteps(f, a.disk, b.disk, dirs[i], now(dirs[i]));
    if r.Aborted? && quiet {
      QuietStops(f, a, maxBytes, dirs, i, now, b, c);
    }
    if r.Aborted? && minFreeBytes == 0 {
      TrackStops(f, a, maxBytes, dirs, i, now, b, quiet);
    }
  }

  /** The same session files can be read. */
  ghost predicate SameReadable(f: Formats, d: Disk, t: Disk) {
    forall dir :: SessionAt(f, t, dir).Some? <==> SessionAt(f, d, dir).Some?
  }

  ghost predicate ListedTerminal(f: Formats, disk: Disk, dirs: seq<string>, listed: seq<string>,
                                 sessions: seq<Session>) {
    |sessions| == |listed| && forall i :: 0 <= i < |listed| ==>
      listed[i] in dirs && TerminalAt(f, disk, listed[i]) && SessionAt(f, disk, listed[i]) == Some(sessions[i])
  }

  /** What is listed is terminal on the disk now, and was made of what was found. */
  ghost predicate Listing(f: Formats, d0: Disk, d: Disk, dirs: seq<string>, listed: seq<string>, sessions: seq<Session>,
                          now: string -> int) {
    && ListedTerminal(f, d, dirs, listed, sessions)
    && (Distinct(dirs) ==> ListedRecovered(f, d0, listed, sessions, now))
  }

  lemma {:induction false} StaysListed(f: Formats, d0: Disk, d: Disk, t: Disk, dirs: seq<string>, listed: seq<string>,
                                       sessions: seq<Session>, now: string -> int)
    requires StaysTerminal(f, d0, d) && StaysTerminal(f, d, t) && Listing(f, d0, d, dirs, listed, sessions, now)
    requires SameReadable(f, d0, d) && SameReadable(f, d, t)
    ensures StaysTerminal(f, d0, t) && Listing(f, d0, t, dirs, listed, sessions, now) && SameReadable(f, d0, t)
  {
    hide ListedRecovered;
  }

  lemma {:induction false} ListedReserves(f: Formats, d0: Disk, d: Disk, dirs: seq<string>, listed: seq<string>,
                                          sessions: seq<Session>, now: string -> int)
    requires ReservesGone(f, d) && Listing(f, d0, d, dirs, listed, sessions, now)
    ensures Distinct(dirs) ==> ListedRecovered(f, d0, listed, sessions, now)
    ensures |sessions| == |listed| && forall i :: 0 <= i < |listed| ==>
              && listed[i] in dirs && TerminalAt(f, d, listed[i])
              && ReserveFile(listed[i]) !in d && SessionAt(f, d, listed[i]) == Some(sessions[i])
  {
  }

  lemma {:induction false} HealthKept(f: Formats, d: Disk, t: Disk)
    requires AllHealthy(f, d) && SameReports(f, d, t)
    ensures AllHealthy(f, t)
  {
  }

  /** Recovery cut short any number of times, each attempt starting from whatever the last
      left, still reports what the first crash left. */
  lemma {:induction false} InterruptedRecoveries(f: Formats, disks: seq<Disk>)
    requires disks != [] && ReservesGone(f, disks[0])
    requires forall i :: 0 <= i < |disks| - 1 ==> disks[i + 1] in Resumable(f, disks[i])
    ensures SameReports(f, disks[0], disks[|disks| - 1])
  {
    hide SameReports, ReservesGone;
    if |disks| == 1 {
      ReportsSelf(f, disks[0]);
    } else {
      var before := disks[..|disks| - 1];
      InterruptedRecoveries(f, before);
      assert disks[|disks| - 2 + 1] in Resumable(f, disks[|disks| - 2]);
      SameReportsTrans(f, disks[0], disks[|disks| - 2], disks[|disks| - 1]);
    }
  }

  /** A restart on what a crash of an earlier recovery left. Unless a system call fails the
      attempt gets through exactly when the sessions fit from all the bytes found, and it does
      whenever the first attempt would have and the steps taken had freed the temporary bytes
      left; whatever fails it does when there is room for what the first attempt needed at the
      most and for those bytes. Every session reports what it did before the first attempt. */
  method RecoverAfterCrash(f: Formats, found: Disk, freshToken: nat, maxBytes: int, dirs: seq<string>,
                           later: string -> int,
                           ghost first: Disk, ghost now: string -> int)
    returns (store: SpoolStore, sessions: seq<Session>, listed: seq<string>, aborted: bool)
    requires TempsBelow(found, freshToken) && GoodFormats(f) && ReservesGone(f, first) && AllWhole(f, first)
    requires Distinct(dirs) && AllSameLengths(f, dirs, now, later)
             && found in Crashes(first, RecoveryPlan(f, first, dirs, now))
    ensures fresh(store) && store.Valid() && store.maxBytes == Max(0, maxBytes)
    ensures SameReports(f, first, store.disk)
    ensures store.faults == 0 ==>
              && (aborted <==> !AllFit(f, found, Bytes(found), store.maxBytes, dirs, later))
              && (AllFit(f, first, Bytes(first), store.maxBytes, dirs, now) && Freed(f, first, found, dirs, now) ==>
                  !aborted)
    ensures WithinQuota(Need(f, first, dirs, now) + TempBytes(found) - TempBytes(first), store.maxBytes) ==> !aborted
    ensures !aborted && store.faults == 0 ==>
              forall i :: 0 <= i < |dirs| && SessionAt(f, found, dirs[i]).Some? ==> dirs[i] in listed
  {
    hide GoodFormats, ReservesGone, AllWhole, AllSameLengths, Crashes, RecoveryPlan, SameReports, AllFit, Freed, Need,
      TempBytes;
    hide TempsBelow, AllHealthy, Peaks, Bytes, SessionAt;
    AfterCrash(f, first, found, dirs, now, later);
    store, sessions, listed, aborted := Restart(f, found, freshToken, maxBytes, dirs, later);
    SameReportsTrans(f, first, found, store.disk);
  }

  /** The store is built by scanning what is found, then recovers. */
  method Restart(f: Formats, found: Disk, freshToken: nat, maxBytes: int, dirs: seq<string>, now: string -> int)
    returns (store: SpoolStore, sessions: seq<Session>, listed: seq<string>, aborted: bool)
    requires TempsBelow(found, freshToken) && GoodFormats(f) && ReservesGone(f, found) && AllHealthy(f, found)
             && Distinct(dirs)
    ensures fresh(store) && store.Valid() && store.maxBytes == Max(0, maxBytes) && SameReports(f, found, store.disk)
    ensures store.faults == 0 ==> (aborted <==> !AllFit(f, found, Bytes(found), store.maxBytes, dirs, now))
    ensures aborted ==> !WithinQuota(Bytes(found) + Peaks(f, found, dirs, now), store.maxBytes)
    ensures !aborted && store.faults == 0 ==>
              forall i :: 0 <= i < |dirs| && SessionAt(f, found, dirs[i]).Some? ==> dirs[i] in listed
  {
    hide GoodFormats, ReservesGone, AllWhole, Crashes, RecoveryPlan, SameReports, AllFit, Roomy, Added, Sum, Booked,
      Accounted;
    hide TempsBelow, AllHealthy, Peaks, SessionAt, StoppedAt, TerminalAt, StaysTerminal, WithinQuota, Resumable;
    store := new SpoolStore(found, freshToken, maxBytes, 0);
    sessions, listed, aborted := RecoverSessions(store, f, dirs, now);
  }

  lemma {:induction false} AfterCrash(f: Formats, first: Disk, found: Disk, dirs: seq<string>, now: string -> int,
                                      later: string -> int)
    requires GoodFormats(f) && ReservesGone(f, first) && AllWhole(f, first)
    requires Distinct(dirs) && AllSameLengths(f, dirs, now, later)
             && found in Crashes(first, RecoveryPlan(f, first, dirs, now))
    ensures SameReports(f, first, found) && ReservesGone(f, found) && AllHealthy(f, found)
    ensures Freed(f, first, found, dirs, now) ==>
              forall maxBytes: nat :: AllFit(f, first, Bytes(first), maxBytes, dirs, now) ==>
                AllFit(f, found, Bytes(found), maxBytes, dirs, later)
    ensures Bytes(found) + Peaks(f, found, dirs, later) <= Need(f, first, dirs, now)
            + TempBytes(found) - TempBytes(first)
  {
    hide GoodFormats, ReservesGone, AllWhole, AllSameLengths, Crashes, States, RecoveryPlan, SameReports, AllFit, Freed,
      Roomy;
    hide TempBytes, Bytes, LongestOf, AllHealthy, Peaks, WithinQuota, Need;
    CrashesSeen(first, RecoveryPlan(f, first, dirs, now));
    CrashesReport(f, first, dirs, now, found);
    ReportsImply(f, first, found);
    CrashesRoomy(f, first, dirs, dirs, now, found);
    RoomyWhole(f, first, found, dirs, now);
    WholeIsHealthy(f, found);
    LaterAttemptFits(f, first, dirs, now, later, found);
    NeedAtAnotherTime(f, found, 0, dirs, now, later);
    RoomFor(f, first, found, dirs, now, later);
  }

  lemma {:induction false} WholeIsHealthy(f: Formats, d: Disk)
    requires AllWhole(f, d)
    ensures AllHealthy(f, d)
  {
    hide ChunksAt, VideoBytes, AudioBytes, MediaApart;
    forall dir ensures Healthy(f, d, dir) {
      assert Whole(f, d, dir);
    }
  }

  lemma {:induction false} RoomFor(f: Formats, d: Disk, t: Disk, dirs: seq<string>, now: string -> int,
                                   later: string -> int)
    requires t in Roomy(f, d, dirs, now) && Need(f, t, dirs, now) == Need(f, t, dirs, later)
    ensures Bytes(t) + Peaks(f, t, dirs, later) <= Need(f, d, dirs, now) + TempBytes(t) - TempBytes(d)
  {
    hide Peaks, Bytes, TempBytes, LongestOf, AllWhole;
  }

  // ---------------------------------------------------------------- one session over quota

  lemma {:induction false} FirstStays(f: Formats, d: Disk, t: Disk, first: string, later: string, now: string -> int)
    ensures StoppedAt(f, d, t, [first, later], 0, now) ==> OpenAt(f, t, first) && OwnSame(d, t, later)
  {
    assert [first, later][1] == later;
  }

  /** A run in which the first session does not fit the quota: recovery ends there, and a later
      session that would have fitted is left RECORDING with every file as it was. */
  method LaterSessionIsLeft(store: SpoolStore, f: Formats, first: string, later: string, now: string -> int)
    returns (listed: seq<string>, aborted: bool)
    requires store.Valid() && GoodFormats(f) && ReservesGone(f, store.disk) && store.external == {}
    requires first != later && OpenAt(f, store.disk, first) && OpenAt(f, store.disk, later) && store.minFreeBytes == 0
    requires !Fits(store.disk, store.usedBytes, store.maxBytes, PlanAt(f, store.disk, first, now(first)))
    modifies store`disk, store`usedBytes, store`nextToken, store`trace, store`faults
    ensures store.faults == old(store.faults) ==> aborted && listed == []
    ensures store.faults == old(store.faults) ==>
              OpenAt(f, store.disk, first) && OwnSame(old(store.disk), store.disk, later)
  {
    hide Fits, PlanAt, GoodFormats, ReservesGone, Added, Resumable, Roomy, AllWhole, AllHealthy, SameReports,
      StaysTerminal, OwnSame;
    hide Sum, Booked, TempsBelow, Accounted, OpenAt, Peaks, Growth, SessionAt, StoppedAt, AllFit, Crashes, RecoveryPlan;
    ghost var d := store.disk;
    assert Distinct([first, later]);
    var sessions;
    sessions, listed, aborted := RecoverSessions(store, f, [first, later], now);
    OneFits(f, d, old(store.usedBytes), store.maxBytes, first, now);
    AllFitThen(f, d, old(store.usedBytes), store.maxBytes, [first], [later], now);
    assert [first] + [later] == [first, later] && [first, later][..1] == [first] && [first, later][..0] == [];
    FirstStays(f, d, store.disk, first, later, now);
    assert listed != [] ==> listed[0] in Elements(listed);
  }

  /** Such a spool: it is full, a crash took the first session's reserve before its terminal
      record was written, and that record is longer than the open one; the later session still
      holds its reserve and fits. */
  lemma {:induction false} FullSpoolBlocksLater(f: Formats, first: string, later: string, s: Session, q: Session,
                                                reserve: string, used: nat, now: int)
    requires GoodFormats(f) && first != later && used > 0
    requires s.state.Recording? && s.backend.FrameSequence? && q.state.Recording? && q.backend.FrameSequence?
    requires |f.sessions.encode(ConcludeFrames(Revived(s, now), now, first, []))| > |f.sessions.encode(s)|
    requires |f.sessions.encode(ConcludeFrames(Revived(q, now), now, later, []))| <= |f.sessions.encode(q)| + |reserve|
    ensures var d := map[SessionFile(first) := f.sessions.encode(s), SessionFile(later) := f.sessions.encode(q),
                         ReserveFile(later) := reserve];
            && OpenAt(f, d, first) && OpenAt(f, d, later) && ReservesGone(f, d)
            && !Fits(d, used, used, PlanAt(f, d, first, now)) && Fits(d, used, used, PlanAt(f, d, later, now))
  {
    hide Recoverable, ConcludeFrames, Fits, FramesPlan;
    var d := map[SessionFile(first) := f.sessions.encode(s), SessionFile(later) := f.sessions.encode(q),
                 ReserveFile(later) := reserve];
    NothingRecoverable(f, d, first);
    NothingRecoverable(f, d, later);
    FramesPlanFits(f, d, used, used, first, Revived(s, now), [], now);
    FramesPlanFits(f, d, used, used, later, Revived(q, now), [], now);
  }
}
