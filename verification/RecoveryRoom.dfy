/** The room startup recovery needs: the file steps that close each session left open, when a
    quota lets all of them through, and why being interrupted never makes it need more. */
module RecoveryRoom {
  import opened Common
  import opened SpoolFiles
  import opened FilePlans
  import opened Spool
  import opened Journal
  import opened FrameRecording
  import opened Finalization
  import opened VideoFinalization

  ghost predicate OpenAt(f: Formats, d: Disk, dir: string) {
    SessionAt(f, d, dir).Some? && SessionAt(f, d, dir).value.state.Recording?
  }

  function Revived(s: Session, now: int): Session {
    s.(state := Recovered, stoppedNs := now)
  }

  /** The file steps that close what recovery finds open; none for any other session. */
  ghost function PlanAt(f: Formats, d: Disk, dir: string, now: int): seq<FileStep> {
    if !OpenAt(f, d, dir) then []
    else
      var s := Revived(SessionAt(f, d, dir).value, now);
      if s.backend.FfmpegMp4? then
        VideoPlan(f, d, dir, s, ChunksAt(f, d, VideoJournal(dir)), ChunksAt(f, d, AudioJournal(dir)), s.separateAudio,
                  now)
      else FramesPlan(f, dir, s, Recoverable(f, d, dir), now)
  }

  /** Each open session in turn gets its steps past the quota, given what those before it
      added and freed; now is the time at which recovery comes to each. */
  ghost predicate AllFit(f: Formats, d: Disk, used: int, maxBytes: nat, dirs: seq<string>, now: string -> int)
    decreases |dirs|
  {
    dirs == [] ||
      var plan := PlanAt(f, d, dirs[0], now(dirs[0]));
      Fits(d, used, maxBytes, plan) && AllFit(f, d, used + Growth(d, plan), maxBytes, dirs[1..], now)
  }

  ghost function GrowthOf(f: Formats, d: Disk, dirs: seq<string>, now: string -> int): int
    decreases |dirs|
  {
    if dirs == [] then 0 else Growth(d, PlanAt(f, d, dirs[0], now(dirs[0]))) + GrowthOf(f, d, dirs[1..], now)
  }

  lemma {:induction false} AllFitThen(f: Formats, d: Disk, used: int, maxBytes: nat, p: seq<string>, q: seq<string>,
                                      now: string -> int)
    ensures AllFit(f, d, used, maxBytes, p + q, now)
       <==> AllFit(f, d, used, maxBytes, p, now) && AllFit(f, d, used + GrowthOf(f, d, p, now), maxBytes, q, now)
    ensures GrowthOf(f, d, p + q, now) == GrowthOf(f, d, p, now) + GrowthOf(f, d, q, now)
    decreases |p|
  {
    hide PlanAt, Fits, Growth;
    if p == [] {
      assert p + q == q;
    } else {
      assert (p + q)[1..] == p[1..] + q;
      AllFitThen(f, d, used + Growth(d, PlanAt(f, d, p[0], now(p[0]))), maxBytes, p[1..], q, now);
    }
  }

  /** What the open sessions may need at the most beyond the bytes in use. */
  ghost function Peaks(f: Formats, d: Disk, dirs: seq<string>, now: string -> int): nat
    decreases |dirs|
  {
    if dirs == [] then 0 else Peak(d, PlanAt(f, d, dirs[0], now(dirs[0]))) + Peaks(f, d, dirs[1..], now)
  }

  /** The most bytes a spool restarted on this disk would have to hold while it recovers, the
      temporary files it finds included. */
  ghost function Need(f: Formats, d: Disk, dirs: seq<string>, now: string -> int): nat {
    Bytes(d) + Peaks(f, d, dirs, now)
  }

  /** The longest text recovery may have to write. */
  ghost function LongestOf(f: Formats, d: Disk, dirs: seq<string>, now: string -> int): nat
    decreases |dirs|
  {
    if dirs == [] then 0
    else Max(Longest(PlanAt(f, d, dirs[0], now(dirs[0]))), LongestOf(f, d, dirs[1..], now))
  }

  /** The most bytes in use after any write that asks the quota, session by session. */
  ghost function AllReach(f: Formats, d: Disk, used: int, dirs: seq<string>, now: string -> int): int
    decreases |dirs|
  {
    if dirs == [] then 0
    else
      var plan := PlanAt(f, d, dirs[0], now(dirs[0]));
      Max(Reach(d, used, plan), AllReach(f, d, used + Growth(d, plan), dirs[1..], now))
  }

  /** It is the least quota that lets every session through. */
  lemma {:induction false} AllFitReach(f: Formats, d: Disk, used: int, maxBytes: nat, dirs: seq<string>,
                                       now: string -> int)
    ensures AllFit(f, d, used, maxBytes, dirs, now) <==> WithinQuota(AllReach(f, d, used, dirs, now), maxBytes)
    ensures AllReach(f, d, used, dirs, now) >= 0
    decreases |dirs|
  {
    hide PlanAt, Fits, Growth, Reach;
    if dirs != [] {
      var plan := PlanAt(f, d, dirs[0], now(dirs[0]));
      FitsReach(d, used, maxBytes, plan);
      AllFitReach(f, d, used + Growth(d, plan), maxBytes, dirs[1..], now);
    }
  }

  /** Room for the peaks lets every session through, in any order. */
  lemma {:induction false} PeaksSuffice(f: Formats, d: Disk, used: int, maxBytes: nat, dirs: seq<string>,
                                        now: string -> int)
    requires WithinQuota(used + Peaks(f, d, dirs, now), maxBytes)
    ensures AllFit(f, d, used, maxBytes, dirs, now)
    decreases |dirs|
  {
    hide PlanAt, Fits, Peak, Growth;
    if dirs != [] {
      var plan := PlanAt(f, d, dirs[0], now(dirs[0]));
      PeakSuffices(d, used, maxBytes, plan);
      GrowthWithinPeak(d, plan);
      PeaksSuffice(f, d, used + Growth(d, plan), maxBytes, dirs[1..], now);
    }
  }

  lemma {:induction false} GrowthWithinPeak(d: Disk, plan: seq<FileStep>)
    ensures Growth(d, plan) <= Peak(d, plan)
    decreases |plan|
  {
    hide Do, Grows;
    if plan != [] {
      GrowthWithinPeak(Do(d, plan[0]), plan[1..]);
    }
  }

  // ---------------------------------------------------------------- sessions do not interfere

  ghost predicate OwnSame(d: Disk, t: Disk, dir: string) {
    forall p: Path :: InSession(p, dir) ==> SameFile(d, t, p)
  }

  lemma {:induction false} KeptIsOwnSame(d: Disk, t: Disk, dir: string, other: string)
    requires OthersKept(d, t, dir) && other != dir
    ensures OwnSame(d, t, other)
  {
    forall p: Path | InSession(p, other) ensures SameFile(d, t, p) {
      assert !p.Temp? && !InSession(p, dir);
    }
  }

  lemma {:induction false} OwnSameThen(d: Disk, t: Disk, u: Disk, dir: string)
    requires OwnSame(d, t, dir) && OwnSame(t, u, dir)
    ensures OwnSame(d, u, dir)
  {
    forall p: Path | InSession(p, dir) ensures SameFile(d, u, p) {
      assert SameFile(d, t, p) && SameFile(t, u, p);
    }
  }

  lemma {:induction false} PlanInside(f: Formats, d: Disk, dir: string, now: int)
    ensures Inside(PlanAt(f, d, dir, now), dir)
  {
    hide VideoRecord, ConcludeFrames, ChunksAt, Recoverable, FrontPart;
    if OpenVideo(f, d, dir) {
      var s := Revived(SessionAt(f, d, dir).value, now);
      FrontInside(f, d, dir, s, ChunksAt(f, d, VideoJournal(dir)), ChunksAt(f, d, AudioJournal(dir)), s.separateAudio);
    }
  }

  lemma {:induction false} FrontInside(f: Formats, d: Disk, dir: string, session: Session, entries: seq<ChunkEntry>,
                                       audio: seq<ChunkEntry>, separate: bool)
    ensures Inside(FrontPart(f, d, dir, session, entries, audio, separate), dir)
  {
    hide VideoText, AudioText, Inside;
    var video, sound := VideoText(f, d, dir, session, entries), AudioText(f, d, dir, session, audio, separate);
    PiecesInside(dir, video, sound, separate);
    InsideThen(PlacePlan(dir, separate), SidecarPlan(dir, video, sound, separate), dir);
    InsideThen(MildPart(f, d, dir, session, entries, audio, separate), if video.Some? then [] else DropPlan(dir), dir);
  }

  lemma {:induction false} InsideThen(p: seq<FileStep>, q: seq<FileStep>, dir: string)
    requires Inside(p, dir) && Inside(q, dir)
    ensures Inside(p + q, dir)
  {
    hide InSession;
  }

  lemma {:induction false} PiecesInside(dir: string, video: Option<string>, sound: Option<string>, separate: bool)
    ensures Inside(PlacePlan(dir, separate), dir) && Inside(SidecarPlan(dir, video, sound, separate), dir)
    ensures Inside(DropPlan(dir), dir) && Inside([], dir)
  {
  }

  lemma {:induction false} PlanLasts(f: Formats, d: Disk, dir: string, now: int)
    ensures Lasting(PlanAt(f, d, dir, now))
  {
    hide PlanAt;
    PlanInside(f, d, dir, now);
  }

  /** A session's steps and what they need depend on its own files alone. */
  lemma {:induction false} SameSteps(f: Formats, d: Disk, t: Disk, dir: string, now: int)
    requires OwnSame(d, t, dir)
    ensures SessionAt(f, t, dir) == SessionAt(f, d, dir)
    ensures var plan := PlanAt(f, d, dir, now);
            && PlanAt(f, t, dir, now) == plan
            && Peak(t, plan) == Peak(d, plan) && Growth(t, plan) == Growth(d, plan)
            && EverGrows(t, plan) == EverGrows(d, plan)
            && (forall used :: Reach(t, used, plan) == Reach(d, used, plan))
            && forall used, maxBytes: nat :: Fits(t, used, maxBytes, plan) <==> Fits(d, used, maxBytes, plan)
  {
    hide Peak, Growth, Fits, Reach, EverGrows, VideoPlan, FramesPlan, PlanAt;
    SamePlan(f, d, t, dir, now);
    var plan := PlanAt(f, d, dir, now);
    PlanInside(f, d, dir, now);
    forall used, maxBytes: nat ensures Fits(t, used, maxBytes, plan) <==> Fits(d, used, maxBytes, plan) {
      OwnNumbers(d, t, used, maxBytes, plan, dir);
    }
    forall used ensures Reach(t, used, plan) == Reach(d, used, plan) {
      OwnNumbers(d, t, used, 0, plan, dir);
    }
    OwnNumbers(d, t, 0, 0, plan, dir);
  }

  lemma {:induction false} SamePlan(f: Formats, d: Disk, t: Disk, dir: string, now: int)
    requires OwnSame(d, t, dir)
    ensures SessionAt(f, t, dir) == SessionAt(f, d, dir)
    ensures PlanAt(f, t, dir, now) == PlanAt(f, d, dir, now)
  {
    hide Recoverable, Lines, Parsed, ConcludeVideo, ConcludeFrames, PlacePlan, SidecarPlan;
    OwnFiles(d, t, dir);
    SameRecoverable(f, d, t, dir);
    SameCounts(f, d, t, dir);
  }

  lemma {:induction false} OwnFiles(d: Disk, t: Disk, dir: string)
    requires OwnSame(d, t, dir)
    ensures SameJournals(d, t, dir) && SameEvidence(d, t, dir) && VideoBytes(t, dir) == VideoBytes(d, dir)
    ensures forall separate :: AudioBytes(t, dir, separate) == AudioBytes(d, dir, separate)
    ensures JournalText(t, VideoJournal(dir)) == JournalText(d, VideoJournal(dir))
    ensures JournalText(t, AudioJournal(dir)) == JournalText(d, AudioJournal(dir))
  {
    assert InSession(SessionFile(dir), dir) && InSession(FrameJournal(dir), dir);
    assert InSession(VideoJournal(dir), dir) && InSession(AudioJournal(dir), dir);
    assert InSession(Video(dir), dir) && InSession(VideoPart(dir), dir);
    assert InSession(Audio(dir), dir) && InSession(AudioPart(dir), dir);
    forall n: nat, x: string ensures FrameFile(dir, n, x) in d <==> FrameFile(dir, n, x) in t {
      assert InSession(FrameFile(dir, n, x), dir);
    }
  }

  lemma {:induction false} OwnNumbers(d: Disk, t: Disk, used: int, maxBytes: nat, plan: seq<FileStep>, dir: string)
    requires OwnSame(d, t, dir) && Inside(plan, dir)
    ensures Peak(t, plan) == Peak(d, plan) && Growth(t, plan) == Growth(d, plan)
    ensures Fits(t, used, maxBytes, plan) <==> Fits(d, used, maxBytes, plan)
    ensures Reach(t, used, plan) == Reach(d, used, plan) && EverGrows(t, plan) == EverGrows(d, plan)
    decreases |plan|
  {
    hide OwnSame, Do, Grows;
    if plan != [] {
      assert InSession(plan[0].path, dir);
      OwnStep(d, t, plan[0], dir);
      assert Inside(plan[1..], dir);
      OwnNumbers(Do(d, plan[0]), Do(t, plan[0]), used + Grows(d, plan[0]), maxBytes, plan[1..], dir);
    }
  }

  lemma {:induction false} OwnStep(d: Disk, t: Disk, s: FileStep, dir: string)
    requires OwnSame(d, t, dir) && InSession(s.path, dir) && (s.Place? ==> InSession(s.to, dir))
    ensures OwnSame(Do(d, s), Do(t, s), dir) && Grows(d, s) == Grows(t, s)
  {
    assert SameFile(d, t, s.path) && (s.Place? ==> SameFile(d, t, s.to));
    forall p: Path | InSession(p, dir) ensures SameFile(Do(d, s), Do(t, s), p) {
      assert SameFile(d, t, p);
    }
  }

  // ---------------------------------------------------------------- starting again after a crash

  /** An open encoded session is whole: no partial file beside its finished one, media for its
      frames, and separate audio only with chunks to show for it. */
  ghost predicate Whole(f: Formats, d: Disk, dir: string) {
    OpenVideo(f, d, dir) ==>
      && MediaApart(d, dir) && Healthy(f, d, dir)
      && (SessionAt(f, d, dir).value.separateAudio && AudioBytes(d, dir, true) > 0 ==>
          ChunksAt(f, d, AudioJournal(dir)) != [])
  }

  predicate MediaApart(d: Disk, dir: string) {
    !(VideoPart(dir) in d && Video(dir) in d) && !(AudioPart(dir) in d && Audio(dir) in d)
  }

  /** The order in which a closing plan comes to its files. */
  function Rank(s: FileStep): int {
    match s.path
    case VideoPart(_) => 0
    case AudioPart(_) => 1
    case ReserveFile(_) => 2
    case VideoSidecar(_) => 3
    case Manifest(_) => 3
    case AudioSidecar(_) => 4
    case Audio(_) => 4
    case Video(_) => 5
    case VideoJournal(_) => 6
    case SessionFile(_) => 7
    case _ => 8
  }

  predicate Ascending(plan: seq<FileStep>, low: int, high: int) {
    && (forall i, j :: 0 <= i < j < |plan| ==> Rank(plan[i]) < Rank(plan[j]))
    && (forall i :: 0 <= i < |plan| ==> low <= Rank(plan[i]) < high && Tidy(plan[i]))
  }

  predicate Tidy(s: FileStep) {
    && !s.path.Temp?
    && (s.Place? ==>
        (s.path.VideoPart? && s.to == Video(s.path.dir)) || (s.path.AudioPart? && s.to == Audio(s.path.dir)))
  }

  lemma {:induction false} AscendingThen(p: seq<FileStep>, q: seq<FileStep>, low: int, mid: int, high: int)
    requires Ascending(p, low, mid) && Ascending(q, mid, high) && low <= mid <= high
    ensures Ascending(p + q, low, high)
  {
    hide Rank, Tidy;
  }

  lemma {:induction false} AscendingApart(s: FileStep, later: FileStep)
    requires Rank(s) < Rank(later) && Tidy(s) && Tidy(later)
    ensures Apart(s, later)
  {
  }

  lemma {:induction false} AscendingIsOrderly(d: Disk, plan: seq<FileStep>, dir: string)
    requires Ascending(plan, 0, 8) && Inside(plan, dir) && MediaApart(d, dir)
    ensures Orderly(d, plan)
  {
    hide Rank, Apart;
    forall i, j | 0 <= i < j < |plan| ensures Apart(plan[i], plan[j]) {
      AscendingApart(plan[i], plan[j]);
    }
  }

  lemma {:induction false} FrontAscends(f: Formats, d: Disk, dir: string, session: Session, entries: seq<ChunkEntry>,
                                        audio: seq<ChunkEntry>, separate: bool)
    ensures Ascending(FrontPart(f, d, dir, session, entries, audio, separate), 0, 7)
  {
    hide VideoText, AudioText, Ascending;
    var video, sound := VideoText(f, d, dir, session, entries), AudioText(f, d, dir, session, audio, separate);
    PlaceAscends(dir, separate);
    SidecarsAscend(dir, video, sound, separate);
    AscendingThen(PlacePlan(dir, separate), SidecarPlan(dir, video, sound, separate), 0, 3, 5);
    var last := if video.Some? then [] else DropPlan(dir);
    assert Ascending(last, 5, 7) by {
      DropAscends(dir);
      NothingAscends(5, 7);
    }
    AscendingThen(MildPart(f, d, dir, session, entries, audio, separate), last, 0, 5, 7);
  }

  lemma {:induction false} NothingAscends(low: int, high: int)
    ensures Ascending([], low, high)
  {
  }

  lemma {:induction false} DropAscends(dir: string)
    ensures Ascending(DropPlan(dir), 5, 7)
  {
  }

  lemma {:induction false} PlaceAscends(dir: string, separate: bool)
    ensures Ascending(PlacePlan(dir, separate), 0, 3)
  {
    var video, audio, reserve := Place(VideoPart(dir), Video(dir)), Place(AudioPart(dir), Audio(dir)),
      Drop(ReserveFile(dir));
    AscendingThen([video], if separate then [audio] else [], 0, 1, 2);
    AscendingThen([video] + (if separate then [audio] else []), [reserve], 0, 2, 3);
  }

  lemma {:induction false} SidecarsAscend(dir: string, video: Option<string>, sound: Option<string>, separate: bool)
    ensures Ascending(SidecarPlan(dir, video, sound, separate), 3, 5)
  {
    AscendingThen(if video.Some? then [Put(VideoSidecar(dir), video.value)] else [],
                  if sound.Some? then [Put(AudioSidecar(dir), sound.value)] else if separate then [Drop(Audio(dir))]
                     else [], 3, 4, 5);
  }

  lemma {:induction false} ManifestAscends(f: Formats, dir: string, session: Session, entries: seq<FrameEntry>)
    ensures Ascending(ManifestPlan(f, dir, session, entries), 0, 7)
  {
    AscendingThen([Drop(ReserveFile(dir))], if entries == [] then []
                  else [Put(Manifest(dir), f.manifest(session, entries))], 2, 3, 4);
  }

  lemma {:induction false} PlanIsOrderly(f: Formats, d: Disk, dir: string, now: int)
    requires Whole(f, d, dir)
    ensures Orderly(d, PlanAt(f, d, dir, now))
  {
    hide Orderly, FrontPart, ManifestPlan, ConcludeFrames, VideoRecord, ChunksAt, Recoverable, Rank, Healthy;
    if OpenAt(f, d, dir) {
      var s := Revived(SessionAt(f, d, dir).value, now);
      var plan := PlanAt(f, d, dir, now);
      PlanInside(f, d, dir, now);
      var front := plan[..|plan| - 1];
      if s.backend.FfmpegMp4? {
        var entries, audio := ChunksAt(f, d, VideoJournal(dir)), ChunksAt(f, d, AudioJournal(dir));
        FrontAscends(f, d, dir, s, entries, audio, s.separateAudio);
        assert front == FrontPart(f, d, dir, s, entries, audio, s.separateAudio);
      } else {
        ManifestAscends(f, dir, s, Recoverable(f, d, dir));
        assert front == ManifestPlan(f, dir, s, Recoverable(f, d, dir));
      }
      assert plan == front + [plan[|plan| - 1]];
      SessionAscends(dir, plan[|plan| - 1].data);
      AscendingThen(front, [plan[|plan| - 1]], 0, 7, 8);
      if s.backend.FfmpegMp4? {
        AscendingIsOrderly(d, plan, dir);
      } else {
        FramesOrderly(f, d, dir, s, Recoverable(f, d, dir), now);
      }
    } else {
      NothingOrderly(d);
    }
  }

  lemma {:induction false} NothingOrderly(d: Disk)
    ensures Orderly(d, [])
  {
  }

  lemma {:induction false} SessionAscends(dir: string, text: string)
    ensures Ascending([Put(SessionFile(dir), text)], 7, 8)
  {
  }

  lemma {:induction false} FramesOrderly(f: Formats, d: Disk, dir: string, session: Session, entries: seq<FrameEntry>,
                                         now: int)
    requires !session.state.Recording? && Ascending(FramesPlan(f, dir, session, entries, now), 0, 8)
    ensures Orderly(d, FramesPlan(f, dir, session, entries, now))
  {
    hide Rank, ConcludeFrames, Apart;
    var plan := FramesPlan(f, dir, session, entries, now);
    forall i, j | 0 <= i < j < |plan| ensures Apart(plan[i], plan[j]) {
      AscendingApart(plan[i], plan[j]);
    }
  }

  // The plan of a recovery that starts again is the plan it started with

  /** What the plan of an open encoded session is made from. */
  ghost predicate SameInputs(f: Formats, d: Disk, t: Disk, dir: string, separate: bool) {
    && SessionAt(f, t, dir) == SessionAt(f, d, dir) && MediaApart(t, dir)
    && ChunksAt(f, t, VideoJournal(dir)) == ChunksAt(f, d, VideoJournal(dir))
    && ChunksAt(f, t, AudioJournal(dir)) == ChunksAt(f, d, AudioJournal(dir))
    && (ChunksAt(f, d, VideoJournal(dir)) != [] ==> VideoBytes(t, dir) == VideoBytes(d, dir))
    && AudioBytes(t, dir, separate) == AudioBytes(d, dir, separate)
  }

  /** The steps of a plan that come before the session file. */
  ghost predicate EarlyStep(f: Formats, d: Disk, dir: string, separate: bool, s: FileStep) {
    match s
    case Put(p, _) => p == VideoSidecar(dir) || p == AudioSidecar(dir)
    case Drop(p) =>
      || p == ReserveFile(dir)
      || (p == Audio(dir) && separate && AudioBytes(d, dir, true) == 0)
      || ((p == Video(dir) || p == VideoJournal(dir)) && ChunksAt(f, d, VideoJournal(dir)) == [])
    case Place(p, to) =>
      (p == VideoPart(dir) && to == Video(dir)) || (separate && p == AudioPart(dir) && to == Audio(dir))
  }

  lemma {:induction false} EarlyKeepsInputs(f: Formats, d: Disk, x: Disk, dir: string, separate: bool, s: FileStep)
    requires SameInputs(f, d, x, dir, separate) && EarlyStep(f, d, dir, separate, s)
    ensures SameInputs(f, d, Do(x, s), dir, separate)
  {
    hide ChunksAt;
    EarlyKeepsMedia(f, d, x, dir, separate, s);
    EarlyKeepsJournals(f, d, x, dir, separate, s);
  }

  lemma {:induction false} EarlyKeepsMedia(f: Formats, d: Disk, x: Disk, dir: string, separate: bool, s: FileStep)
    requires MediaApart(x, dir) && EarlyStep(f, d, dir, separate, s)
             && AudioBytes(x, dir, separate) == AudioBytes(d, dir, separate)
    ensures MediaApart(Do(x, s), dir) && AudioBytes(Do(x, s), dir, separate) == AudioBytes(d, dir, separate)
    ensures ChunksAt(f, d, VideoJournal(dir)) != [] ==> VideoBytes(Do(x, s), dir) == VideoBytes(x, dir)
  {
    hide ChunksAt;
  }

  lemma {:induction false} EarlyKeepsJournals(f: Formats, d: Disk, x: Disk, dir: string, separate: bool, s: FileStep)
    requires EarlyStep(f, d, dir, separate, s)
    requires ChunksAt(f, x, VideoJournal(dir)) == ChunksAt(f, d, VideoJournal(dir))
    ensures SessionAt(f, Do(x, s), dir) == SessionAt(f, x, dir)
    ensures ChunksAt(f, Do(x, s), VideoJournal(dir)) == ChunksAt(f, d, VideoJournal(dir))
    ensures ChunksAt(f, Do(x, s), AudioJournal(dir)) == ChunksAt(f, x, AudioJournal(dir))
  {
    hide Lines, Parsed;
    var y := Do(x, s);
    assert JournalText(y, AudioJournal(dir)) == JournalText(x, AudioJournal(dir));
    if s == Drop(VideoJournal(dir)) {
      NoChunks(f, y, VideoJournal(dir));
    } else {
      assert JournalText(y, VideoJournal(dir)) == JournalText(x, VideoJournal(dir));
    }
  }

  lemma {:induction false} NoChunks(f: Formats, d: Disk, p: Path)
    requires p !in d
    ensures ChunksAt(f, d, p) == []
  {
    EmptyHasNoLines();
  }

  lemma {:induction false} SeenKeepsInputs(f: Formats, d: Disk, x: Disk, y: Disk, dir: string, separate: bool)
    requires SameInputs(f, d, x, dir, separate) && y in Seen(x)
    ensures SameInputs(f, d, y, dir, separate)
  {
    hide Seen, Lines, Parsed;
    SeenSame(x, y);
    assert OwnSame(x, y, dir);
    OwnFiles(x, y, dir);
    SameCounts(f, x, y, dir);
    assert SameFile(x, y, Video(dir)) && SameFile(x, y, VideoPart(dir)) && SameFile(x, y, Audio(dir))
           && SameFile(x, y, AudioPart(dir));
  }

  lemma {:induction false} InputsKept(f: Formats, d: Disk, x: Disk, plan: seq<FileStep>, dir: string, separate: bool,
                                      t: Disk)
    requires SameInputs(f, d, x, dir, separate) && t in States(x, plan)
    requires forall i :: 0 <= i < |plan| ==> EarlyStep(f, d, dir, separate, plan[i])
    ensures SameInputs(f, d, t, dir, separate)
    decreases |plan|
  {
    hide SameInputs, EarlyStep, Seen, Do;
    if t in Seen(x) {
      SeenKeepsInputs(f, d, x, t, dir, separate);
    } else {
      EarlyKeepsInputs(f, d, x, dir, separate, plan[0]);
      InputsKept(f, d, Do(x, plan[0]), plan[1..], dir, separate, t);
    }
  }

  lemma {:induction false} FrontIsEarly(f: Formats, d: Disk, dir: string, session: Session, entries: seq<ChunkEntry>,
                                        audio: seq<ChunkEntry>, separate: bool)
    requires entries == ChunksAt(f, d, VideoJournal(dir)) && audio == ChunksAt(f, d, AudioJournal(dir))
    requires entries != [] ==> VideoBytes(d, dir) > 0
    requires separate && AudioBytes(d, dir, true) > 0 ==> audio != []
    ensures var front := FrontPart(f, d, dir, session, entries, audio, separate);
            forall i :: 0 <= i < |front| ==> EarlyStep(f, d, dir, separate, front[i])
  {
    hide ChunksAt, VideoBytes, AudioBytes;
  }

  lemma {:induction false} InputsGivePlan(f: Formats, d: Disk, t: Disk, dir: string, session: Session, separate: bool,
                                          now: int)
    requires SameInputs(f, d, t, dir, separate) && !session.state.Recording?
    ensures var entries, audio := ChunksAt(f, d, VideoJournal(dir)), ChunksAt(f, d, AudioJournal(dir));
            VideoPlan(f, t, dir, session, entries, audio, separate, now)
              == VideoPlan(f, d, dir, session, entries, audio, separate, now)
  {
    hide ChunksAt, VideoBytes, AudioBytes;
  }

  lemma {:induction false} CrashedVideo(f: Formats, d: Disk, dir: string, now: int, t: Disk)
    requires OpenVideo(f, d, dir) && Whole(f, d, dir)
    requires var s := Revived(SessionAt(f, d, dir).value, now);
             t in States(d, FrontPart(f, d, dir, s, ChunksAt(f, d, VideoJournal(dir)),
                                      ChunksAt(f, d, AudioJournal(dir)), s.separateAudio))
    ensures Whole(f, t, dir) && PlanAt(f, t, dir, now) == PlanAt(f, d, dir, now)
  {
    hide States, FrontPart, VideoPlan, ChunksAt, VideoBytes, AudioBytes, EarlyStep, SessionAt;
    var s := Revived(SessionAt(f, d, dir).value, now);
    var entries, audio := ChunksAt(f, d, VideoJournal(dir)), ChunksAt(f, d, AudioJournal(dir));
    FrontIsEarly(f, d, dir, s, entries, audio, s.separateAudio);
    InputsKept(f, d, d, FrontPart(f, d, dir, s, entries, audio, s.separateAudio), dir, s.separateAudio, t);
    InputsGivePlan(f, d, t, dir, s, s.separateAudio, now);
  }

  lemma {:induction false} CrashedFrames(f: Formats, d: Disk, dir: string, now: int, t: Disk)
    requires OpenAt(f, d, dir) && !OpenVideo(f, d, dir)
    requires t in States(d, ManifestPlan(f, dir, Revived(SessionAt(f, d, dir).value, now), Recoverable(f, d, dir)))
    ensures Whole(f, t, dir) && PlanAt(f, t, dir, now) == PlanAt(f, d, dir, now)
  {
    hide States, Recoverable, FramesPlan;
    var plan := ManifestPlan(f, dir, Revived(SessionAt(f, d, dir).value, now), Recoverable(f, d, dir));
    UntouchedFile(d, plan, SessionFile(dir), t);
    UntouchedFile(d, plan, FrameJournal(dir), t);
    forall n: nat, x: string ensures FrameFile(dir, n, x) in d <==> FrameFile(dir, n, x) in t {
      UntouchedFile(d, plan, FrameFile(dir, n, x), t);
    }
    SameRecoverable(f, d, t, dir);
  }

  lemma {:induction false} EndsClosed(f: Formats, d: Disk, front: seq<FileStep>, dir: string, record: Session, t: Disk)
    requires GoodFormats(f) && !record.state.Recording?
    requires t in Seen(Do(After(d, front), Put(SessionFile(dir), f.sessions.encode(record))))
    ensures !OpenAt(f, t, dir)
  {
    hide Seen, After;
    var u := Do(After(d, front), Put(SessionFile(dir), f.sessions.encode(record)));
    SeenSame(u, t);
    assert SameFile(u, t, SessionFile(dir));
  }

  /** A crash while a session is closed leaves it closed, or with the same steps ahead. */
  lemma {:induction false} CrashedPlan(f: Formats, d: Disk, dir: string, now: int, t: Disk)
    requires GoodFormats(f) && Whole(f, d, dir) && t in States(d, PlanAt(f, d, dir, now))
    ensures Whole(f, t, dir)
    ensures var plan := PlanAt(f, d, dir, now);
            PlanAt(f, t, dir, now) == plan || (PlanAt(f, t, dir, now) == [] && t in Seen(After(d, plan)))
  {
    hide States, FrontPart, ManifestPlan, ChunksAt, Recoverable, Whole, SessionAt, Seen, After, GoodFormats,
      VideoRecord, ConcludeFrames;
    if OpenAt(f, d, dir) {
      var s := Revived(SessionAt(f, d, dir).value, now);
      var front, record;
      if s.backend.FfmpegMp4? {
        var entries, audio := ChunksAt(f, d, VideoJournal(dir)), ChunksAt(f, d, AudioJournal(dir));
        front := FrontPart(f, d, dir, s, entries, audio, s.separateAudio);
        record := VideoRecord(d, dir, s, entries, audio, s.separateAudio, now);
        RecordCloses(d, dir, s, entries, audio, s.separateAudio, now);
      } else {
        front := ManifestPlan(f, dir, s, Recoverable(f, d, dir));
        record := ConcludeFrames(s, now, dir, Recoverable(f, d, dir));
      }
      LastStep(d, front, Put(SessionFile(dir), f.sessions.encode(record)));
      if t !in States(d, front) {
        EndsClosed(f, d, front, dir, record, t);
        ClosedIsWhole(f, t, dir);
      } else if s.backend.FfmpegMp4? {
        CrashedVideo(f, d, dir, now, t);
      } else {
        CrashedFrames(f, d, dir, now, t);
      }
    } else {
      SeenPlan(f, d, dir, now, t);
    }
  }

  lemma {:induction false} RecordCloses(d: Disk, dir: string, session: Session, entries: seq<ChunkEntry>,
                                        audio: seq<ChunkEntry>, separate: bool, now: int)
    requires !session.state.Recording?
    ensures !VideoRecord(d, dir, session, entries, audio, separate, now).state.Recording?
  {
  }

  lemma {:induction false} ClosedIsWhole(f: Formats, d: Disk, dir: string)
    requires !OpenAt(f, d, dir)
    ensures Whole(f, d, dir)
  {
  }

  lemma {:induction false} SeenPlan(f: Formats, d: Disk, dir: string, now: int, t: Disk)
    requires !OpenAt(f, d, dir) && t in States(d, [])
    ensures Whole(f, t, dir) && PlanAt(f, t, dir, now) == []
  {
    hide Seen;
    assert States(d, []) == Seen(d) + iset{};
    SeenSame(d, t);
    assert SameFile(d, t, SessionFile(dir));
  }

  /** Once its steps are taken a session is closed. */
  lemma {:induction false} ClosedAfter(f: Formats, d: Disk, dir: string, now: int)
    requires GoodFormats(f)
    ensures PlanAt(f, After(d, PlanAt(f, d, dir, now)), dir, now) == []
  {
    hide FrontPart, ManifestPlan, ChunksAt, Recoverable, SessionAt, After, GoodFormats, VideoRecord, ConcludeFrames;
    if OpenAt(f, d, dir) {
      var s := Revived(SessionAt(f, d, dir).value, now);
      var front, record;
      if s.backend.FfmpegMp4? {
        var entries, audio := ChunksAt(f, d, VideoJournal(dir)), ChunksAt(f, d, AudioJournal(dir));
        front := FrontPart(f, d, dir, s, entries, audio, s.separateAudio);
        record := VideoRecord(d, dir, s, entries, audio, s.separateAudio, now);
        RecordCloses(d, dir, s, entries, audio, s.separateAudio, now);
      } else {
        front := ManifestPlan(f, dir, s, Recoverable(f, d, dir));
        record := ConcludeFrames(s, now, dir, Recoverable(f, d, dir));
      }
      LastStep(d, front, Put(SessionFile(dir), f.sessions.encode(record)));
      SeenSelf(After(d, PlanAt(f, d, dir, now)));
      EndsClosed(f, d, front, dir, record, After(d, PlanAt(f, d, dir, now)));
    } else {
      NoStepsNoBytes(d, 0);
    }
  }

  /** Bytes and quota of one session, seen from a crash while it is closed: as many bytes in
      the end, no higher a peak, no higher a reach, no longer a text. */
  lemma {:induction false} CrashedNumbers(f: Formats, d: Disk, dir: string, now: int, t: Disk, used: int)
    requires GoodFormats(f) && Whole(f, d, dir) && t in States(d, PlanAt(f, d, dir, now))
    ensures var plan, again := PlanAt(f, d, dir, now), PlanAt(f, t, dir, now);
            && LiveBytes(t) + Growth(t, again) == LiveBytes(d) + Growth(d, plan)
            && LiveBytes(t) + Peak(t, again) <= LiveBytes(d) + Peak(d, plan)
            && Reach(t, used + LiveBytes(t) - LiveBytes(d), again) <= Reach(d, used, plan)
            && Longest(again) <= Longest(plan)
  {
    hide States, PlanAt, Whole, LiveBytes, GoodFormats, Orderly, Reach, Peak, Growth, Seen, After;
    var plan := PlanAt(f, d, dir, now);
    CrashedPlan(f, d, dir, now, t);
    PlanIsOrderly(f, d, dir, now);
    if PlanAt(f, t, dir, now) == plan {
      RerunReach(d, used, plan, t);
      RerunLive(d, plan, t);
    } else {
      OrderlyLasts(d, plan);
      GrowthBytes(d, plan);
      SeenBytes(After(d, plan), t);
      GrowthWithinPeak(d, plan);
      FitsReach(d, used, 0, plan);
      NoStepsNoBytes(t, used + LiveBytes(t) - LiveBytes(d));
    }
  }

  lemma {:induction false} NoStepsNoBytes(d: Disk, used: int)
    ensures After(d, []) == d && Growth(d, []) == 0 && Peak(d, []) == 0 && Reach(d, used, []) == 0 && Longest([]) == 0
  {
  }

  lemma {:induction false} GrowthBytes(d: Disk, plan: seq<FileStep>)
    requires Lasting(plan)
    ensures LiveBytes(After(d, plan)) == LiveBytes(d) + Growth(d, plan)
    decreases |plan|
  {
    hide LiveBytes, Do, Grows;
    if plan != [] {
      StepBytes(d, plan[0]);
      GrowthBytes(Do(d, plan[0]), plan[1..]);
    }
  }

  // ---------------------------------------------------------------- all sessions together

  lemma {:induction false} PeaksApart(f: Formats, d: Disk, t: Disk, dir: string, dirs: seq<string>, now: string -> int)
    requires OthersKept(d, t, dir) && dir !in dirs
    ensures Peaks(f, t, dirs, now) == Peaks(f, d, dirs, now)
    decreases |dirs|
  {
    hide OthersKept, PlanAt, Peak, OwnSame;
    if dirs != [] {
      KeptIsOwnSame(d, t, dir, dirs[0]);
      SameSteps(f, d, t, dirs[0], now(dirs[0]));
      PeaksApart(f, d, t, dir, dirs[1..], now);
    }
  }

  lemma {:induction false} PeaksWith(f: Formats, d: Disk, t: Disk, dir: string, dirs: seq<string>, now: string -> int)
    requires OthersKept(d, t, dir) && dir in dirs && Distinct(dirs)
    ensures Peaks(f, t, dirs, now) - Peak(t, PlanAt(f, t, dir, now(dir)))
            == Peaks(f, d, dirs, now) - Peak(d, PlanAt(f, d, dir, now(dir)))
    decreases |dirs|
  {
    hide OthersKept, PlanAt, Peak, OwnSame;
    if dirs[0] == dir {
      PeaksApart(f, d, t, dir, dirs[1..], now);
    } else {
      KeptIsOwnSame(d, t, dir, dirs[0]);
      SameSteps(f, d, t, dirs[0], now(dirs[0]));
      PeaksWith(f, d, t, dir, dirs[1..], now);
    }
  }

  ghost predicate AllWhole(f: Formats, d: Disk) {
    forall dir :: Whole(f, d, dir)
  }

  /** The states that are whole, hold at most one text more in temporary files, and need no
      more room than d but for what they hold there. */
  ghost function Roomy(f: Formats, d: Disk, dirs: seq<string>, now: string -> int): iset<Disk> {
    iset t: Disk | AllWhole(f, t) && NeedsNoMore(f, d, t, dirs, now)
  }

  ghost predicate NeedsNoMore(f: Formats, d: Disk, t: Disk, dirs: seq<string>, now: string -> int) {
    && Need(f, t, dirs, now) <= Need(f, d, dirs, now) + TempBytes(t) - TempBytes(d)
    && TempBytes(d) <= TempBytes(t) <= TempBytes(d) + LongestOf(f, d, dirs, now)
    && LongestOf(f, t, dirs, now) <= LongestOf(f, d, dirs, now)
  }

  lemma {:induction false} LongestApart(f: Formats, d: Disk, t: Disk, dir: string, dirs: seq<string>,
                                        now: string -> int)
    requires OthersKept(d, t, dir)
    requires Longest(PlanAt(f, t, dir, now(dir))) <= Longest(PlanAt(f, d, dir, now(dir)))
    ensures LongestOf(f, t, dirs, now) <= LongestOf(f, d, dirs, now)
    ensures dir in dirs ==> Longest(PlanAt(f, d, dir, now(dir))) <= LongestOf(f, d, dirs, now)
    decreases |dirs|
  {
    hide OthersKept, PlanAt, Longest, OwnSame;
    if dirs != [] {
      if dirs[0] != dir {
        KeptIsOwnSame(d, t, dir, dirs[0]);
        SameSteps(f, d, t, dirs[0], now(dirs[0]));
      }
      LongestApart(f, d, t, dir, dirs[1..], now);
    }
  }

  /** Wherever a crash interrupts the closing of a session, whether its reserve is already gone
      or not, a recovery that starts from there needs more room than one from before by the
      new temporary bytes at the most, and those are at most one of its texts. */
  lemma {:induction false} NeedGrowsByTemps(f: Formats, d: Disk, dirs: seq<string>, now: string -> int, dir: string)
    requires GoodFormats(f) && AllWhole(f, d) && Distinct(dirs) && dir in dirs
    ensures Crashes(d, PlanAt(f, d, dir, now(dir))) <= Roomy(f, d, dirs, now)
  {
    hide States, Crashes, PlanAt, Whole, LiveBytes, Bytes, TempBytes, GoodFormats, Peak, Peaks, OthersKept, Longest,
      Orderly, LongestOf;
    var plan := PlanAt(f, d, dir, now(dir));
    PlanInside(f, d, dir, now(dir));
    CrashesSeen(d, plan);
    PlanIsOrderly(f, d, dir, now(dir));
    OrderlyLasts(d, plan);
    forall t | t in Crashes(d, plan) ensures AllWhole(f, t) && NeedsNoMore(f, d, t, dirs, now) {
      InsideKeeps(d, plan, dir, t);
      CrashedNumbers(f, d, dir, now(dir), t, 0);
      PeaksWith(f, d, t, dir, dirs, now);
      CrashTemps(d, plan, t);
      LongestApart(f, d, t, dir, dirs, now);
      BytesSplit(d);
      BytesSplit(t);
      CrashedWhole(f, d, dir, now(dir), t);
    }
  }

  lemma {:induction false} CrashedWhole(f: Formats, d: Disk, dir: string, now: int, t: Disk)
    requires GoodFormats(f) && AllWhole(f, d) && t in States(d, PlanAt(f, d, dir, now))
    ensures AllWhole(f, t)
  {
    hide States, PlanAt, Whole, GoodFormats, OthersKept, OwnSame;
    PlanInside(f, d, dir, now);
    InsideKeeps(d, PlanAt(f, d, dir, now), dir, t);
    forall other ensures Whole(f, t, other) {
      if other == dir {
        CrashedPlan(f, d, dir, now, t);
      } else {
        KeptIsOwnSame(d, t, dir, other);
        StaysWhole(f, d, t, other);
      }
    }
  }

  lemma {:induction false} StaysWhole(f: Formats, d: Disk, t: Disk, dir: string)
    requires OwnSame(d, t, dir) && Whole(f, d, dir)
    ensures Whole(f, t, dir)
  {
    hide Lines, Parsed;
    OwnFiles(d, t, dir);
    SameCounts(f, d, t, dir);
    assert InSession(Video(dir), dir) && InSession(VideoPart(dir), dir) && InSession(Audio(dir), dir)
           && InSession(AudioPart(dir), dir);
    assert SameFile(d, t, Video(dir)) && SameFile(d, t, VideoPart(dir)) && SameFile(d, t, Audio(dir))
           && SameFile(d, t, AudioPart(dir));
  }

  // ---------------------------------------------------------------- another time of day

  /** Stopping times are written with the same number of characters. */
  ghost predicate SameLengths(f: Formats, now: int, later: int) {
    && (forall s: Session :: |f.sessions.encode(s.(stoppedNs := now))| == |f.sessions.encode(s.(stoppedNs := later))|)
    && (forall s: Session, e :: |f.manifest(s.(stoppedNs := now), e)| == |f.manifest(s.(stoppedNs := later), e)|)
    && (forall s: Session, e :: |f.sidecar(s.(stoppedNs := now), e)| == |f.sidecar(s.(stoppedNs := later), e)|)
  }

  ghost predicate AllSameLengths(f: Formats, dirs: seq<string>, now: string -> int, later: string -> int) {
    forall i :: 0 <= i < |dirs| ==> SameLengths(f, now(dirs[i]), later(dirs[i]))
  }

  /** The same steps on the same files with texts of the same lengths. */
  predicate Alike(p: seq<FileStep>, q: seq<FileStep>) {
    |p| == |q| && forall i :: 0 <= i < |p| ==> AlikeStep(p[i], q[i])
  }

  predicate AlikeStep(s: FileStep, t: FileStep) {
    s == t || (s.Put? && t.Put? && s.path == t.path && |s.data| == |t.data|)
  }

  ghost predicate SameSizes(d: Disk, t: Disk) {
    forall p :: (p in d <==> p in t) && Size(d, p) == Size(t, p)
  }

  lemma {:induction false} AlikeNumbers(d: Disk, t: Disk, used: int, p: seq<FileStep>, q: seq<FileStep>)
    requires SameSizes(d, t) && Alike(p, q)
    ensures Peak(d, p) == Peak(t, q) && Growth(d, p) == Growth(t, q) && Reach(d, used, p) == Reach(t, used, q)
    ensures Longest(p) == Longest(q)
    decreases |p|
  {
    hide Do, Grows, SameSizes, AlikeStep;
    if p != [] {
      assert AlikeStep(p[0], q[0]);
      AlikeDo(d, t, p[0], q[0]);
      AlikeNumbers(Do(d, p[0]), Do(t, q[0]), used + Grows(d, p[0]), p[1..], q[1..]);
      AlikeLength(p[0], q[0]);
    }
  }

  lemma {:induction false} AlikeDo(d: Disk, t: Disk, s: FileStep, u: FileStep)
    requires SameSizes(d, t) && AlikeStep(s, u)
    ensures SameSizes(Do(d, s), Do(t, u)) && Grows(d, s) == Grows(t, u)
  {
    assert s.path in d <==> s.path in t;
    assert Size(d, s.path) == Size(t, s.path);
    assert s.Place? ==> (s.to in d <==> s.to in t);
  }

  lemma {:induction false} AlikeLength(s: FileStep, t: FileStep)
    requires AlikeStep(s, t)
    ensures s.Put? <==> t.Put?
    ensures s.Put? ==> |s.data| == |t.data|
  {
  }

  lemma {:induction false} AlikeThen(p: seq<FileStep>, q: seq<FileStep>, p': seq<FileStep>, q': seq<FileStep>)
    requires Alike(p, p') && Alike(q, q')
    ensures Alike(p + q, p' + q')
  {
  }

  lemma {:induction false} AlikePlans(f: Formats, d: Disk, dir: string, now: int, later: int)
    requires SameLengths(f, now, later)
    ensures Alike(PlanAt(f, d, dir, now), PlanAt(f, d, dir, later))
  {
    hide SameLengths, ChunksAt, Recoverable, VideoPlan, FramesPlan;
    if OpenAt(f, d, dir) {
      var s := SessionAt(f, d, dir).value;
      if s.backend.FfmpegMp4? {
        AlikeVideo(f, d, dir, s, ChunksAt(f, d, VideoJournal(dir)), ChunksAt(f, d, AudioJournal(dir)), now, later);
      } else {
        AlikeFrames(f, dir, s, Recoverable(f, d, dir), now, later);
      }
    }
  }

  lemma {:induction false} AlikeFrames(f: Formats, dir: string, s: Session, entries: seq<FrameEntry>, now: int,
                                       later: int)
    requires SameLengths(f, now, later)
    ensures Alike(FramesPlan(f, dir, Revived(s, now), entries, now),
                  FramesPlan(f, dir, Revived(s, later), entries, later))
  {
    var a := ConcludeFrames(Revived(s, now), now, dir, entries);
    var b := ConcludeFrames(Revived(s, later), later, dir, entries);
    assert a == a.(stoppedNs := now) && b == a.(stoppedNs := later);
    var base := s.(state := Recovered);
    assert Revived(s, now) == base.(stoppedNs := now) && Revived(s, later) == base.(stoppedNs := later);
    AlikeThen(ManifestPlan(f, dir, Revived(s, now), entries), [Put(SessionFile(dir), f.sessions.encode(a))],
              ManifestPlan(f, dir, Revived(s, later), entries), [Put(SessionFile(dir), f.sessions.encode(b))]);
  }

  lemma {:induction false} AlikeVideo(f: Formats, d: Disk, dir: string, s: Session, entries: seq<ChunkEntry>,
                                      audio: seq<ChunkEntry>, now: int, later: int)
    requires SameLengths(f, now, later)
    ensures Alike(VideoPlan(f, d, dir, Revived(s, now), entries, audio, s.separateAudio, now),
                  VideoPlan(f, d, dir, Revived(s, later), entries, audio, s.separateAudio, later))
  {
    hide VideoBytes, AudioBytes, SameLengths;
    var x, y := Revived(s, now), Revived(s, later);
    AlikeFronts(f, d, dir, s, entries, audio, now, later);
    AlikeRecords(f, d, dir, s, entries, audio, now, later);
    AlikeThen(FrontPart(f, d, dir, x, entries, audio, s.separateAudio),
              [Put(SessionFile(dir), f.sessions.encode(VideoRecord(d, dir, x, entries, audio, s.separateAudio, now)))],
              FrontPart(f, d, dir, y, entries, audio, s.separateAudio),
              [Put(SessionFile(dir), f.sessions.encode(VideoRecord(d, dir, y, entries, audio, s.separateAudio,
                                                                   later)))]);
  }

  lemma {:induction false} AlikeRecords(f: Formats, d: Disk, dir: string, s: Session, entries: seq<ChunkEntry>,
                                        audio: seq<ChunkEntry>, now: int, later: int)
    requires SameLengths(f, now, later)
    ensures |f.sessions.encode(VideoRecord(d, dir, Revived(s, now), entries, audio, s.separateAudio, now))|
         == |f.sessions.encode(VideoRecord(d, dir, Revived(s, later), entries, audio, s.separateAudio, later))|
  {
    hide VideoBytes, AudioBytes;
    var a := VideoRecord(d, dir, Revived(s, now), entries, audio, s.separateAudio, now);
    var b := VideoRecord(d, dir, Revived(s, later), entries, audio, s.separateAudio, later);
    assert a == a.(stoppedNs := now) && b == a.(stoppedNs := later);
  }

  lemma {:induction false} AlikeFronts(f: Formats, d: Disk, dir: string, s: Session, entries: seq<ChunkEntry>,
                                       audio: seq<ChunkEntry>, now: int, later: int)
    requires SameLengths(f, now, later)
    ensures Alike(FrontPart(f, d, dir, Revived(s, now), entries, audio, s.separateAudio),
                  FrontPart(f, d, dir, Revived(s, later), entries, audio, s.separateAudio))
  {
    hide VideoBytes, AudioBytes;
    var base := s.(state := Recovered);
    assert Revived(s, now) == base.(stoppedNs := now) && Revived(s, later) == base.(stoppedNs := later);
  }

  /** Then starting over at another time needs the same room and the same quota. */
  lemma {:induction false} NeedAtAnotherTime(f: Formats, d: Disk, used: int, dirs: seq<string>, now: string -> int,
                                             later: string -> int)
    requires AllSameLengths(f, dirs, now, later)
    ensures Need(f, d, dirs, now) == Need(f, d, dirs, later)
            && LongestOf(f, d, dirs, now) == LongestOf(f, d, dirs, later)
    ensures AllReach(f, d, used, dirs, now) == AllReach(f, d, used, dirs, later)
    decreases |dirs|
  {
    hide PlanAt, Peak, SameLengths, Alike, Bytes, Reach, Growth, Longest;
    if dirs != [] {
      var plan, again := PlanAt(f, d, dirs[0], now(dirs[0])), PlanAt(f, d, dirs[0], later(dirs[0]));
      AlikePlans(f, d, dirs[0], now(dirs[0]), later(dirs[0]));
      AlikeNumbers(d, d, used, plan, again);
      NeedAtAnotherTime(f, d, used + Growth(d, plan), dirs[1..], now, later);
    }
  }

  /** One attempt after the other, each at its own time and starting from whatever the last
      left. */
  ghost predicate Attempts(f: Formats, disks: seq<Disk>, times: seq<string -> int>, dirs: seq<string>) {
    && disks != [] && |times| == |disks|
    && forall i :: 0 <= i < |disks| - 1 ==>
         disks[i + 1] in Roomy(f, disks[i], dirs, times[i]) && AllSameLengths(f, dirs, times[i], times[i + 1])
  }

  /** Recovery cut short any number of times needs more room than the first attempt did by the
      temporary bytes left meanwhile at the most, which are at most one text an attempt. */
  lemma {:induction false} InterruptedNeed(f: Formats, disks: seq<Disk>, times: seq<string -> int>, dirs: seq<string>)
    requires Attempts(f, disks, times, dirs)
    ensures var n := |disks| - 1;
            && Need(f, disks[n], dirs, times[n]) <= Need(f, disks[0], dirs, times[0])
               + TempBytes(disks[n]) - TempBytes(disks[0])
            && TempBytes(disks[n]) <= TempBytes(disks[0]) + n * LongestOf(f, disks[0], dirs, times[0])
            && LongestOf(f, disks[n], dirs, times[n]) <= LongestOf(f, disks[0], dirs, times[0])
    decreases |disks|
  {
    hide AllSameLengths, Need, TempBytes, LongestOf;
    if |disks| > 1 {
      var n := |disks| - 2;
      var longest := LongestOf(f, disks[0], dirs, times[0]);
      InterruptedNeed(f, disks[..n + 1], times[..n + 1], dirs);
      assert disks[n + 1] in Roomy(f, disks[n], dirs, times[n]);
      NeedAtAnotherTime(f, disks[n + 1], 0, dirs, times[n], times[n + 1]);
      assert (n + 1) * longest == n * longest + longest;
    }
  }
}
