/** Closing a recording session and reopening the spool after a crash: the last steps of both
    backends, and the recovery that runs them again. */
module Finalization {
  import opened Common
  import opened SpoolFiles
  import opened FilePlans
  import opened Spool
  import opened Journal
  import opened FrameRecording

  // ---------------------------------------------------------------- what a session will report

  function SessionAt(f: Formats, disk: Disk, dir: string): Option<Session> {
    if SessionFile(dir) in disk then f.sessions.decode(disk[SessionFile(dir)]) else None
  }

  ghost function ChunksAt(f: Formats, disk: Disk, p: Path): seq<ChunkEntry> {
    Parsed(f.chunks, Lines(JournalText(disk, p)))
  }

  /** Frames and audio chunks the session reports once everything is recovered: what is
      persisted when it is terminal, what its journals hold while it is not. */
  ghost function FinalCounts(f: Formats, disk: Disk, dir: string): Option<(nat, nat)> {
    match SessionAt(f, disk, dir)
    case None => None
    case Some(s) =>
      if !s.state.Recording? then Some((s.frameCount, if s.backend.FfmpegMp4? then s.audioChunkCount else 0))
      else if s.backend.FfmpegMp4? then
        Some((|ChunksAt(f, disk, VideoJournal(dir))|, |ChunksAt(f, disk, AudioJournal(dir))|))
      else Some((|Recoverable(f, disk, dir)|, 0))
  }

  ghost predicate TerminalAt(f: Formats, disk: Disk, dir: string) {
    SessionAt(f, disk, dir).Some? && !SessionAt(f, disk, dir).value.state.Recording?
  }

  /** A terminal session has given its physical reserve back. */
  ghost predicate ReservesGone(f: Formats, disk: Disk) {
    forall dir :: TerminalAt(f, disk, dir) ==> ReserveFile(dir) !in disk
  }

  /** The states from which every session will report what it would report from d. */
  ghost function Resumable(f: Formats, d: Disk): iset<Disk> {
    iset t: Disk | SameReports(f, d, t)
  }

  ghost predicate SameReports(f: Formats, d: Disk, t: Disk) {
    && ReservesGone(f, t)
    && (forall dir :: FinalCounts(f, t, dir) == FinalCounts(f, d, dir))
    && (forall dir :: Healthy(f, d, dir) ==> Healthy(f, t, dir))
    && StaysTerminal(f, d, t)
  }

  /** A terminal record is final. */
  ghost predicate StaysTerminal(f: Formats, d: Disk, t: Disk) {
    forall dir :: TerminalAt(f, d, dir) ==> SessionAt(f, t, dir) == SessionAt(f, d, dir)
  }

  ghost predicate OpenVideo(f: Formats, disk: Disk, dir: string) {
    && SessionAt(f, disk, dir).Some?
    && SessionAt(f, disk, dir).value.state.Recording? && SessionAt(f, disk, dir).value.backend.FfmpegMp4?
  }

  /** recording.mp4 if it is there, else the partial file about to become it. */
  function VideoBytes(disk: Disk, dir: string): nat {
    if Video(dir) in disk then |disk[Video(dir)]| else Size(disk, VideoPart(dir))
  }

  /** An open encoded session with journaled frames has media to show for them. */
  ghost predicate Healthy(f: Formats, disk: Disk, dir: string) {
    OpenVideo(f, disk, dir) && ChunksAt(f, disk, VideoJournal(dir)) != [] ==> VideoBytes(disk, dir) > 0
  }

  // ---------------------------------------------------------------- steps no report depends on

  /** Files no recovery decision looks at. */
  predicate Unread(p: Path) {
    p.Manifest? || p.VideoSidecar? || p.Audio? || p.AudioSidecar? || p.Snapshot? || p.SnapshotSidecar?
  }

  /** Unread files may change in any way, reserves may go, finished media may be renamed. */
  predicate Mild(s: FileStep) {
    match s
    case Put(p, _) => Unread(p)
    case Drop(p) => Unread(p) || p.ReserveFile?
    case Place(p, to) => (p.VideoPart? && to == Video(p.dir)) || (p.AudioPart? && to == Audio(p.dir))
  }

  lemma {:induction false} MildStep(f: Formats, d: Disk, s: FileStep)
    requires Mild(s) && ReservesGone(f, d)
    ensures SameReports(f, d, Do(d, s))
  {
    hide Recoverable, Lines, Parsed, Do, Mild;
    var t := Do(d, s);
    forall dir
      ensures FinalCounts(f, t, dir) == FinalCounts(f, d, dir) && (TerminalAt(f, t, dir) ==> ReserveFile(dir) !in t)
      ensures Healthy(f, d, dir) ==> Healthy(f, t, dir)
      ensures SessionAt(f, t, dir) == SessionAt(f, d, dir)
    {
      MildFiles(d, s, dir);
      SameRecoverable(f, d, t, dir);
    }
  }

  lemma {:induction false} MildFiles(d: Disk, s: FileStep, dir: string)
    requires Mild(s)
    ensures var t := Do(d, s);
            && SameFile(d, t, SessionFile(dir)) && SameFile(d, t, FrameJournal(dir))
            && SameFile(d, t, VideoJournal(dir)) && SameFile(d, t, AudioJournal(dir))
            && (ReserveFile(dir) in t ==> ReserveFile(dir) in d) && SameEvidence(d, t, dir)
               && VideoBytes(t, dir) == VideoBytes(d, dir)
  {
  }

  lemma {:induction false} SeenReports(f: Formats, d: Disk, t: Disk)
    requires t in Seen(d) && ReservesGone(f, d)
    ensures SameReports(f, d, t)
  {
    hide Recoverable, Lines, Parsed, Seen;
    SeenSame(d, t);
    forall dir
      ensures FinalCounts(f, t, dir) == FinalCounts(f, d, dir) && (TerminalAt(f, t, dir) ==> ReserveFile(dir) !in t)
      ensures Healthy(f, d, dir) ==> Healthy(f, t, dir)
      ensures SessionAt(f, t, dir) == SessionAt(f, d, dir)
    {
      assert SameFile(d, t, SessionFile(dir)) && SameFile(d, t, FrameJournal(dir)) && SameFile(d, t, ReserveFile(dir));
      assert SameFile(d, t, VideoJournal(dir)) && SameFile(d, t, AudioJournal(dir));
      assert SameFile(d, t, Video(dir)) && SameFile(d, t, VideoPart(dir));
      assert SameEvidence(d, t, dir) by {
        forall n: nat, x: string ensures FrameFile(dir, n, x) in d <==> FrameFile(dir, n, x) in t {
          assert SameFile(d, t, FrameFile(dir, n, x));
        }
      }
      SameRecoverable(f, d, t, dir);
    }
  }

  /** However far such steps got, every session reports the same. */
  lemma {:induction false} MildPlan(f: Formats, d: Disk, plan: seq<FileStep>)
    requires ReservesGone(f, d) && forall i :: 0 <= i < |plan| ==> Mild(plan[i])
    ensures States(d, plan) <= Resumable(f, d) && SameReports(f, d, After(d, plan))
    decreases |plan|
  {
    hide SameReports, Seen, Do, Mild, ReservesGone;
    ReportsSelf(f, d);
    if plan != [] {
      MildStep(f, d, plan[0]);
      ReportsImply(f, d, Do(d, plan[0]));
      MildPlan(f, Do(d, plan[0]), plan[1..]);
      SameReportsTrans(f, d, Do(d, plan[0]), After(d, plan));
    }
    forall t | t in States(d, plan) ensures SameReports(f, d, t) {
      if t in Seen(d) {
        SeenReports(f, d, t);
      } else {
        assert t in Resumable(f, Do(d, plan[0]));
        SameReportsTrans(f, d, Do(d, plan[0]), t);
      }
    }
  }

  /** A snapshot, however far it got. */
  lemma {:induction false} SnapshotReports(f: Formats, d: Disk, id: string, extension: string, image: string,
                                           sidecar: string)
    requires ReservesGone(f, d)
    ensures States(d, SnapshotPlan(id, extension, image, sidecar)) <= Resumable(f, d)
  {
    hide Resumable, States;
    MildPlan(f, d, SnapshotPlan(id, extension, image, sidecar));
  }

  /** Replacing a session's file by a terminal record that reports the same. */
  lemma {:induction false} TerminalRecord(f: Formats, d: Disk, dir: string, s: Session)
    requires ReservesGone(f, d) && GoodFormats(f)
    requires !s.state.Recording? && ReserveFile(dir) !in d && !TerminalAt(f, d, dir)
    requires FinalCounts(f, d, dir) == Some((s.frameCount, if s.backend.FfmpegMp4? then s.audioChunkCount else 0))
    ensures SameReports(f, d, d[SessionFile(dir) := f.sessions.encode(s)])
  {
    hide Recoverable, Lines, Parsed;
    var t := d[SessionFile(dir) := f.sessions.encode(s)];
    forall other ensures FinalCounts(f, t, other) == FinalCounts(f, d, other)
                      && (TerminalAt(f, t, other) ==> ReserveFile(other) !in t)
                      && (Healthy(f, d, other) ==> Healthy(f, t, other))
                      && (TerminalAt(f, d, other) ==> SessionAt(f, t, other) == SessionAt(f, d, other))
    {
      if other != dir {
        assert SessionAt(f, t, other) == SessionAt(f, d, other);
        SameRecoverable(f, d, t, other);
        assert TerminalAt(f, t, other) ==> TerminalAt(f, d, other);
      }
    }
  }

  lemma {:induction false} SameReportsTrans(f: Formats, d: Disk, t: Disk, u: Disk)
    requires SameReports(f, d, t) && SameReports(f, t, u)
    ensures SameReports(f, d, u)
  {
  }

  lemma {:induction false} ReportsSelf(f: Formats, d: Disk)
    requires ReservesGone(f, d)
    ensures SameReports(f, d, d)
  {
  }

  lemma {:induction false} ReportsImply(f: Formats, d: Disk, t: Disk)
    requires SameReports(f, d, t)
    ensures ReservesGone(f, t)
  {
  }

  /** What readers cannot tell apart reports the same. */
  lemma {:induction false} SeenResumable(f: Formats, d: Disk, t: Disk)
    requires SameReports(f, d, t)
    ensures Seen(t) <= Resumable(f, d)
  {
    hide SameReports, Seen, ReservesGone;
    ReportsImply(f, d, t);
    forall u | u in Seen(t) ensures SameReports(f, d, u) {
      SeenReports(f, t, u);
      SameReportsTrans(f, d, t, u);
    }
  }

  // ---------------------------------------------------------------- image sequences

  function TotalSize(entries: seq<FrameEntry>): nat {
    if entries == [] then 0 else TotalSize(entries[..|entries| - 1]) + entries[|entries| - 1].sizeBytes
  }

  lemma {:induction false} TotalSizeAdds(a: seq<FrameEntry>, b: seq<FrameEntry>)
    ensures TotalSize(a + b) == TotalSize(a) + TotalSize(b)
    ensures forall e :: TotalSize([e]) == e.sizeBytes
  {
    if b == [] {
      assert a + b == a;
    } else {
      assert (a + b)[..|a + b| - 1] == a + b[..|b| - 1];
      TotalSizeAdds(a, b[..|b| - 1]);
    }
    forall e ensures TotalSize([e]) == e.sizeBytes {
      assert [e][..0] == [];
    }
  }

  /** The session's frame files. */
  ghost function FramesOn(disk: Disk, dir: string): Disk {
    map p | p in disk && p.FrameFile? && p.dir == dir :: disk[p]
  }

  /** The total size is the number of bytes in the session's frame files. */
  lemma {:induction false} TotalSizeOnDisk(f: Formats, disk: Disk, dir: string, entries: seq<FrameEntry>)
    requires FramesMatch(f, disk, dir, entries)
    ensures TotalSize(entries) == Sum(Sizes(FramesOn(disk, dir)))
  {
    hide Sum;
    if entries == [] {
      assert FramesOn(disk, dir) == map[];
      NoBytes();
    } else {
      var n := |entries| - 1;
      var p, front := FrameOf(dir, entries[n]), entries[..n];
      assert Described(f, disk, dir, entries, n);
      forall i | 0 <= i < n ensures Described(f, disk - {p}, dir, front, i) {
        assert Described(f, disk, dir, entries, i);
      }
      TotalSizeOnDisk(f, disk - {p}, dir, front);
      assert Sizes(FramesOn(disk - {p}, dir)) == Sizes(FramesOn(disk, dir)) - {p};
      SumWithout(Sizes(FramesOn(disk, dir)), p);
    }
  }

  lemma {:induction false} NoBytes()
    ensures Sum(Sizes(map[])) == 0
  {
  }

  /** The terminal record of an image sequence. */
  predicate ConcludesFrames(s: Session, final: Session, dir: string, entries: seq<FrameEntry>) {
    && !final.state.Recording?
    && final.backend == s.backend && final.id == s.id && final.startedNs == s.startedNs
    && final.separateAudio == s.separateAudio && final.audioChunkCount == s.audioChunkCount
    && final.frameCount == |entries| && final.sizeBytes == TotalSize(entries)
    && (s.stoppedNs > 0 ==> final.stoppedNs == s.stoppedNs)
    && (entries != [] ==>
          && final.state == s.state && final.errorCode == s.errorCode
          && final.artifacts == [Artifact("sequence", Manifest(dir), TotalSize(entries), entries[0].capturedNs,
                                          entries[|entries| - 1].capturedNs)])
    && (entries == [] ==>
          if s.errorCode == "" then final.state == Failed && final.errorCode == NO_FRAMES
          else final.state == s.state && final.errorCode == s.errorCode)
  }

  /** The session fields a finalization sets. */
  function ConcludeFrames(session: Session, now: int, dir: string, entries: seq<FrameEntry>): (final: Session)
    requires !session.state.Recording?
    ensures ConcludesFrames(session, final, dir, entries)
    ensures final.stoppedNs == if session.stoppedNs <= 0 then now else session.stoppedNs
  {
    var counted := session.(frameCount := |entries|, sizeBytes := TotalSize(entries),
                            stoppedNs := if session.stoppedNs <= 0 then now else session.stoppedNs);
    if entries != [] then
      counted.(artifacts := [Artifact("sequence", Manifest(dir), counted.sizeBytes, entries[0].capturedNs,
                                      entries[|entries| - 1].capturedNs)])
    else if counted.errorCode == "" then counted.(state := Failed, errorCode := NO_FRAMES)
    else counted
  }

  /** Unlink the reserve, write the manifest if there is one, replace the session file. */
  function FramesPlan(f: Formats, dir: string, session: Session, entries: seq<FrameEntry>, now: int): seq<FileStep>
    requires !session.state.Recording?
  {
    ManifestPlan(f, dir, session, entries)
      + [Put(SessionFile(dir), f.sessions.encode(ConcludeFrames(session, now, dir, entries)))]
  }

  function ManifestPlan(f: Formats, dir: string, session: Session, entries: seq<FrameEntry>): seq<FileStep> {
    [Drop(ReserveFile(dir))] + if entries == [] then [] else [Put(Manifest(dir), f.manifest(session, entries))]
  }

  /** An image-sequence session still marked RECORDING, with that many recoverable frames. */
  ghost predicate OpenFrames(f: Formats, disk: Disk, dir: string, n: nat) {
    && SessionAt(f, disk, dir).Some?
    && SessionAt(f, disk, dir).value.state.Recording? && SessionAt(f, disk, dir).value.backend.FrameSequence?
    && |Recoverable(f, disk, dir)| == n
  }

  /** Wherever a finalization stops, every session will report the same; the last step alone
      makes this one terminal. */
  lemma {:induction false} FramesStates(f: Formats, d: Disk, dir: string, session: Session, entries: seq<FrameEntry>,
                                        now: int)
    requires GoodFormats(f) && ReservesGone(f, d) && OpenFrames(f, d, dir, |entries|)
    requires !session.state.Recording? && session.backend.FrameSequence?
    ensures States(d, FramesPlan(f, dir, session, entries, now)) <= Resumable(f, d)
    ensures States(d, ManifestPlan(f, dir, session, entries)) <= OpenStates(f, d, dir)
    ensures var t := After(d, FramesPlan(f, dir, session, entries, now));
            && SessionAt(f, t, dir) == Some(ConcludeFrames(session, now, dir, entries)) && ReserveFile(dir) !in t
            && (entries != [] ==> Manifest(dir) in t && t[Manifest(dir)] == f.manifest(session, entries))
  {
    hide States, SameReports, ReservesGone, Recoverable;
    var plan, final := ManifestPlan(f, dir, session, entries), ConcludeFrames(session, now, dir, entries);
    var t := After(d, plan);
    MildPlan(f, d, plan);
    ManifestDone(f, d, dir, session, entries);
    ReportsImply(f, d, t);
    OpenFramesCount(f, d, t, dir, |entries|);
    LastStep(d, plan, Put(SessionFile(dir), f.sessions.encode(final)));
    assert FinalCounts(f, t, dir) == FinalCounts(f, d, dir) by {
      ReportsCount(f, d, t, dir);
    }
    TerminalRecord(f, t, dir, final);
    SameReportsTrans(f, d, t, t[SessionFile(dir) := f.sessions.encode(final)]);
    SeenResumable(f, d, t[SessionFile(dir) := f.sessions.encode(final)]);
    forall u | u in States(d, plan) ensures SessionAt(f, u, dir) == SessionAt(f, d, dir) {
      UntouchedFile(d, plan, SessionFile(dir), u);
    }
  }

  /** States in which the session file has not been replaced. */
  ghost function OpenStates(f: Formats, d: Disk, dir: string): iset<Disk> {
    iset t: Disk | SessionAt(f, t, dir) == SessionAt(f, d, dir)
  }

  lemma {:induction false} ManifestDone(f: Formats, d: Disk, dir: string, session: Session, entries: seq<FrameEntry>)
    ensures var t := After(d, ManifestPlan(f, dir, session, entries));
            && ReserveFile(dir) !in t && SameFile(d, t, SessionFile(dir))
            && (entries != [] ==> Manifest(dir) in t && t[Manifest(dir)] == f.manifest(session, entries))
  {
    var drop := Drop(ReserveFile(dir));
    OneStep(d, 0, 0, drop);
    if entries != [] {
      LastStep(d, [drop], Put(Manifest(dir), f.manifest(session, entries)));
    } else {
      assert [drop] + [] == [drop];
    }
  }

  lemma {:induction false} OpenFramesCount(f: Formats, d: Disk, t: Disk, dir: string, n: nat)
    requires OpenFrames(f, d, dir, n) && SameFile(d, t, SessionFile(dir))
    ensures FinalCounts(f, d, dir) == Some((n, 0)) && !TerminalAt(f, t, dir)
  {
  }

  /** Whether the two terminal writes stay within quota once the reserve is unlinked. */
  predicate FramesFit(used: int, maxBytes: nat, reserve: nat, manifestGrowth: int, sessionGrowth: int) {
    && (manifestGrowth > 0 ==> WithinQuota(used - reserve + manifestGrowth, maxBytes))
    && (sessionGrowth > 0 ==> WithinQuota(used - reserve + manifestGrowth + sessionGrowth, maxBytes))
  }

  function ManifestGrowth(f: Formats, disk: Disk, dir: string, session: Session, entries: seq<FrameEntry>): int {
    if entries == [] then 0 else |f.manifest(session, entries)| - Size(disk, Manifest(dir))
  }

  lemma {:induction false} ManifestPlanFits(f: Formats, d: Disk, used: int, maxBytes: nat, dir: string,
                                            session: Session, entries: seq<FrameEntry>)
    ensures var plan := ManifestPlan(f, dir, session, entries);
            var room := used - Size(d, ReserveFile(dir));
            && Growth(d, plan) == ManifestGrowth(f, d, dir, session, entries) - Size(d, ReserveFile(dir))
            && (Fits(d, used, maxBytes, plan) <==>
                  (ManifestGrowth(f, d, dir, session, entries) > 0 ==>
                     WithinQuota(room + ManifestGrowth(f, d, dir, session, entries), maxBytes)))
  {
    hide Fits, Growth, After;
    var drop := Drop(ReserveFile(dir));
    OneStep(d, used, maxBytes, drop);
    if entries != [] {
      FitsLast(d, used, maxBytes, [drop], Put(Manifest(dir), f.manifest(session, entries)));
    } else {
      assert [drop] + [] == [drop];
    }
  }

  /** A finalization gets past the quota exactly when its two writes fit. */
  lemma {:induction false} FramesPlanFits(f: Formats, d: Disk, used: int, maxBytes: nat, dir: string, session: Session,
                                          entries: seq<FrameEntry>, now: int)
    requires !session.state.Recording?
    ensures Fits(d, used, maxBytes, FramesPlan(f, dir, session, entries, now))
       <==> FramesFit(used, maxBytes, Size(d, ReserveFile(dir)), ManifestGrowth(f, d, dir, session, entries),
                      |f.sessions.encode(ConcludeFrames(session, now, dir, entries))| - Size(d, SessionFile(dir)))
  {
    hide ConcludeFrames, Fits, Growth, After, ManifestPlan;
    var front := ManifestPlan(f, dir, session, entries);
    ManifestPlanFits(f, d, used, maxBytes, dir, session, entries);
    ManifestDone(f, d, dir, session, entries);
    FitsLast(d, used, maxBytes, front,
             Put(SessionFile(dir), f.sessions.encode(ConcludeFrames(session, now, dir, entries))));
    assert Size(After(d, front), SessionFile(dir)) == Size(d, SessionFile(dir));
  }

  /** They do in every store within its quota exactly when they grow by no more than the
      reserve held. */
  lemma {:induction false} ReserveSuffices(reserve: nat, manifestGrowth: int, sessionGrowth: int)
    ensures (manifestGrowth > 0 ==> manifestGrowth <= reserve)
            && (sessionGrowth > 0 ==> manifestGrowth + sessionGrowth <= reserve)
       <==> forall used: int, maxBytes: nat :: reserve <= used && WithinQuota(used, maxBytes) ==>
              FramesFit(used, maxBytes, reserve, manifestGrowth, sessionGrowth)
  {
    var full := reserve + 1;
    assert reserve <= full && WithinQuota(full, full);
    if !((manifestGrowth > 0 ==> manifestGrowth <= reserve)
         && (sessionGrowth > 0 ==> manifestGrowth + sessionGrowth <= reserve)) {
      assert !FramesFit(full, full, reserve, manifestGrowth, sessionGrowth);
    }
  }

  /** The reserve goes, the manifest comes. */
  method SwapReserveForManifest(store: SpoolStore, f: Formats, dir: string, session: Session, entries: seq<FrameEntry>)
    returns (r: Outcome)
    requires store.Valid()
    modifies store`disk, store`usedBytes, store`nextToken, store`trace, store`faults
    ensures store.Valid() && Excused(r, store.maxBytes, store.minFreeBytes, old(store.faults), store.faults)
    ensures Ran(old(store.Now()), store.maxBytes, ManifestPlan(f, dir, session, entries), r, store.Now())
  {
    hide Ran, Added, Sum, Booked, TempsBelow, Seen;
    ghost var a := store.Now();
    ghost var drop := [Drop(ReserveFile(dir))];
    r := store.UnlinkCounted(ReserveFile(dir));
    ghost var b := store.Now();
    if entries == [] {
      assert drop + [] == drop;
    } else if r != Ok {
      RanStopped(a, b, store.maxBytes, drop, [Put(Manifest(dir), f.manifest(session, entries))], r);
    } else {
      r := store.AtomicWriteCounted(Manifest(dir), f.manifest(session, entries));
      RanThen(a, b, store.Now(), store.maxBytes, drop, [Put(Manifest(dir), f.manifest(session, entries))], r);
    }
  }

  lemma {:induction false} FramesPlanIs(f: Formats, dir: string, session: Session, entries: seq<FrameEntry>, now: int)
    requires !session.state.Recording?
    ensures FramesPlan(f, dir, session, entries, now)
         == ManifestPlan(f, dir, session, entries)
            + [Put(SessionFile(dir), f.sessions.encode(ConcludeFrames(session, now, dir, entries)))]
  {
  }

  lemma {:induction false} ReportsFrom(f: Formats, d: Disk, t: Disk)
    requires t in Resumable(f, d)
    ensures SameReports(f, d, t)
  {
  }

  lemma {:induction false} ReportsCount(f: Formats, d: Disk, t: Disk, dir: string)
    requires SameReports(f, d, t)
    ensures FinalCounts(f, t, dir) == FinalCounts(f, d, dir)
  {
  }

  lemma {:induction false} StillSaysSo(f: Formats, d: Disk, t: Disk, dir: string)
    requires t in OpenStates(f, d, dir)
    ensures SessionAt(f, t, dir) == SessionAt(f, d, dir)
  {
  }

  /** Its manifest and its terminal record are what the entries say, the reserve is gone; a
      crash at any point changes no report; and it runs out of quota only if the plan does not
      fit, for which FramesPlanFits gives the sizes. */
  method FinalizeRecording(store: SpoolStore, f: Formats, dir: string, session: Session, entries: seq<FrameEntry>,
                           now: int)
    returns (r: Outcome, final: Session)
    requires store.Valid() && GoodFormats(f) && ReservesGone(f, store.disk)
    requires !session.state.Recording? && session.backend.FrameSequence?
    requires OpenFrames(f, store.disk, dir, |entries|)
    modifies store`disk, store`usedBytes, store`nextToken, store`trace, store`faults
    ensures Excused(r, store.maxBytes, store.minFreeBytes, old(store.faults), store.faults)
    ensures WithinQuota(old(store.usedBytes), store.maxBytes) ==> WithinQuota(store.usedBytes, store.maxBytes)
    ensures store.Valid() && ConcludesFrames(session, final, dir, entries)
    ensures final.stoppedNs == if session.stoppedNs <= 0 then now else session.stoppedNs
    ensures SameReports(f, old(store.disk), store.disk)
    ensures Added(old(store.trace), store.trace, Resumable(f, old(store.disk)))
    ensures r == Ok ==>
              && SessionAt(f, store.disk, dir) == Some(final) && ReserveFile(dir) !in store.disk
              && (entries != [] ==>
                  Manifest(dir) in store.disk && store.disk[Manifest(dir)] == f.manifest(session, entries))
    ensures r != Ok ==> SessionAt(f, store.disk, dir) == SessionAt(f, old(store.disk), dir)
    ensures Ran(old(store.Now()), store.maxBytes, FramesPlan(f, dir, session, entries, now), r, store.Now())
    ensures r == Ok ==> Fits(old(store.disk), old(store.usedBytes), store.maxBytes,
                             FramesPlan(f, dir, session, entries, now))
    ensures r == QuotaFull ==> !Fits(old(store.disk), old(store.usedBytes), store.maxBytes,
                                     FramesPlan(f, dir, session, entries, now))
  {
    hide Ran, Performed, States, After, Fits, Added, Sum, Booked, TempsBelow, Seen, ReservesGone, SameReports,
      Resumable;
    hide GoodFormats, ConcludesFrames, ManifestPlan, FramesPlan, SessionAt, OpenStates;
    ghost var a, d0 := store.Now(), store.disk;
    ghost var plan, front := FramesPlan(f, dir, session, entries, now), ManifestPlan(f, dir, session, entries);
    FramesStates(f, d0, dir, session, entries, now);
    final := ConcludeFrames(session, now, dir, entries);
    ghost var last := [Put(SessionFile(dir), f.sessions.encode(final))];
    assert plan == front + last by {
      FramesPlanIs(f, dir, session, entries, now);
    }
    r := SwapReserveForManifest(store, f, dir, session, entries);
    ghost var b := store.Now();
    if r == Ok {
      r := store.AtomicWriteCounted(SessionFile(dir), f.sessions.encode(final));
      RanThen(a, b, store.Now(), store.maxBytes, front, last, r);
    } else {
      RanStopped(a, b, store.maxBytes, front, last, r);
    }
    RanMeans(a, store.maxBytes, plan, r, store.Now(), Resumable(f, d0));
    ReportsFrom(f, d0, store.disk);
    if r != Ok {
      RanShort(a, store.maxBytes, front, last[0], r, store.Now());
      assert store.disk in OpenStates(f, d0, dir);
      StillSaysSo(f, d0, store.disk, dir);
    }
  }

  // ---------------------------------------------------------------- from recording to recovery

  /** Opening a session, at every point of it: the session is not there yet, or is marked
      RECORDING and holds no frame; no other session reports anything else. */
  lemma {:induction false} OpeningReports(f: Formats, d: Disk, dir: string, s: Session, t: Disk)
    requires ReservesGone(f, d) && GoodFormats(f) && s.state.Recording? && forall p :: InSession(p, dir) ==> p !in d
    requires t in States(d, OpeningPlan(dir, f.sessions.encode(s)))
    ensures ReservesGone(f, t) && Healthy(f, t, dir)
    ensures if SessionFile(dir) in t then FinalCounts(f, t, dir) == Some((0, 0)) else FinalCounts(f, t, dir) == None
    ensures forall other :: other != dir ==>
              FinalCounts(f, t, other) == FinalCounts(f, d, other) && (Healthy(f, d, other) ==> Healthy(f, t, other))
  {
    hide Recoverable, Lines, Parsed, Seen, Do, ReserveText;
    var text := f.sessions.encode(s);
    var put, reserve := Put(SessionFile(dir), text), Put(ReserveFile(dir), ReserveText(|text|));
    StatesOfTwo(d, put, reserve);
    if t in Seen(d) {
      SeenReports(f, d, t);
      Unopened(d, t, dir);
    } else {
      var u := if t in Seen(Do(d, put)) then Do(d, put) else Do(Do(d, put), reserve);
      Opened(f, d, u, dir, s);
      SeenReports(f, u, t);
      SeenSame(u, t);
      assert SameFile(u, t, SessionFile(dir));
    }
  }

  lemma {:induction false} Unopened(d: Disk, t: Disk, dir: string)
    requires t in Seen(d) && forall p :: InSession(p, dir) ==> p !in d
    ensures SessionFile(dir) !in t
  {
    SeenSame(d, t);
    assert SameFile(d, t, SessionFile(dir)) && InSession(SessionFile(dir), dir);
  }

  lemma {:induction false} Opened(f: Formats, d: Disk, t: Disk, dir: string, s: Session)
    requires ReservesGone(f, d) && GoodFormats(f) && s.state.Recording? && forall p :: InSession(p, dir) ==> p !in d
    requires var put := Put(SessionFile(dir), f.sessions.encode(s));
             t == Do(d, put) || t == Do(Do(d, put), Put(ReserveFile(dir), ReserveText(|f.sessions.encode(s)|)))
    ensures ReservesGone(f, t) && FinalCounts(f, t, dir) == Some((0, 0)) && Healthy(f, t, dir) && SessionFile(dir) in t
    ensures forall other :: other != dir ==>
              FinalCounts(f, t, other) == FinalCounts(f, d, other) && (Healthy(f, d, other) ==> Healthy(f, t, other))
  {
    hide Recoverable, Lines, ReserveText;
    assert InSession(FrameJournal(dir), dir) && InSession(VideoJournal(dir), dir) && InSession(AudioJournal(dir), dir);
    EmptyHasNoLines();
    NothingRecoverable(f, t, dir);
    forall other | other != dir ensures FinalCounts(f, t, other) == FinalCounts(f, d, other)
                                     && (TerminalAt(f, t, other) ==> ReserveFile(other) !in t)
                                     && (Healthy(f, d, other) ==> Healthy(f, t, other))
    {
      assert SessionAt(f, t, other) == SessionAt(f, d, other);
      assert TerminalAt(f, t, other) ==> TerminalAt(f, d, other);
      SameRecoverable(f, d, t, other);
    }
  }

  lemma {:induction false} NothingRecoverable(f: Formats, d: Disk, dir: string)
    requires FrameJournal(dir) !in d
    ensures Recoverable(f, d, dir) == []
  {
    EmptyHasNoLines();
  }

  /** While it records, a session touches its frames and its journal only, so a crash inside
      one of its appends changes no other session's report. */
  lemma {:induction false} RecordingReports(f: Formats, d: Disk, t: Disk, dir: string)
    requires ReservesGone(f, d)
    requires forall p: Path :: !p.Temp? && p != FrameJournal(dir) && !(p.FrameFile? && p.dir == dir) ==>
               SameFile(d, t, p)
    ensures ReservesGone(f, t)
    ensures forall other :: other != dir ==> FinalCounts(f, t, other) == FinalCounts(f, d, other)
  {
    hide Recoverable, Lines, Parsed;
    forall other
      ensures TerminalAt(f, t, other) ==> ReserveFile(other) !in t
      ensures other != dir ==> FinalCounts(f, t, other) == FinalCounts(f, d, other)
    {
      assert SameFile(d, t, SessionFile(other)) && SameFile(d, t, ReserveFile(other));
      assert SameFile(d, t, VideoJournal(other)) && SameFile(d, t, AudioJournal(other));
      if other != dir {
        assert SameFile(d, t, FrameJournal(other));
        assert forall n: nat, x: string {:trigger FrameFile(other, n, x)} :: SameFile(d, t, FrameFile(other, n, x));
        SameRecoverable(f, d, t, other);
      }
    }
  }

  /** What recovery will report for a session whose append a crash cut short. */
  lemma {:induction false} CrashedAppendReport(f: Formats, t: Disk, dir: string, entries: seq<FrameEntry>,
                                               e: FrameEntry)
    requires AppendCrash(f, t, dir, entries, e) && SessionAt(f, t, dir).Some?
    requires SessionAt(f, t, dir).value.state.Recording? && SessionAt(f, t, dir).value.backend.FrameSequence?
    ensures FinalCounts(f, t, dir) == Some((|entries| + if Landed(f, t, dir, entries, e) then 1 else 0, 0))
  {
    hide Landed, Recoverable;
  }

  /** A finalization leaves the frame files alone. */
  lemma {:induction false} FramesStay(f: Formats, a: Moment, maxBytes: nat, dir: string, session: Session,
                                      entries: seq<FrameEntry>, now: int, r: Outcome, b: Moment)
    requires !session.state.Recording? && Ran(a, maxBytes, FramesPlan(f, dir, session, entries, now), r, b)
    ensures FramesOn(b.disk, dir) == FramesOn(a.disk, dir)
  {
    hide Ran, States, Growth, After, Fits, FramesOn;
    var plan := FramesPlan(f, dir, session, entries, now);
    var same := iset t: Disk | FramesOn(t, dir) == FramesOn(a.disk, dir);
    forall t | t in States(a.disk, plan) ensures FramesOn(t, dir) == FramesOn(a.disk, dir) {
      forall p: Path | p.FrameFile? ensures SameFile(a.disk, t, p) {
        UntouchedFile(a.disk, plan, p, t);
      }
      SameFramesOn(a.disk, t, dir);
    }
    RanMeans(a, maxBytes, plan, r, b, same);
  }

  lemma {:induction false} JournaledFrames(f: Formats, disk: Disk, dir: string, entries: seq<FrameEntry>, tail: string)
    requires Journaled(f, disk, dir, entries, tail)
    ensures FramesMatch(f, disk, dir, entries)
  {
  }

  lemma {:induction false} ConcludedSize(s: Session, final: Session, dir: string, entries: seq<FrameEntry>)
    requires ConcludesFrames(s, final, dir, entries)
    ensures final.sizeBytes == TotalSize(entries)
  {
  }

  lemma {:induction false} SameFramesOn(d: Disk, t: Disk, dir: string)
    requires forall p: Path {:trigger SameFile(d, t, p)} :: p.FrameFile? ==> SameFile(d, t, p)
    ensures FramesOn(t, dir) == FramesOn(d, dir)
  {
    forall p: Path | p.FrameFile? ensures (p in t <==> p in d) && (p in d ==> t[p] == d[p]) {
      assert SameFile(d, t, p);
    }
  }

  /** RecordingBundle.finalize: the frames in memory are the frames on disk, and the size recorded
      is the number of their bytes. */
  method FinalizeBundle(bundle: RecordingBundle, session: Session, now: int) returns (r: Outcome, final: Session)
    requires bundle.Valid() && GoodFormats(bundle.f) && ReservesGone(bundle.f, bundle.store.disk)
    requires !session.state.Recording? && session.backend.FrameSequence?
    requires !bundle.closed ==>
               && SessionAt(bundle.f, bundle.store.disk, bundle.dir).Some?
               && SessionAt(bundle.f, bundle.store.disk, bundle.dir).value.state.Recording?
               && SessionAt(bundle.f, bundle.store.disk, bundle.dir).value.backend.FrameSequence?
    modifies bundle`closed, bundle.store`disk, bundle.store`usedBytes, bundle.store`nextToken, bundle.store`trace,
      bundle.store`faults
    ensures Excused(r, bundle.store.maxBytes, bundle.store.minFreeBytes, old(bundle.store.faults), bundle.store.faults)
    ensures WithinQuota(old(bundle.store.usedBytes), bundle.store.maxBytes) ==>
              WithinQuota(bundle.store.usedBytes, bundle.store.maxBytes)
    ensures old(bundle.closed) ==>
              r == Ok && final == session && bundle.closed && bundle.store.disk == old(bundle.store.disk)
    ensures !old(bundle.closed) ==>
              && ConcludesFrames(session, final, bundle.dir, bundle.entries)
              && FramesOn(bundle.store.disk, bundle.dir) == FramesOn(old(bundle.store.disk), bundle.dir)
              && final.sizeBytes == Sum(Sizes(FramesOn(bundle.store.disk, bundle.dir)))
              && SameReports(bundle.f, old(bundle.store.disk), bundle.store.disk)
              && Added(old(bundle.store.trace), bundle.store.trace, Resumable(bundle.f, old(bundle.store.disk)))
              && FinalCounts(bundle.f, old(bundle.store.disk), bundle.dir) == Some((|bundle.entries|, 0))
              && (bundle.closed <==> r == Ok)
              && (r == Ok ==> SessionAt(bundle.f, bundle.store.disk, bundle.dir) == Some(final))
    ensures !old(bundle.closed) ==>
              var plan := FramesPlan(bundle.f, bundle.dir, session, bundle.entries, now);
              && Ran(old(bundle.store.Now()), bundle.store.maxBytes, plan, r, bundle.store.Now())
              && (r == Ok ==> Fits(old(bundle.store.disk), old(bundle.store.usedBytes), bundle.store.maxBytes, plan))
              && (r == QuotaFull ==> !Fits(old(bundle.store.disk), old(bundle.store.usedBytes), bundle.store.maxBytes,
                                           plan))
    ensures bundle.store.Valid()
  {
    hide ConcludesFrames, SameReports, Added, Resumable, Journaled, TornTail, Recoverable, ReservesGone, CrashesWithin,
      FramesPlan, Ran, Fits;
    hide ManifestPlan, FramesMatch, FramesOn, Sum, Sizes, TotalSize;
    if bundle.closed {
      return Ok, session;
    }
    RecoversEntries(bundle.f, bundle.store.disk, bundle.dir, bundle.entries, bundle.tail);
    OpenFramesCount(bundle.f, bundle.store.disk, bundle.store.disk, bundle.dir, |bundle.entries|);
    ghost var before := bundle.store.Now();
    assert FramesMatch(bundle.f, bundle.store.disk, bundle.dir, bundle.entries) by {
      JournaledFrames(bundle.f, bundle.store.disk, bundle.dir, bundle.entries, bundle.tail);
    }
    TotalSizeOnDisk(bundle.f, bundle.store.disk, bundle.dir, bundle.entries);
    r, final := FinalizeRecording(bundle.store, bundle.f, bundle.dir, session, bundle.entries, now);
    FramesStay(bundle.f, before, bundle.store.maxBytes, bundle.dir, session, bundle.entries, now, r,
               bundle.store.Now());
    ConcludedSize(session, final, bundle.dir, bundle.entries);
    bundle.closed := r == Ok;
  }
}
