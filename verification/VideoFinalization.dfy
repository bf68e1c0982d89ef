/** Finalizing an encoded recording: media renamed into place, sidecars, and the terminal
    session record; exactly when a crash in between changes what the session reports. */
module VideoFinalization {
  import opened Common
  import opened SpoolFiles
  import opened FilePlans
  import opened Spool
  import opened Journal
  import opened FrameRecording
  import opened Finalization

  // ---------------------------------------------------------------- the terminal record

  /** The separate audio file, or the partial one about to become it. */
  function AudioBytes(disk: Disk, dir: string, separate: bool): nat {
    if Audio(dir) in disk then |disk[Audio(dir)]| else if separate then Size(disk, AudioPart(dir)) else 0
  }

  /** The encoder's files belong to the books again. */
  ghost predicate HandedOver(store: SpoolStore, dir: string)
    reads store
  {
    store.external !! EncoderFiles(dir)
  }

  function VideoArtifacts(dir: string, entries: seq<ChunkEntry>, size: nat): seq<Artifact> {
    if entries == [] || size == 0 then []
    else [Artifact("video", Video(dir), size, entries[0].capturedNs, entries[|entries| - 1].capturedNs)]
  }

  function AudioArtifacts(dir: string, separate: bool, audio: seq<ChunkEntry>, size: nat): seq<Artifact> {
    if !separate || audio == [] || size == 0 then []
    else [Artifact("audio", Audio(dir), size, audio[0].capturedNs, audio[|audio| - 1].capturedNs)]
  }

  /** The terminal record of an encoded recording. */
  predicate ConcludesVideo(s: Session, final: Session, dir: string, entries: seq<ChunkEntry>, audio: seq<ChunkEntry>,
                           separate: bool, videoSize: nat, audioSize: nat) {
    var video := VideoArtifacts(dir, entries, videoSize);
    var all := video + AudioArtifacts(dir, separate, audio, audioSize);
    && !final.state.Recording? && final.backend == s.backend && final.id == s.id
    && final.startedNs == s.startedNs && final.separateAudio == s.separateAudio
    && (s.stoppedNs > 0 ==> final.stoppedNs == s.stoppedNs)
    && final.frameCount == |entries| && final.audioChunkCount == |audio|
    && final.sizeBytes == (if video == [] then audioSize else videoSize + audioSize)
    && final.artifacts == (if all == [] then s.artifacts else all)
    && (if video == [] && s.errorCode == "" then final.state == Failed && final.errorCode == NO_FRAMES
        else final.state == s.state && final.errorCode == s.errorCode)
  }

  predicate HasText(disk: Disk, p: Path, text: string) {
    p in disk && disk[p] == text
  }

  /** Every artifact has its media file and sidecar; what became no artifact is gone. */
  predicate Filed(f: Formats, disk: Disk, dir: string, session: Session, entries: seq<ChunkEntry>,
                  audio: seq<ChunkEntry>, separate: bool, videoSize: nat, audioSize: nat) {
    && (if entries != [] && videoSize > 0
        then Size(disk, Video(dir)) == videoSize && HasText(disk, VideoSidecar(dir), f.sidecar(session, entries))
        else Video(dir) !in disk && VideoJournal(dir) !in disk)
    && (if separate && audio != [] && audioSize > 0
        then Size(disk, Audio(dir)) == audioSize && HasText(disk, AudioSidecar(dir), f.sidecar(session, audio))
        else if separate then Audio(dir) !in disk else Size(disk, Audio(dir)) == audioSize)
  }

  /** The session fields a video finalization sets. */
  function ConcludeVideo(session: Session, now: int, dir: string, entries: seq<ChunkEntry>, audio: seq<ChunkEntry>,
                         separate: bool, videoSize: nat, audioSize: nat): (final: Session)
    requires !session.state.Recording?
    ensures ConcludesVideo(session, final, dir, entries, audio, separate, videoSize, audioSize)
    ensures final.stoppedNs == if session.stoppedNs <= 0 then now else session.stoppedNs
  {
    var counted := session.(frameCount := |entries|, audioChunkCount := |audio|, sizeBytes := videoSize + audioSize,
                            stoppedNs := if session.stoppedNs <= 0 then now else session.stoppedNs);
    var video := VideoArtifacts(dir, entries, videoSize);
    var all := video + AudioArtifacts(dir, separate, audio, audioSize);
    var filed := if all != [] then counted.(artifacts := all) else counted;
    if video != [] then filed
    else if filed.errorCode == "" then filed.(sizeBytes := audioSize, state := Failed, errorCode := NO_FRAMES)
    else filed.(sizeBytes := audioSize)
  }

  // ---------------------------------------------------------------- the plan

  /** Partial files renamed into place, the reserve unlinked. */
  function PlacePlan(dir: string, separate: bool): seq<FileStep> {
    [Place(VideoPart(dir), Video(dir))] + (if separate then [Place(AudioPart(dir), Audio(dir))] else [])
      + [Drop(ReserveFile(dir))]
  }

  /** One sidecar per artifact; separate audio that came to nothing is unlinked. */
  function SidecarPlan(dir: string, video: Option<string>, sound: Option<string>, separate: bool): seq<FileStep> {
    (if video.Some? then [Put(VideoSidecar(dir), video.value)] else [])
    + if sound.Some? then [Put(AudioSidecar(dir), sound.value)] else if separate then [Drop(Audio(dir))] else []
  }

  /** Without a video artifact the empty media file and the frame journal go. */
  function DropPlan(dir: string): seq<FileStep> {
    [Drop(Video(dir)), Drop(VideoJournal(dir))]
  }

  function VideoText(f: Formats, d: Disk, dir: string, session: Session, entries: seq<ChunkEntry>): Option<string> {
    if entries != [] && VideoBytes(d, dir) > 0 then Some(f.sidecar(session, entries)) else None
  }

  function AudioText(f: Formats, d: Disk, dir: string, session: Session, audio: seq<ChunkEntry>,
                     separate: bool): Option<string> {
    if separate && audio != [] && AudioBytes(d, dir, separate) > 0 then Some(f.sidecar(session, audio)) else None
  }

  /** Everything before the terminal steps: no report changes yet. */
  function MildPart(f: Formats, d: Disk, dir: string, session: Session, entries: seq<ChunkEntry>,
                    audio: seq<ChunkEntry>, separate: bool): seq<FileStep> {
    PlacePlan(dir, separate)
    + SidecarPlan(dir, VideoText(f, d, dir, session, entries), AudioText(f, d, dir, session, audio, separate), separate)
  }

  /** Everything but the session file. */
  function FrontPart(f: Formats, d: Disk, dir: string, session: Session, entries: seq<ChunkEntry>,
                     audio: seq<ChunkEntry>, separate: bool): seq<FileStep> {
    MildPart(f, d, dir, session, entries, audio, separate)
    + if VideoText(f, d, dir, session, entries).Some? then [] else DropPlan(dir)
  }

  function VideoRecord(d: Disk, dir: string, session: Session, entries: seq<ChunkEntry>, audio: seq<ChunkEntry>,
                       separate: bool, now: int): Session
    requires !session.state.Recording?
  {
    ConcludeVideo(session, now, dir, entries, audio, separate, VideoBytes(d, dir), AudioBytes(d, dir, separate))
  }

  /** The file steps of a whole finalization. */
  function VideoPlan(f: Formats, d: Disk, dir: string, session: Session, entries: seq<ChunkEntry>,
                     audio: seq<ChunkEntry>, separate: bool, now: int): seq<FileStep>
    requires !session.state.Recording?
  {
    FrontPart(f, d, dir, session, entries, audio, separate)
    + [Put(SessionFile(dir), f.sessions.encode(VideoRecord(d, dir, session, entries, audio, separate, now)))]
  }

  // ---------------------------------------------------------------- what it does to the files

  function Placed(d: Disk, dir: string, separate: bool): Disk {
    var t := Do(d, Place(VideoPart(dir), Video(dir)));
    (if separate then Do(t, Place(AudioPart(dir), Audio(dir))) else t) - {ReserveFile(dir)}
  }

  lemma {:induction false} PlanPlaces(d: Disk, dir: string, separate: bool)
    ensures After(d, PlacePlan(dir, separate)) == Placed(d, dir, separate)
  {
    hide After, States;
    var video, audio, reserve := Place(VideoPart(dir), Video(dir)), Place(AudioPart(dir), Audio(dir)),
      Drop(ReserveFile(dir));
    OneStep(d, 0, 0, video);
    if separate {
      LastStep(d, [video], audio);
      LastStep(d, [video] + [audio], reserve);
    } else {
      assert [video] + [] == [video];
      LastStep(d, [video], reserve);
    }
  }

  lemma {:induction false} PlacedMedia(d: Disk, dir: string, separate: bool)
    ensures var t := After(d, PlacePlan(dir, separate));
            && Size(t, Video(dir)) == VideoBytes(d, dir) && Size(t, Audio(dir)) == AudioBytes(d, dir, separate)
            && ReserveFile(dir) !in t && SameJournals(d, t, dir)
  {
    hide After, PlacePlan;
    PlanPlaces(d, dir, separate);
  }

  ghost predicate SameJournals(d: Disk, t: Disk, dir: string) {
    SameFile(d, t, VideoJournal(dir)) && SameFile(d, t, AudioJournal(dir)) && SameFile(d, t, SessionFile(dir))
  }

  function Described(d: Disk, dir: string, video: Option<string>, sound: Option<string>, separate: bool): Disk {
    var t := if video.Some? then d[VideoSidecar(dir) := video.value] else d;
    if sound.Some? then t[AudioSidecar(dir) := sound.value] else if separate then t - {Audio(dir)} else t
  }

  lemma {:induction false} SidecarsWritten(d: Disk, dir: string, video: Option<string>, sound: Option<string>,
                                           separate: bool)
    ensures After(d, SidecarPlan(dir, video, sound, separate)) == Described(d, dir, video, sound, separate)
  {
    var first := if video.Some? then [Put(VideoSidecar(dir), video.value)] else [];
    var second := if sound.Some? then [Put(AudioSidecar(dir), sound.value)] else if separate then [Drop(Audio(dir))]
    else [];
    StatesThen(d, first, second);
    assert After(d, first) == if video.Some? then d[VideoSidecar(dir) := video.value] else d by {
      if video.Some? {
        OneStep(d, 0, 0, first[0]);
      }
    }
    if second != [] {
      OneStep(After(d, first), 0, 0, second[0]);
    }
  }

  lemma {:induction false} SidecarsDone(d: Disk, dir: string, video: Option<string>, sound: Option<string>,
                                        separate: bool)
    ensures var t := After(d, SidecarPlan(dir, video, sound, separate));
            && Size(t, Video(dir)) == Size(d, Video(dir)) && SameJournals(d, t, dir)
            && (ReserveFile(dir) in t <==> ReserveFile(dir) in d)
            && (video.Some? ==> HasText(t, VideoSidecar(dir), video.value))
            && (sound.Some? ==>
                HasText(t, AudioSidecar(dir), sound.value) && Size(t, Audio(dir)) == Size(d, Audio(dir)))
            && (sound.None? && separate ==> Audio(dir) !in t)
            && (sound.None? && !separate ==> Size(t, Audio(dir)) == Size(d, Audio(dir)))
  {
    hide After, SidecarPlan;
    SidecarsWritten(d, dir, video, sound, separate);
  }

  ghost predicate MildDone(d: Disk, t: Disk, dir: string, video: Option<string>, sound: Option<string>,
                           separate: bool) {
    && SameJournals(d, t, dir) && ReserveFile(dir) !in t
    && Size(t, Video(dir)) == VideoBytes(d, dir)
    && (video.Some? ==> HasText(t, VideoSidecar(dir), video.value))
    && (sound.Some? ==>
        HasText(t, AudioSidecar(dir), sound.value) && Size(t, Audio(dir)) == AudioBytes(d, dir, separate))
    && (sound.None? && separate ==> Audio(dir) !in t)
    && (sound.None? && !separate ==> Size(t, Audio(dir)) == AudioBytes(d, dir, separate))
  }

  lemma {:induction false} AfterMild(f: Formats, d: Disk, dir: string, session: Session, entries: seq<ChunkEntry>,
                                     audio: seq<ChunkEntry>, separate: bool)
    ensures MildDone(d, After(d, MildPart(f, d, dir, session, entries, audio, separate)), dir,
                     VideoText(f, d, dir, session, entries),
                     AudioText(f, d, dir, session, audio, separate), separate)
  {
    hide PlacePlan, SidecarPlan, After, VideoBytes, AudioBytes, VideoText, AudioText;
    var video, sound := VideoText(f, d, dir, session, entries), AudioText(f, d, dir, session, audio, separate);
    PlacedMedia(d, dir, separate);
    SidecarsDone(After(d, PlacePlan(dir, separate)), dir, video, sound, separate);
    StatesThen(d, PlacePlan(dir, separate), SidecarPlan(dir, video, sound, separate));
  }

  /** What a completed plan leaves: every artifact filed, the reserve gone, and the terminal
      record in the session file. */
  lemma {:induction false} VideoPlanDone(f: Formats, d: Disk, dir: string, session: Session, entries: seq<ChunkEntry>,
                                         audio: seq<ChunkEntry>, separate: bool, now: int)
    requires GoodFormats(f) && !session.state.Recording?
    ensures var t := After(d, VideoPlan(f, d, dir, session, entries, audio, separate, now));
            && SessionAt(f, t, dir) == Some(VideoRecord(d, dir, session, entries, audio, separate, now))
            && ReserveFile(dir) !in t
            && Filed(f, t, dir, session, entries, audio, separate, VideoBytes(d, dir), AudioBytes(d, dir, separate))
  {
    hide MildPart, VideoRecord, After, VideoBytes, AudioBytes, Lawful, Filed, States, MildDone;
    var mild, front := MildPart(f, d, dir, session, entries, audio, separate),
      FrontPart(f, d, dir, session, entries, audio, separate);
    var record := VideoRecord(d, dir, session, entries, audio, separate, now);
    AfterMild(f, d, dir, session, entries, audio, separate);
    LastStep(d, front, Put(SessionFile(dir), f.sessions.encode(record)));
    if VideoText(f, d, dir, session, entries).Some? {
      assert mild + [] == mild;
    } else {
      Dropped(d, mild, dir);
    }
    FilesAre(f, d, After(d, mild), f.sessions.encode(record), dir, session, entries, audio, separate);
  }

  /** What the terminal record says of the files it leaves: every artifact is its media file with
      that file's size and the first and last capture times; the size is that of the media files,
      except that separate audio without a journaled chunk is counted although it is unlinked. */
  lemma {:induction false} RecordMatchesFiles(f: Formats, t: Disk, dir: string, s: Session, final: Session,
                                              entries: seq<ChunkEntry>, audio: seq<ChunkEntry>, separate: bool,
                                              videoSize: nat, audioSize: nat)
    requires ConcludesVideo(s, final, dir, entries, audio, separate, videoSize, audioSize)
    requires Filed(f, t, dir, s, entries, audio, separate, videoSize, audioSize)
    ensures var hasVideo, hasAudio := entries != [] && videoSize > 0, separate && audio != [] && audioSize > 0;
            && (hasVideo ==>
                  && final.artifacts != []
                  && final.artifacts[0] == Artifact("video", Video(dir), Size(t, Video(dir)), entries[0].capturedNs,
                                                    entries[|entries| - 1].capturedNs))
            && (hasAudio ==>
                  && final.artifacts != []
                  && final.artifacts[|final.artifacts| - 1]
                     == Artifact("audio", Audio(dir), Size(t, Audio(dir)), audio[0].capturedNs,
                                 audio[|audio| - 1].capturedNs))
            && (hasVideo || hasAudio ==> |final.artifacts| == (if hasVideo then 1 else 0) + (if hasAudio then 1 else 0))
            && (!hasVideo && !hasAudio ==> final.artifacts == s.artifacts)
            && (!hasVideo && s.errorCode == "" ==> final.state == Failed && final.errorCode == NO_FRAMES)
            && (hasVideo || s.errorCode != "" ==> final.state == s.state && final.errorCode == s.errorCode)
    ensures final.sizeBytes == Size(t, Video(dir)) + Size(t, Audio(dir)) <==>
            !(separate && audio == [] && audioSize > 0)
  {
  }

  lemma {:induction false} FilesAre(f: Formats, d: Disk, t: Disk, text: string, dir: string, session: Session,
                                    entries: seq<ChunkEntry>, audio: seq<ChunkEntry>, separate: bool)
    requires MildDone(d, t, dir, VideoText(f, d, dir, session, entries), AudioText(f, d, dir, session, audio, separate),
                      separate)
    ensures var u := if VideoText(f, d, dir, session, entries).Some? then t else t - {Video(dir)} - {VideoJournal(dir)};
            var v := u[SessionFile(dir) := text];
            && Filed(f, v, dir, session, entries, audio, separate, VideoBytes(d, dir), AudioBytes(d, dir, separate))
            && ReserveFile(dir) !in v
  {
    hide VideoBytes, AudioBytes;
  }

  lemma {:induction false} Dropped(d: Disk, plan: seq<FileStep>, dir: string)
    ensures var t := After(d, plan);
            && After(d, plan + DropPlan(dir)) == t - {Video(dir)} - {VideoJournal(dir)}
            && States(d, plan + DropPlan(dir))
               == States(d, plan) + Seen(t - {Video(dir)}) + Seen(t - {Video(dir)} - {VideoJournal(dir)})
  {
    hide After, States, Seen;
    var video, journal := Drop(Video(dir)), Drop(VideoJournal(dir));
    LastStep(d, plan, video);
    LastStep(d, plan + [video], journal);
    assert plan + [video] + [journal] == plan + DropPlan(dir);
  }

  // ---------------------------------------------------------------- what it does to the reports

  /** The session reports one of those counts, every other session what it did on d. */
  ghost predicate ReportsOneOf(f: Formats, d: Disk, t: Disk, dir: string, counts: set<(nat, nat)>) {
    && ReservesGone(f, t) && StaysTerminal(f, d, t)
    && FinalCounts(f, t, dir).Some? && FinalCounts(f, t, dir).value in counts
    && forall other :: other != dir ==>
       FinalCounts(f, t, other) == FinalCounts(f, d, other) && (Healthy(f, d, other) ==> Healthy(f, t, other))
  }

  ghost function Recounts(f: Formats, d: Disk, dir: string, counts: set<(nat, nat)>): iset<Disk> {
    iset t: Disk | ReportsOneOf(f, d, t, dir, counts)
  }

  /** What an open encoded session reports. */
  ghost function JournalCounts(f: Formats, d: Disk, dir: string): (nat, nat) {
    (|ChunksAt(f, d, VideoJournal(dir))|, |ChunksAt(f, d, AudioJournal(dir))|)
  }

  lemma {:induction false} OpenCounts(f: Formats, d: Disk, dir: string)
    requires OpenVideo(f, d, dir)
    ensures FinalCounts(f, d, dir) == Some(JournalCounts(f, d, dir)) && !TerminalAt(f, d, dir)
  {
  }

  lemma {:induction false} SameIsOneOf(f: Formats, d: Disk, t: Disk, dir: string)
    requires SameReports(f, d, t) && FinalCounts(f, d, dir).Some?
    ensures ReportsOneOf(f, d, t, dir, {FinalCounts(f, d, dir).value})
  {
  }

  lemma {:induction false} OneOfThen(f: Formats, d: Disk, t: Disk, u: Disk, dir: string, c: set<(nat, nat)>,
                                     all: set<(nat, nat)>)
    requires SameReports(f, d, t) && ReportsOneOf(f, t, u, dir, c) && c <= all
    ensures ReportsOneOf(f, d, u, dir, all)
  {
  }

  lemma {:induction false} OneOfSeen(f: Formats, d: Disk, t: Disk, dir: string, counts: set<(nat, nat)>)
    requires ReportsOneOf(f, d, t, dir, counts)
    ensures Seen(t) <= Recounts(f, d, dir, counts)
  {
    hide FinalCounts, Healthy, Seen;
    forall u | u in Seen(t) ensures ReportsOneOf(f, d, u, dir, counts) {
      SeenReports(f, t, u);
    }
  }

  /** Unlinking the media or the frame journal of an open session. */
  lemma {:induction false} DropOwn(f: Formats, d: Disk, dir: string, p: Path)
    requires ReservesGone(f, d) && OpenVideo(f, d, dir) && (p == Video(dir) || p == VideoJournal(dir))
    ensures OpenVideo(f, d - {p}, dir)
    ensures ReportsOneOf(f, d, d - {p}, dir,
                         {(if p.Video? then JournalCounts(f, d, dir).0 else 0, |ChunksAt(f, d, AudioJournal(dir))|)})
    ensures JournalCounts(f, d - {p}, dir)
            == (if p.Video? then JournalCounts(f, d, dir).0 else 0, |ChunksAt(f, d, AudioJournal(dir))|)
  {
    hide Recoverable, Lines;
    var t := d - {p};
    EmptyHasNoLines();
    assert SessionAt(f, t, dir) == SessionAt(f, d, dir);
    assert JournalText(t, AudioJournal(dir)) == JournalText(d, AudioJournal(dir));
    if p.Video? {
      assert JournalText(t, VideoJournal(dir)) == JournalText(d, VideoJournal(dir));
    } else {
      assert ChunksAt(f, t, VideoJournal(dir)) == [];
    }
    forall other ensures (other != dir ==> FinalCounts(f, t, other) == FinalCounts(f, d, other))
                      && (other != dir && Healthy(f, d, other) ==> Healthy(f, t, other))
                      && (TerminalAt(f, t, other) ==> ReserveFile(other) !in t)
    {
      assert SessionAt(f, t, other) == SessionAt(f, d, other);
      assert TerminalAt(f, t, other) ==> TerminalAt(f, d, other);
      SameRecoverable(f, d, t, other);
    }
  }

  lemma {:induction false} OneOfTrans(f: Formats, d: Disk, t: Disk, u: Disk, dir: string, c: set<(nat, nat)>,
                                      e: set<(nat, nat)>)
    requires ReportsOneOf(f, d, t, dir, c) && ReportsOneOf(f, t, u, dir, e)
    ensures ReportsOneOf(f, d, u, dir, e)
  {
    hide FinalCounts, Healthy;
  }

  /** Whatever this session would have reported, its terminal record decides from now on. */
  lemma {:induction false} TerminalOver(f: Formats, d: Disk, t: Disk, dir: string, s: Session, c: set<(nat, nat)>)
    requires GoodFormats(f) && !s.state.Recording? && s.backend.FfmpegMp4? && ReserveFile(dir) !in t
    requires ReportsOneOf(f, d, t, dir, c) && !TerminalAt(f, d, dir)
    ensures var u := t[SessionFile(dir) := f.sessions.encode(s)];
            ReportsOneOf(f, d, u, dir, {(s.frameCount, s.audioChunkCount)}) && TerminalAt(f, u, dir)
  {
    hide Recoverable, Lines, Parsed;
    var u := t[SessionFile(dir) := f.sessions.encode(s)];
    forall other ensures (other != dir ==> FinalCounts(f, u, other) == FinalCounts(f, d, other))
                      && (TerminalAt(f, u, other) ==> ReserveFile(other) !in u)
                      && (other != dir && Healthy(f, d, other) ==> Healthy(f, u, other))
                      && (TerminalAt(f, d, other) ==> SessionAt(f, u, other) == SessionAt(f, d, other))
    {
      if other != dir {
        assert SessionAt(f, u, other) == SessionAt(f, t, other);
        assert Healthy(f, u, other) <==> Healthy(f, t, other);
        SameRecoverable(f, t, u, other);
        assert TerminalAt(f, u, other) ==> TerminalAt(f, t, other);
        assert FinalCounts(f, u, other) == FinalCounts(f, t, other);
      }
    }
  }

  /** Reporting the same counts is reporting the same, unless frames have lost their media. */
  lemma {:induction false} OneOfIsSame(f: Formats, d: Disk, t: Disk, dir: string)
    requires FinalCounts(f, d, dir).Some? && ReportsOneOf(f, d, t, dir, {FinalCounts(f, d, dir).value})
    requires TerminalAt(f, t, dir) || (OpenVideo(f, t, dir) && JournalCounts(f, t, dir).0 == 0)
    ensures SameReports(f, d, t)
  {
  }

  lemma {:induction false} MildReports(f: Formats, d: Disk, dir: string, session: Session, entries: seq<ChunkEntry>,
                                       audio: seq<ChunkEntry>, separate: bool)
    requires ReservesGone(f, d)
    ensures var plan := MildPart(f, d, dir, session, entries, audio, separate);
            States(d, plan) <= Resumable(f, d) && SameReports(f, d, After(d, plan))
  {
    hide SameReports, ReservesGone, States, After, Resumable, VideoText, AudioText;
    MildPlan(f, d, MildPart(f, d, dir, session, entries, audio, separate));
  }

  /** The media file goes, then the frame journal, while the session file says RECORDING. */
  lemma {:induction false} DroppedReports(f: Formats, d: Disk, t: Disk, dir: string)
    requires SameReports(f, d, t) && OpenVideo(f, d, dir) && SameJournals(d, t, dir)
    ensures var u := t - {Video(dir)};
            var v := u - {VideoJournal(dir)};
            && Seen(u) <= Recounts(f, d, dir, {JournalCounts(f, d, dir)})
            && Seen(v) <= Recounts(f, d, dir, {(0, JournalCounts(f, d, dir).1)})
            && ReportsOneOf(f, d, v, dir, {(0, JournalCounts(f, d, dir).1)})
            && (JournalCounts(f, d, dir).0 == 0 ==> Seen(u) + Seen(v) <= Resumable(f, d))
  {
    hide SameReports, ReportsOneOf, Recounts, Seen, ChunksAt, Resumable;
    var u, counts := t - {Video(dir)}, JournalCounts(f, d, dir);
    var v := u - {VideoJournal(dir)};
    SameCounts(f, d, t, dir);
    ReportsImply(f, d, t);
    DropOwn(f, t, dir, Video(dir));
    OneOfThen(f, d, t, u, dir, {counts}, {counts});
    OneOfSeen(f, d, u, dir, {counts});
    OneOfGone(f, d, u, dir, {counts});
    DropOwn(f, u, dir, VideoJournal(dir));
    OneOfTrans(f, d, u, v, dir, {counts}, {(0, counts.1)});
    OneOfSeen(f, d, v, dir, {(0, counts.1)});
    if counts.0 == 0 {
      OpenCounts(f, d, dir);
      OneOfIsSame(f, d, u, dir);
      OneOfIsSame(f, d, v, dir);
      SeenResumable(f, d, u);
      SeenResumable(f, d, v);
    }
  }

  lemma {:induction false} SameCounts(f: Formats, d: Disk, t: Disk, dir: string)
    requires SameJournals(d, t, dir)
    ensures JournalCounts(f, d, dir) == JournalCounts(f, t, dir) && SessionAt(f, t, dir) == SessionAt(f, d, dir)
  {
    assert JournalText(d, VideoJournal(dir)) == JournalText(t, VideoJournal(dir));
    assert JournalText(d, AudioJournal(dir)) == JournalText(t, AudioJournal(dir));
  }

  lemma {:induction false} OneOfGone(f: Formats, d: Disk, t: Disk, dir: string, counts: set<(nat, nat)>)
    requires ReportsOneOf(f, d, t, dir, counts)
    ensures ReservesGone(f, t)
  {
  }

  /** The counts a session can report while it is finalized: what its journals hold, the same
      without the frames, and what its terminal record will say. */
  ghost function PassingCounts(f: Formats, d: Disk, dir: string, entries: seq<ChunkEntry>,
                               audio: seq<ChunkEntry>): set<(nat, nat)> {
    {JournalCounts(f, d, dir), (0, JournalCounts(f, d, dir).1), (|entries|, |audio|)}
  }

  /** The caller counted what the journals hold, and there is media for the frames. */
  ghost predicate KeepsCounts(f: Formats, d: Disk, dir: string, entries: seq<ChunkEntry>, audio: seq<ChunkEntry>) {
    (|entries|, |audio|) == JournalCounts(f, d, dir) && (entries == [] || VideoBytes(d, dir) > 0)
  }

  /** All states before the session file is replaced, and the last of them. */
  lemma {:induction false} FrontStates(f: Formats, d: Disk, dir: string, session: Session, entries: seq<ChunkEntry>,
                                       audio: seq<ChunkEntry>, separate: bool)
    requires ReservesGone(f, d) && OpenVideo(f, d, dir)
    ensures var front := FrontPart(f, d, dir, session, entries, audio, separate);
            && States(d, front) <= Recounts(f, d, dir, PassingCounts(f, d, dir, entries, audio))
            && (KeepsCounts(f, d, dir, entries, audio) ==> States(d, front) <= Resumable(f, d))
            && ReportsOneOf(f, d, After(d, front), dir, PassingCounts(f, d, dir, entries, audio))
            && ReserveFile(dir) !in After(d, front)
  {
    hide SameReports, ReportsOneOf, ReservesGone, Seen, ChunksAt, States, After, MildPart, VideoBytes, SessionAt;
    var mild, all := MildPart(f, d, dir, session, entries, audio, separate), PassingCounts(f, d, dir, entries, audio);
    var t, counts := After(d, mild), JournalCounts(f, d, dir);
    MildReports(f, d, dir, session, entries, audio, separate);
    AfterMild(f, d, dir, session, entries, audio, separate);
    OpenCounts(f, d, dir);
    forall u | u in Resumable(f, d) ensures ReportsOneOf(f, d, u, dir, all) {
      SameIsOneOf(f, d, u, dir);
      MoreCounts(f, d, u, dir, {counts}, all);
    }
    if VideoText(f, d, dir, session, entries).Some? {
      assert mild + [] == mild;
    } else {
      Dropped(d, mild, dir);
      DroppedReports(f, d, t, dir);
      forall u | ReportsOneOf(f, d, u, dir, {counts}) || ReportsOneOf(f, d, u, dir, {(0, counts.1)})
        ensures ReportsOneOf(f, d, u, dir, all)
      {
        MoreCounts(f, d, u, dir, if ReportsOneOf(f, d, u, dir, {counts}) then {counts} else {(0, counts.1)}, all);
      }
    }
  }

  lemma {:induction false} MoreCounts(f: Formats, d: Disk, t: Disk, dir: string, c: set<(nat, nat)>,
                                      all: set<(nat, nat)>)
    requires ReportsOneOf(f, d, t, dir, c) && c <= all
    ensures ReportsOneOf(f, d, t, dir, all)
  {
    hide FinalCounts, Healthy;
  }

  /** Wherever a finalization stops, every other session reports the same, and this one one of
      three counts. It keeps its own as well, at every point, if its entries are those of its
      journals and there is media for its frames. */
  lemma {:induction false} VideoStates(f: Formats, d: Disk, dir: string, session: Session, entries: seq<ChunkEntry>,
                                       audio: seq<ChunkEntry>, separate: bool, now: int)
    requires GoodFormats(f) && ReservesGone(f, d) && OpenVideo(f, d, dir)
    requires !session.state.Recording? && session.backend.FfmpegMp4?
    ensures var plan := VideoPlan(f, d, dir, session, entries, audio, separate, now);
            && States(d, plan) <= Recounts(f, d, dir, PassingCounts(f, d, dir, entries, audio))
            && (KeepsCounts(f, d, dir, entries, audio) ==> States(d, plan) <= Resumable(f, d))
            && ReportsOneOf(f, d, After(d, plan), dir, {(|entries|, |audio|)})
  {
    hide SameReports, ReportsOneOf, ReservesGone, Seen, ChunksAt, States, After, FrontPart, VideoBytes, FinalCounts,
      Lawful;
    var front, all := FrontPart(f, d, dir, session, entries, audio, separate), PassingCounts(f, d, dir, entries, audio);
    var record := VideoRecord(d, dir, session, entries, audio, separate, now);
    var t := After(d, front);
    var u := t[SessionFile(dir) := f.sessions.encode(record)];
    FrontStates(f, d, dir, session, entries, audio, separate);
    LastStep(d, front, Put(SessionFile(dir), f.sessions.encode(record)));
    OpenCounts(f, d, dir);
    TerminalOver(f, d, t, dir, record, all);
    MoreCounts(f, d, u, dir, {(|entries|, |audio|)}, all);
    OneOfSeen(f, d, u, dir, all);
    if KeepsCounts(f, d, dir, entries, audio) {
      OneOfIsSame(f, d, u, dir);
      SeenResumable(f, d, u);
    }
  }

  lemma {:induction false} FrontIsOpen(f: Formats, d: Disk, dir: string, session: Session, entries: seq<ChunkEntry>,
                                       audio: seq<ChunkEntry>, separate: bool)
    ensures States(d, FrontPart(f, d, dir, session, entries, audio, separate)) <= OpenStates(f, d, dir)
  {
    hide States, VideoText, AudioText;
    var front := FrontPart(f, d, dir, session, entries, audio, separate);
    forall t | t in States(d, front) ensures SessionAt(f, t, dir) == SessionAt(f, d, dir) {
      UntouchedFile(d, front, SessionFile(dir), t);
    }
  }

  // ---------------------------------------------------------------- carrying it out

  /** os.replace of a finished partial file, unless the final name is taken. */
  method PlaceOne(store: SpoolStore, from: Path, to: Path) returns (r: Outcome)
    requires store.Valid() && from !in store.external && to !in store.external
    requires (from.VideoPart? && to == Video(from.dir)) || (from.AudioPart? && to == Audio(from.dir))
    modifies store`disk, store`trace, store`faults
    ensures store.Valid() && Excused(r, store.maxBytes, store.minFreeBytes, old(store.faults), store.faults)
    ensures Ran(old(store.Now()), store.maxBytes, [Place(from, to)], r, store.Now())
  {
    hide Ran, Seen, Sum, Booked, TempsBelow, Accounted;
    r := Ok;
    if from in store.disk && to !in store.disk {
      r := store.Rename(from, to);
    } else {
      NothingAdded(store.trace, Taking(store.disk, Place(from, to)));
      RanStep(store.Now(), store.maxBytes, Place(from, to), Ok, store.Now());
    }
  }

  method PlaceMedia(store: SpoolStore, dir: string, separate: bool) returns (r: Outcome)
    requires store.Valid() && HandedOver(store, dir)
    modifies store`disk, store`usedBytes, store`trace, store`faults
    ensures store.Valid() && Excused(r, store.maxBytes, store.minFreeBytes, old(store.faults), store.faults)
    ensures Ran(old(store.Now()), store.maxBytes, PlacePlan(dir, separate), r, store.Now())
  {
    hide Ran, Seen, Sum, Booked, TempsBelow, Added;
    ghost var a := store.Now();
    ghost var video, audio := [Place(VideoPart(dir), Video(dir))], if separate then [Place(AudioPart(dir), Audio(dir))]
    else [];
    r := PlaceOne(store, VideoPart(dir), Video(dir));
    if r != Ok {
      RanStopped(a, store.Now(), store.maxBytes, video, audio + [Drop(ReserveFile(dir))], r);
      assert video + (audio + [Drop(ReserveFile(dir))]) == PlacePlan(dir, separate);
      return;
    }
    ghost var b := store.Now();
    if separate {
      r := PlaceOne(store, AudioPart(dir), Audio(dir));
    } else {
      RanNothing(b, store.maxBytes);
    }
    ghost var c := store.Now();
    RanThen(a, b, c, store.maxBytes, video, audio, r);
    if r != Ok {
      RanStopped(a, c, store.maxBytes, video + audio, [Drop(ReserveFile(dir))], r);
      return;
    }
    r := store.UnlinkCounted(ReserveFile(dir));
    RanThen(a, c, store.Now(), store.maxBytes, video + audio, [Drop(ReserveFile(dir))], r);
  }

  method WriteSidecars(store: SpoolStore, dir: string, video: Option<string>, sound: Option<string>, separate: bool)
    returns (r: Outcome)
    requires store.Valid() && HandedOver(store, dir)
    modifies store`disk, store`usedBytes, store`nextToken, store`trace, store`faults
    ensures store.Valid() && Excused(r, store.maxBytes, store.minFreeBytes, old(store.faults), store.faults)
    ensures Ran(old(store.Now()), store.maxBytes, SidecarPlan(dir, video, sound, separate), r, store.Now())
  {
    hide Ran, Seen, Sum, Booked, TempsBelow, Added;
    ghost var a := store.Now();
    ghost var first := if video.Some? then [Put(VideoSidecar(dir), video.value)] else [];
    ghost var second := if sound.Some? then [Put(AudioSidecar(dir), sound.value)]
    else if separate then [Drop(Audio(dir))] else [];
    r := Ok;
    RanNothing(a, store.maxBytes);
    if video.Some? {
      r := store.AtomicWriteCounted(VideoSidecar(dir), video.value);
      if r != Ok {
        RanStopped(a, store.Now(), store.maxBytes, first, second, r);
        return;
      }
    }
    ghost var b := store.Now();
    RanNothing(b, store.maxBytes);
    if sound.Some? {
      r := store.AtomicWriteCounted(AudioSidecar(dir), sound.value);
    } else if separate {
      r := store.UnlinkCounted(Audio(dir));
    }
    RanThen(a, b, store.Now(), store.maxBytes, first, second, r);
  }

  /** Everything before the terminal steps, with the sizes read once the media is in place. */
  method PlaceAndDescribe(store: SpoolStore, f: Formats, dir: string, session: Session, entries: seq<ChunkEntry>,
                          audio: seq<ChunkEntry>, separate: bool, now: int)
    returns (r: Outcome, final: Session, hasVideo: bool)
    requires store.Valid() && HandedOver(store, dir) && !session.state.Recording?
    modifies store`disk, store`usedBytes, store`nextToken, store`trace, store`faults
    ensures store.Valid() && Excused(r, store.maxBytes, store.minFreeBytes, old(store.faults), store.faults)
    ensures Ran(old(store.Now()), store.maxBytes, MildPart(f, old(store.disk), dir, session, entries, audio, separate),
                r, store.Now())
    ensures r == Ok ==>
              && final == VideoRecord(old(store.disk), dir, session, entries, audio, separate, now)
              && (hasVideo <==> VideoText(f, old(store.disk), dir, session, entries).Some?)
  {
    hide Ran, Seen, Sum, Booked, TempsBelow, Accounted, Added, PlacePlan, SidecarPlan, ConcludeVideo, VideoBytes,
      AudioBytes, After, States;
    ghost var a := store.Now();
    ghost var video, sound := VideoText(f, a.disk, dir, session, entries),
      AudioText(f, a.disk, dir, session, audio, separate);
    final, hasVideo := session, false;
    r := PlaceMedia(store, dir, separate);
    ghost var b := store.Now();
    if r != Ok {
      RanStopped(a, b, store.maxBytes, PlacePlan(dir, separate), SidecarPlan(dir, video, sound, separate), r);
      return;
    }
    PlacedMedia(a.disk, dir, separate);
    RanMeans(a, store.maxBytes, PlacePlan(dir, separate), r, b, States(a.disk, PlacePlan(dir, separate)));
    var videoSize, audioSize := Size(store.disk, Video(dir)), Size(store.disk, Audio(dir));
    final := ConcludeVideo(session, now, dir, entries, audio, separate, videoSize, audioSize);
    hasVideo := entries != [] && videoSize > 0;
    var hasSound := separate && audio != [] && audioSize > 0;
    r := WriteSidecars(store, dir, if hasVideo then Some(f.sidecar(session, entries)) else None,
                       if hasSound then Some(f.sidecar(session, audio)) else None, separate);
    RanThen(a, b, store.Now(), store.maxBytes, PlacePlan(dir, separate), SidecarPlan(dir, video, sound, separate), r);
  }

  method DropEmptyVideo(store: SpoolStore, dir: string) returns (r: Outcome)
    requires store.Valid() && HandedOver(store, dir)
    modifies store`disk, store`usedBytes, store`trace, store`faults
    ensures store.Valid() && Excused(r, store.maxBytes, store.minFreeBytes, old(store.faults), store.faults)
    ensures Ran(old(store.Now()), store.maxBytes, DropPlan(dir), r, store.Now())
    ensures r == Ok && VideoJournal(dir) in old(store.disk) ==>
              |old(store.trace)| < |store.trace| && store.trace[|store.trace| - 1] == store.disk
    ensures r == Ok ==> store.disk == old(store.disk) - {Video(dir)} - {VideoJournal(dir)}
  {
    hide Ran, Seen, Sum, Booked, TempsBelow;
    ghost var a := store.Now();
    assert [Drop(Video(dir))] + [Drop(VideoJournal(dir))] == DropPlan(dir);
    r := store.UnlinkCounted(Video(dir));
    ghost var b := store.Now();
    if r != Ok {
      RanStopped(a, b, store.maxBytes, [Drop(Video(dir))], [Drop(VideoJournal(dir))], r);
      return;
    }
    r := store.UnlinkCounted(VideoJournal(dir));
    RanThen(a, b, store.Now(), store.maxBytes, [Drop(Video(dir))], [Drop(VideoJournal(dir))], r);
  }

  /** All steps but the last. */
  method PrepareTerminal(store: SpoolStore, f: Formats, dir: string, session: Session, entries: seq<ChunkEntry>,
                         audio: seq<ChunkEntry>, separate: bool, now: int)
    returns (r: Outcome, final: Session)
    requires store.Valid() && HandedOver(store, dir) && !session.state.Recording?
    modifies store`disk, store`usedBytes, store`nextToken, store`trace, store`faults
    ensures store.Valid() && Excused(r, store.maxBytes, store.minFreeBytes, old(store.faults), store.faults)
    ensures Ran(old(store.Now()), store.maxBytes, FrontPart(f, old(store.disk), dir, session, entries, audio, separate),
                r, store.Now())
    ensures r == Ok ==> final == VideoRecord(old(store.disk), dir, session, entries, audio, separate, now)
    ensures r == Ok && VideoText(f, old(store.disk), dir, session, entries).None?
            && VideoJournal(dir) in old(store.disk) ==>
              && |old(store.trace)| < |store.trace| && store.trace[|store.trace| - 1] == store.disk
              && VideoJournal(dir) !in store.disk
  {
    hide Ran, Seen, Sum, Booked, TempsBelow, Added, MildPart, VideoRecord, VideoText, States, After;
    ghost var a := store.Now();
    ghost var mild := MildPart(f, a.disk, dir, session, entries, audio, separate);
    var hasVideo: bool;
    r, final, hasVideo := PlaceAndDescribe(store, f, dir, session, entries, audio, separate, now);
    ghost var b := store.Now();
    assert mild + [] == mild;
    if r != Ok {
      RanStopped(a, b, store.maxBytes, mild, DropPlan(dir), r);
      return;
    }
    AfterMild(f, a.disk, dir, session, entries, audio, separate);
    RanMeans(a, store.maxBytes, mild, r, b, States(a.disk, mild));
    assert SameFile(a.disk, b.disk, VideoJournal(dir));
    RanLonger(a, store.maxBytes, mild, r, b);
    if !hasVideo {
      r := DropEmptyVideo(store, dir);
      RanThen(a, b, store.Now(), store.maxBytes, mild, DropPlan(dir), r);
    }
  }

  /** The files and the terminal record are what the entries say. At every point a crash could
      strike this session reports what its journals hold, that without frames, or what was
      counted, and the others what they did; it reports the same throughout if what was
      counted is what the journals hold and there is media for it, and ends up reporting the
      same only if the counts agree. It runs out of quota only if the plan does not fit. */
  method FinalizeVideoRecording(store: SpoolStore, f: Formats, dir: string, session: Session, entries: seq<ChunkEntry>,
                                audio: seq<ChunkEntry>, separate: bool, now: int)
    returns (r: Outcome, final: Session)
    requires store.Valid() && GoodFormats(f) && ReservesGone(f, store.disk) && HandedOver(store, dir)
    requires OpenVideo(f, store.disk, dir) && !session.state.Recording? && session.backend.FfmpegMp4?
    modifies store`disk, store`usedBytes, store`nextToken, store`trace, store`faults
    ensures Excused(r, store.maxBytes, store.minFreeBytes, old(store.faults), store.faults)
    ensures WithinQuota(old(store.usedBytes), store.maxBytes) ==> WithinQuota(store.usedBytes, store.maxBytes)
    ensures store.Valid()
    ensures var all := PassingCounts(f, old(store.disk), dir, entries, audio);
            && Added(old(store.trace), store.trace, Recounts(f, old(store.disk), dir, all))
            && ReportsOneOf(f, old(store.disk), store.disk, dir, all)
    ensures KeepsCounts(f, old(store.disk), dir, entries, audio) ==>
              Added(old(store.trace), store.trace, Resumable(f, old(store.disk)))
                && SameReports(f, old(store.disk), store.disk)
    ensures r == Ok ==>
              && ReportsOneOf(f, old(store.disk), store.disk, dir, {(|entries|, |audio|)})
              && (SameReports(f, old(store.disk), store.disk) <==>
                  (|entries|, |audio|) == JournalCounts(f, old(store.disk), dir))
              && SessionAt(f, store.disk, dir) == Some(final) && ReserveFile(dir) !in store.disk
              && final.stoppedNs == (if session.stoppedNs <= 0 then now else session.stoppedNs)
              && ConcludesVideo(session, final, dir, entries, audio, separate, VideoBytes(old(store.disk), dir),
                                AudioBytes(old(store.disk), dir, separate))
              && Filed(f, store.disk, dir, session, entries, audio, separate, VideoBytes(old(store.disk), dir),
                       AudioBytes(old(store.disk), dir, separate))
    ensures r != Ok ==> SessionAt(f, store.disk, dir) == SessionAt(f, old(store.disk), dir)
    ensures r == Ok && JournalCounts(f, old(store.disk), dir).0 > 0
            && (entries == [] || VideoBytes(old(store.disk), dir) == 0) ==>
              exists i :: |old(store.trace)| <= i < |store.trace|
                       && FinalCounts(f, store.trace[i], dir) == Some((0, JournalCounts(f, old(store.disk), dir).1))
    ensures r == Ok ==>
              (Added(old(store.trace), store.trace, Resumable(f, old(store.disk)))
               && SameReports(f, old(store.disk), store.disk)
               <==> KeepsCounts(f, old(store.disk), dir, entries, audio))
    ensures Ran(old(store.Now()), store.maxBytes,
                VideoPlan(f, old(store.disk), dir, session, entries, audio, separate, now), r, store.Now())
    ensures r == Ok ==>
              Fits(old(store.disk), old(store.usedBytes), store.maxBytes,
                   VideoPlan(f, old(store.disk), dir, session, entries, audio, separate, now))
    ensures r == QuotaFull ==>
              !Fits(old(store.disk), old(store.usedBytes), store.maxBytes,
                    VideoPlan(f, old(store.disk), dir, session, entries, audio, separate, now))
  {
    hide Ran, Performed, Seen, Sum, Booked, TempsBelow, Added, States, After, Fits, FrontPart, VideoPlan, SameReports,
      ReportsOneOf;
    hide ReservesGone, Resumable, Recounts, PassingCounts, KeepsCounts, JournalCounts, SessionAt, FinalCounts,
      VideoBytes, AudioBytes;
    hide ConcludesVideo, Filed, GoodFormats, OpenVideo, VideoRecord, WithinQuota, VideoText;
    ghost var a, d0 := store.Now(), store.disk;
    ghost var front := FrontPart(f, d0, dir, session, entries, audio, separate);
    ghost var last := Put(SessionFile(dir),
                          f.sessions.encode(VideoRecord(d0, dir, session, entries, audio, separate, now)));
    VideoPlanIs(f, d0, dir, session, entries, audio, separate, now);
    r, final := PrepareTerminal(store, f, dir, session, entries, audio, separate, now);
    ghost var b := store.Now();
    if r == Ok {
      r := store.AtomicWriteCounted(SessionFile(dir), f.sessions.encode(final));
      RanThen(a, b, store.Now(), store.maxBytes, front, [last], r);
      LostBetween(f, a, b, store.Now(), store.maxBytes, front, last, r, dir, session, entries, audio, separate);
    } else {
      RanStopped(a, b, store.maxBytes, front, [last], r);
    }
    VideoRunMeans(f, a, store.maxBytes, store.Now(), r, dir, session, entries, audio, separate, now);
    if r == Ok && !KeepsCounts(f, d0, dir, entries, audio) {
      LossShows(f, a, store.Now(), dir, entries, audio);
    }
  }

  /** Frames that were journaled and then reported no more show in some state. */
  lemma {:induction false} LossShows(f: Formats, a: Moment, b: Moment, dir: string, entries: seq<ChunkEntry>,
                                     audio: seq<ChunkEntry>)
    requires OpenVideo(f, a.disk, dir) && !KeepsCounts(f, a.disk, dir, entries, audio)
    requires SameReports(f, a.disk, b.disk) <==> (|entries|, |audio|) == JournalCounts(f, a.disk, dir)
    requires JournalCounts(f, a.disk, dir).0 > 0 && (entries == [] || VideoBytes(a.disk, dir) == 0) ==>
               exists i :: |a.trace| <= i < |b.trace|
                 && FinalCounts(f, b.trace[i], dir) == Some((0, JournalCounts(f, a.disk, dir).1))
    ensures !(Added(a.trace, b.trace, Resumable(f, a.disk)) && SameReports(f, a.disk, b.disk))
  {
    hide ChunksAt, VideoBytes, FinalCounts, Healthy;
    OpenCounts(f, a.disk, dir);
  }

  /** What a run of the plan means for the reports and the files. */
  lemma {:induction false} VideoRunMeans(f: Formats, a: Moment, maxBytes: nat, b: Moment, r: Outcome, dir: string,
                                         session: Session, entries: seq<ChunkEntry>, audio: seq<ChunkEntry>,
                                         separate: bool, now: int)
    requires GoodFormats(f) && ReservesGone(f, a.disk) && OpenVideo(f, a.disk, dir)
    requires !session.state.Recording? && session.backend.FfmpegMp4?
    requires Ran(a, maxBytes, VideoPlan(f, a.disk, dir, session, entries, audio, separate, now), r, b)
    ensures WithinQuota(a.used, maxBytes) ==> WithinQuota(b.used, maxBytes)
    ensures var all := PassingCounts(f, a.disk, dir, entries, audio);
            Added(a.trace, b.trace, Recounts(f, a.disk, dir, all)) && ReportsOneOf(f, a.disk, b.disk, dir, all)
    ensures KeepsCounts(f, a.disk, dir, entries, audio) ==>
              Added(a.trace, b.trace, Resumable(f, a.disk)) && SameReports(f, a.disk, b.disk)
    ensures r == Ok ==>
              && ReportsOneOf(f, a.disk, b.disk, dir, {(|entries|, |audio|)})
              && (SameReports(f, a.disk, b.disk) <==> (|entries|, |audio|) == JournalCounts(f, a.disk, dir))
              && SessionAt(f, b.disk, dir) == Some(VideoRecord(a.disk, dir, session, entries, audio, separate, now))
              && ReserveFile(dir) !in b.disk
    ensures var final := VideoRecord(a.disk, dir, session, entries, audio, separate, now);
            && final.stoppedNs == (if session.stoppedNs <= 0 then now else session.stoppedNs)
            && ConcludesVideo(session, final, dir, entries, audio, separate, VideoBytes(a.disk, dir),
                              AudioBytes(a.disk, dir, separate))
    ensures r == Ok ==> Filed(f, b.disk, dir, session, entries, audio, separate, VideoBytes(a.disk, dir),
                              AudioBytes(a.disk, dir, separate))
    ensures r != Ok ==> SessionAt(f, b.disk, dir) == SessionAt(f, a.disk, dir)
    ensures var plan := VideoPlan(f, a.disk, dir, session, entries, audio, separate, now);
            (r == Ok ==> Fits(a.disk, a.used, maxBytes, plan))
              && (r == QuotaFull ==> !Fits(a.disk, a.used, maxBytes, plan))
  {
    hide Ran, Performed, Seen, Added, States, After, Fits, FrontPart, VideoPlan, SameReports, ReportsOneOf,
      ConcludesVideo;
    hide ReservesGone, Resumable, Recounts, PassingCounts, KeepsCounts, JournalCounts, FinalCounts, VideoBytes,
      AudioBytes;
    hide Filed, Lawful, OpenStates, OpenVideo, SessionAt;
    var d, all := a.disk, PassingCounts(f, a.disk, dir, entries, audio);
    var plan, front := VideoPlan(f, d, dir, session, entries, audio, separate, now),
      FrontPart(f, d, dir, session, entries, audio, separate);
    VideoStates(f, d, dir, session, entries, audio, separate, now);
    RanMeans(a, maxBytes, plan, r, b, Recounts(f, d, dir, all));
    RecountsMean(f, d, b.disk, dir, all);
    if KeepsCounts(f, d, dir, entries, audio) {
      RanMeans(a, maxBytes, plan, r, b, Resumable(f, d));
      ReportsFrom(f, d, b.disk);
    }
    if r == Ok {
      VideoPlanDone(f, d, dir, session, entries, audio, separate, now);
      RecordIsTerminal(f, d, b.disk, dir, session, entries, audio, separate, now);
      EndsSame(f, d, b.disk, dir, entries, audio);
    } else {
      VideoPlanIs(f, d, dir, session, entries, audio, separate, now);
      RanShort(a, maxBytes, front, plan[|front|], r, b);
      FrontIsOpen(f, d, dir, session, entries, audio, separate);
      StillSaysSo(f, d, b.disk, dir);
    }
  }

  lemma {:induction false} RecordIsTerminal(f: Formats, d: Disk, t: Disk, dir: string, session: Session,
                                            entries: seq<ChunkEntry>, audio: seq<ChunkEntry>, separate: bool, now: int)
    requires !session.state.Recording?
    requires SessionAt(f, t, dir) == Some(VideoRecord(d, dir, session, entries, audio, separate, now))
    ensures TerminalAt(f, t, dir)
  {
  }

  lemma {:induction false} VideoPlanIs(f: Formats, d: Disk, dir: string, session: Session, entries: seq<ChunkEntry>,
                                       audio: seq<ChunkEntry>, separate: bool, now: int)
    requires !session.state.Recording?
    ensures VideoPlan(f, d, dir, session, entries, audio, separate, now)
         == FrontPart(f, d, dir, session, entries, audio, separate)
            + [Put(SessionFile(dir), f.sessions.encode(VideoRecord(d, dir, session, entries, audio, separate, now)))]
  {
  }

  lemma {:induction false} RecountsMean(f: Formats, d: Disk, t: Disk, dir: string, counts: set<(nat, nat)>)
    requires t in Recounts(f, d, dir, counts)
    ensures ReportsOneOf(f, d, t, dir, counts)
  {
  }

  lemma {:induction false} EndsSame(f: Formats, d: Disk, t: Disk, dir: string, entries: seq<ChunkEntry>,
                                    audio: seq<ChunkEntry>)
    requires OpenVideo(f, d, dir) && TerminalAt(f, t, dir) && ReportsOneOf(f, d, t, dir, {(|entries|, |audio|)})
    ensures SameReports(f, d, t) <==> (|entries|, |audio|) == JournalCounts(f, d, dir)
  {
    hide JournalCounts, Healthy;
    OpenCounts(f, d, dir);
    if (|entries|, |audio|) == JournalCounts(f, d, dir) {
      OneOfIsSame(f, d, t, dir);
    }
  }

  /** Without a video artifact there is a moment at which the frames are reported no more. */
  lemma {:induction false} LostBetween(f: Formats, a: Moment, b: Moment, c: Moment, maxBytes: nat, front: seq<FileStep>,
                                       last: FileStep, r: Outcome, dir: string, session: Session,
                                       entries: seq<ChunkEntry>, audio: seq<ChunkEntry>, separate: bool)
    requires ReservesGone(f, a.disk) && OpenVideo(f, a.disk, dir)
    requires front == FrontPart(f, a.disk, dir, session, entries, audio, separate)
    requires Ran(a, maxBytes, front, Ok, b) && Ran(b, maxBytes, [last], r, c)
    requires VideoText(f, a.disk, dir, session, entries).None? && VideoJournal(dir) in a.disk ==>
               |a.trace| < |b.trace| && b.trace[|b.trace| - 1] == b.disk
    ensures JournalCounts(f, a.disk, dir).0 > 0 && (entries == [] || VideoBytes(a.disk, dir) == 0) ==>
              exists i :: |a.trace| <= i < |c.trace|
                && FinalCounts(f, c.trace[i], dir) == Some((0, JournalCounts(f, a.disk, dir).1))
  {
    hide ReservesGone, States, After, Seen, Performed, SameReports, MildPart, Fits, VideoBytes, ChunksAt, FinalCounts,
      SessionAt;
    if JournalCounts(f, a.disk, dir).0 > 0 && (entries == [] || VideoBytes(a.disk, dir) == 0) {
      var mild := MildPart(f, a.disk, dir, session, entries, audio, separate);
      JournalThere(f, a.disk, dir);
      RanMeans(a, maxBytes, front, Ok, b, States(a.disk, front));
      MildReports(f, a.disk, dir, session, entries, audio, separate);
      AfterMild(f, a.disk, dir, session, entries, audio, separate);
      Dropped(a.disk, mild, dir);
      DroppedReports(f, a.disk, After(a.disk, mild), dir);
      var i := |b.trace| - 1;
      assert c.trace[..|b.trace|][i] == c.trace[i];
      assert FinalCounts(f, c.trace[i], dir) == Some((0, JournalCounts(f, a.disk, dir).1));
    }
  }

  lemma {:induction false} JournalThere(f: Formats, d: Disk, dir: string)
    requires JournalCounts(f, d, dir).0 > 0
    ensures VideoJournal(dir) in d
  {
    EmptyHasNoLines();
  }
}
