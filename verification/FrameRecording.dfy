/** Image-sequence recordings: frames written before their journal lines, sessions finalized
    into a manifest, and what a crash at any point leaves to recover. */
module FrameRecording {
  import opened Common
  import opened SpoolFiles
  import opened FilePlans
  import opened Spool
  import opened Journal

  datatype FramePacket = FramePacket(
    data: string, capturedNs: int, frameId: string, mimeType: string, extension: string, sourceFormat: string)

  /** The journal's record of one frame; index and extension name its file. */
  datatype FrameEntry = FrameEntry(
    index: nat, extension: string, capturedNs: int, frameId: string, mimeType: string,
    sizeBytes: nat, sha256: string, sourceFormat: string)

  /** The journal's record of one encoded video frame or audio chunk. */
  datatype ChunkEntry = ChunkEntry(index: nat, capturedNs: int, frameId: string, sizeBytes: nat)

  datatype Backend = FrameSequence | FfmpegMp4

  /** Public session states; Failed is the source's ERROR. */
  datatype SessionState = Recording | Recovered | Finalized | Failed

  datatype Artifact = Artifact(kind: string, file: Path, sizeBytes: nat, capturedNs: int, finishedNs: int)

  datatype Session = Session(
    id: string, state: SessionState, backend: Backend, separateAudio: bool,
    startedNs: int, stoppedNs: int, frameCount: nat, audioChunkCount: nat, sizeBytes: nat,
    artifacts: seq<Artifact>, errorCode: string)

  const NO_FRAMES := "NO_FRAMES"

  /** The text formats: journal entries and sessions can be read back, manifests are only
      written here. */
  datatype Formats = Formats(
    frames: Codec<FrameEntry>, chunks: Codec<ChunkEntry>, sessions: Codec<Session>,
    manifest: (Session, seq<FrameEntry>) -> string, sidecar: (Session, seq<ChunkEntry>) -> string,
    digest: string -> string)

  ghost predicate GoodFormats(f: Formats) {
    Lawful(f.frames) && Lawful(f.chunks) && forall s :: f.sessions.decode(f.sessions.encode(s)) == Some(s)
  }

  // ---------------------------------------------------------------- reading a session back

  function JournalText(disk: Disk, p: Path): string {
    if p in disk then disk[p] else ""
  }

  function FrameOf(dir: string, e: FrameEntry): Path {
    FrameFile(dir, e.index, e.extension)
  }

  /** The journal entries whose frame file is there. */
  ghost function Present(entries: seq<FrameEntry>, disk: Disk, dir: string): seq<FrameEntry> {
    if entries == [] then []
    else
      var before := Present(entries[..|entries| - 1], disk, dir);
      if FrameOf(dir, entries[|entries| - 1]) in disk then before + [entries[|entries| - 1]] else before
  }

  ghost function Recoverable(f: Formats, disk: Disk, dir: string): seq<FrameEntry> {
    Present(Parsed(f.frames, Lines(JournalText(disk, FrameJournal(dir)))), disk, dir)
  }

  method ReadJournal(f: Formats, disk: Disk, dir: string) returns (entries: seq<FrameEntry>)
    requires Lawful(f.frames)
    ensures entries == Recoverable(f, disk, dir)
  {
    hide Lines;
    entries := [];
    if FrameJournal(dir) !in disk {
      EmptyHasNoLines();
      return;
    }
    var lines := Lines(disk[FrameJournal(dir)]);
    for i := 0 to |lines|
      invariant entries == Present(Parsed(f.frames, lines[..i]), disk, dir)
    {
      assert lines[..i + 1] == lines[..i] + [lines[i]];
      SnocParsed(f.frames, lines[..i], lines[i]);
      var decoded := f.frames.decode(lines[i]);
      if decoded.Some? {
        SnocPresent(Parsed(f.frames, lines[..i]), decoded.value, disk, dir);
        if FrameOf(dir, decoded.value) in disk {
          entries := entries + [decoded.value];
        }
      }
    }
    assert lines[..|lines|] == lines;
  }

  lemma {:induction false} SnocPresent(entries: seq<FrameEntry>, e: FrameEntry, disk: Disk, dir: string)
    ensures Present(entries + [e], disk, dir)
         == Present(entries, disk, dir) + (if FrameOf(dir, e) in disk then [e] else [])
  {
    assert (entries + [e])[..|entries|] == entries;
  }

  ghost predicate FramesThere(entries: seq<FrameEntry>, disk: Disk, dir: string) {
    forall i :: 0 <= i < |entries| ==> FrameOf(dir, entries[i]) in disk
  }

  lemma {:induction false} AllPresent(entries: seq<FrameEntry>, disk: Disk, dir: string)
    requires FramesThere(entries, disk, dir)
    ensures Present(entries, disk, dir) == entries
  {
    if entries != [] {
      var front := entries[..|entries| - 1];
      forall i | 0 <= i < |front| ensures FrameOf(dir, front[i]) in disk {
        assert front[i] == entries[i];
      }
      AllPresent(front, disk, dir);
    }
  }

  lemma {:induction false} SamePresent(entries: seq<FrameEntry>, disk: Disk, disk': Disk, dir: string)
    requires forall i :: 0 <= i < |entries| ==>
               (FrameOf(dir, entries[i]) in disk <==> FrameOf(dir, entries[i]) in disk')
    ensures Present(entries, disk, dir) == Present(entries, disk', dir)
  {
    if entries != [] {
      var front := entries[..|entries| - 1];
      forall i | 0 <= i < |front| ensures FrameOf(dir, front[i]) in disk <==> FrameOf(dir, front[i]) in disk' {
        assert front[i] == entries[i];
      }
      SamePresent(front, disk, disk', dir);
    }
  }

  /** Readers of a session look at its session file, its journal and its frames only. */
  ghost predicate SameEvidence(disk: Disk, disk': Disk, dir: string) {
    && (FrameJournal(dir) in disk <==> FrameJournal(dir) in disk')
    && (FrameJournal(dir) in disk ==> disk[FrameJournal(dir)] == disk'[FrameJournal(dir)])
    && (forall n: nat, x: string :: FrameFile(dir, n, x) in disk <==> FrameFile(dir, n, x) in disk')
  }

  lemma {:induction false} SameRecoverable(f: Formats, disk: Disk, disk': Disk, dir: string)
    requires SameEvidence(disk, disk', dir)
    ensures Recoverable(f, disk, dir) == Recoverable(f, disk', dir)
  {
    SamePresent(Parsed(f.frames, Lines(JournalText(disk, FrameJournal(dir)))), disk, disk', dir);
  }

  // ---------------------------------------------------------------- what an open recording keeps

  ghost predicate Described(f: Formats, disk: Disk, dir: string, entries: seq<FrameEntry>, i: nat)
    requires i < |entries|
  {
    && entries[i].index == i + 1
    && FrameOf(dir, entries[i]) in disk
    && |disk[FrameOf(dir, entries[i])]| == entries[i].sizeBytes
    && f.digest(disk[FrameOf(dir, entries[i])]) == entries[i].sha256
  }

  /** Indices count from one, every frame file is there with its recorded size and digest,
      and no other frame file is. */
  ghost predicate FramesMatch(f: Formats, disk: Disk, dir: string, entries: seq<FrameEntry>) {
    && (forall i {:trigger Described(f, disk, dir, entries, i)} :: 0 <= i < |entries| ==>
        Described(f, disk, dir, entries, i))
    && (forall n: nat, x: string :: FrameFile(dir, n, x) in disk ==>
          1 <= n <= |entries| && x == entries[n - 1].extension)
  }

  /** The journal holds the entries' lines, then the tail a failed append left. */
  ghost predicate Journaled(f: Formats, disk: Disk, dir: string, entries: seq<FrameEntry>, tail: string) {
    && JournalText(disk, FrameJournal(dir)) == Text(f.frames, entries) + tail
    && FramesMatch(f, disk, dir, entries)
  }

  /** A piece of a line, of an entry whose frame is not on the disk. */
  ghost predicate TornTail(f: Formats, disk: Disk, dir: string, tail: string) {
    exists e, k :: 0 <= k <= |Line(f.frames, e)| && tail == Line(f.frames, e)[..k]
      && (k > 0 ==> FrameOf(dir, e) !in disk)
  }

  /** A crash that left k bytes of e's line: the completed entries come back, and e with
      them exactly when its object is whole and its frame there. */
  lemma {:induction false} TornAppend(f: Formats, disk: Disk, dir: string, entries: seq<FrameEntry>, e: FrameEntry,
                                      k: nat)
    requires Lawful(f.frames) && k <= |Line(f.frames, e)| && FramesThere(entries, disk, dir)
    requires JournalText(disk, FrameJournal(dir)) == Text(f.frames, entries) + Line(f.frames, e)[..k]
    ensures Recoverable(f, disk, dir)
         == if k >= |f.frames.encode(e)| && FrameOf(dir, e) in disk then entries + [e] else entries
  {
    hide Lines, Line;
    TornJournal(f.frames, entries, e, k);
    AllPresent(entries, disk, dir);
    SnocPresent(entries, e, disk, dir);
  }

  /** What recovery finds while no append is under way: exactly the entries. */
  lemma {:induction false} RecoversEntries(f: Formats, disk: Disk, dir: string, entries: seq<FrameEntry>, tail: string)
    requires Lawful(f.frames) && Journaled(f, disk, dir, entries, tail) && TornTail(f, disk, dir, tail)
    ensures Recoverable(f, disk, dir) == entries
  {
    hide Lines, Line, Text, Parsed, Present;
    var e, k :| 0 <= k <= |Line(f.frames, e)| && tail == Line(f.frames, e)[..k] && (k > 0 ==> FrameOf(dir, e) !in disk);
    assert forall i {:trigger FrameOf(dir, entries[i])} :: 0 <= i < |entries| ==> Described(f, disk, dir, entries, i);
    TornAppend(f, disk, dir, entries, e, k);
    EncodesSomething(f.frames, e);
  }

  /** An append after one whose journal line was cut short: recovery loses its entry for
      good. It keeps the entry exactly when nothing of the earlier line, or all of it, had
      landed; and in the last case the earlier entry reappears under the same index if the
      two frames share a file name. */
  lemma {:induction false} AppendAfterFailedAppend(f: Formats, disk: Disk, dir: string, entries: seq<FrameEntry>,
                                                   d: FrameEntry, e: FrameEntry, k: nat)
    requires Lawful(f.frames) && Unmergeable(f.frames) && k <= |Line(f.frames, d)|
    requires FramesThere(entries + [e], disk, dir) && d.index == e.index
    requires d.extension != e.extension ==> FrameOf(dir, d) !in disk
    requires JournalText(disk, FrameJournal(dir))
             == Text(f.frames, entries) + Line(f.frames, d)[..k] + Line(f.frames, e)
    ensures Recoverable(f, disk, dir)
         == if k == 0 || (k == |Line(f.frames, d)| && d.extension != e.extension) then entries + [e]
            else if k < |Line(f.frames, d)| then entries
            else entries + [d, e]
  {
    hide Lines, Text, Parsed, Line, Present;
    AppendAfterTorn(f.frames, entries, d, e, k);
    PresentAround(entries, d, e, disk, dir);
  }

  lemma {:induction false} PresentAround(entries: seq<FrameEntry>, d: FrameEntry, e: FrameEntry, disk: Disk,
                                         dir: string)
    requires FramesThere(entries + [e], disk, dir) && d.index == e.index
    requires d.extension != e.extension ==> FrameOf(dir, d) !in disk
    ensures Present(entries, disk, dir) == entries && Present(entries + [e], disk, dir) == entries + [e]
    ensures Present(entries + [d, e], disk, dir)
         == if d.extension == e.extension then entries + [d, e] else entries + [e]
  {
    assert (entries + [e])[|entries|] == e;
    assert FramesThere(entries, disk, dir) by {
      assert forall i {:trigger entries[i]} :: 0 <= i < |entries| ==> entries[i] == (entries + [e])[i];
    }
    AllPresent(entries, disk, dir);
    SnocPresent(entries, e, disk, dir);
    SnocPresent(entries, d, disk, dir);
    SnocPresent(entries + [d], e, disk, dir);
    assert entries + [d] + [e] == entries + [d, e];
  }

  // ---------------------------------------------------------------- appending

  /** e's object is whole in the journal and its frame is on the disk. */
  ghost predicate Landed(f: Formats, disk: Disk, dir: string, entries: seq<FrameEntry>, e: FrameEntry) {
    && FrameOf(dir, e) in disk
    && |JournalText(disk, FrameJournal(dir))| >= |Text(f.frames, entries)| + |f.frames.encode(e)|
  }

  /** What a crash inside the append of e leaves. */
  ghost predicate AppendCrash(f: Formats, disk: Disk, dir: string, entries: seq<FrameEntry>, e: FrameEntry) {
    Recoverable(f, disk, dir) == if Landed(f, disk, dir, entries, e) then entries + [e] else entries
  }

  /** Crash states in which at most landed bytes of e's line are on the disk. */
  ghost function AppendCrashes(f: Formats, dir: string, entries: seq<FrameEntry>, e: FrameEntry,
                               landed: nat): iset<Disk> {
    iset t: Disk | AppendCrash(f, t, dir, entries, e)
      && |JournalText(t, FrameJournal(dir))| <= |Text(f.frames, entries)| + landed
  }

  lemma {:induction false} SeenAppendCrash(f: Formats, disk: Disk, dir: string, entries: seq<FrameEntry>, e: FrameEntry,
                                           landed: nat)
    requires disk in AppendCrashes(f, dir, entries, e, landed)
    ensures Seen(disk) <= AppendCrashes(f, dir, entries, e, landed)
  {
    hide Recoverable;
    forall t | t in Seen(disk) ensures t in AppendCrashes(f, dir, entries, e, landed) {
      SeenEvidence(disk, t, dir);
      SameRecoverable(f, disk, t, dir);
    }
  }

  lemma {:induction false} SeenEvidence(disk: Disk, t: Disk, dir: string)
    requires Live(t) == Live(disk)
    ensures SameEvidence(disk, t, dir)
    ensures JournalText(t, SessionFile(dir)) == JournalText(disk, SessionFile(dir))
    ensures SessionFile(dir) in t <==> SessionFile(dir) in disk
    ensures ReserveFile(dir) in t <==> ReserveFile(dir) in disk
    ensures JournalText(t, FrameJournal(dir)) == JournalText(disk, FrameJournal(dir))
  {
    forall p: Path | !p.Temp? ensures (p in t <==> p in disk) && (p in disk ==> t[p] == disk[p]) {
      assert p in Live(t) <==> p in t;
      assert p in Live(disk) <==> p in disk;
      assert p in disk ==> Live(t)[p] == t[p] && Live(disk)[p] == disk[p];
    }
  }

  /** A disk that differs from the one before the append by the frame and by a piece of the
      line. */
  lemma {:induction false} StageCrash(f: Formats, disk: Disk, t: Disk, dir: string, entries: seq<FrameEntry>,
                                      e: FrameEntry, k: nat, landed: nat)
    requires Lawful(f.frames) && Journaled(f, disk, dir, entries, "") && k <= landed <= |Line(f.frames, e)|
    requires JournalText(t, FrameJournal(dir)) == JournalText(disk, FrameJournal(dir)) + Line(f.frames, e)[..k]
    requires forall n: nat, x: string :: FrameFile(dir, n, x) in disk ==> FrameFile(dir, n, x) in t
    ensures t in AppendCrashes(f, dir, entries, e, landed)
  {
    hide Lines, Text, Recoverable, Line;
    assert FramesThere(entries, t, dir) by {
      assert forall i {:trigger FrameOf(dir, entries[i])} :: 0 <= i < |entries| ==> Described(f, disk, dir, entries, i);
    }
    assert Text(f.frames, entries) + "" == Text(f.frames, entries);
    TornAppend(f, t, dir, entries, e, k);
  }

  /** The journal grown by any piece of line. */
  ghost function Grown(disk: Disk, p: Path, line: string): iset<Disk> {
    iset t: Disk | GrownTo(disk, p, line, t)
  }

  ghost predicate GrownTo(disk: Disk, p: Path, line: string, t: Disk) {
    t == disk || exists k {:trigger line[..k]} :: 0 <= k <= |line| && t == disk[p := JournalText(disk, p) + line[..k]]
  }

  /** All disk states inside an append that landed that much of the line: before and after
      the frame was written, while the line grew, and after the frame was taken back. */
  lemma {:induction false} AppendStages(f: Formats, d0: Disk, d1: Disk, dir: string, entries: seq<FrameEntry>,
                                        e: FrameEntry, frame: FramePacket, landed: nat)
    requires Lawful(f.frames) && Journaled(f, d0, dir, entries, "") && landed <= |Line(f.frames, e)|
    requires e == NewEntry(f, |entries| + 1, frame)
    requires d1 == d0 || d1 == d0[FrameOf(dir, e) := frame.data]
    ensures Seen(d0) <= AppendCrashes(f, dir, entries, e, landed)
    ensures Seen(d1) <= AppendCrashes(f, dir, entries, e, landed)
    ensures Grown(d1, FrameJournal(dir), Line(f.frames, e)[..landed]) <= AppendCrashes(f, dir, entries, e, landed)
    ensures forall t :: t in Grown(d1, FrameJournal(dir), Line(f.frames, e)[..landed]) ==>
              t - {FrameOf(dir, e)} in AppendCrashes(f, dir, entries, e, landed)
  {
    hide Lines, Text, Recoverable, Line, AppendCrash, Described, Live;
    var line := Line(f.frames, e);
    assert line[..0] == "" && JournalText(d0, FrameJournal(dir)) + "" == JournalText(d0, FrameJournal(dir));
    StageCrash(f, d0, d0, dir, entries, e, 0, landed);
    StageCrash(f, d0, d1, dir, entries, e, 0, landed);
    SeenAppendCrash(f, d0, dir, entries, e, landed);
    SeenAppendCrash(f, d1, dir, entries, e, landed);
    forall t | t in Grown(d1, FrameJournal(dir), line[..landed])
      ensures t in AppendCrashes(f, dir, entries, e, landed)
      ensures t - {FrameOf(dir, e)} in AppendCrashes(f, dir, entries, e, landed)
    {
      var k: nat :| k <= landed && JournalText(t, FrameJournal(dir))
        == JournalText(d0, FrameJournal(dir)) + line[..k] by {
        if t == d1 {
          assert JournalText(t, FrameJournal(dir)) == JournalText(d0, FrameJournal(dir)) + line[..0];
        } else {
          var k :| 0 <= k <= |line[..landed]|
                   && t == d1[FrameJournal(dir) := JournalText(d1, FrameJournal(dir)) + line[..landed][..k]];
          assert line[..landed][..k] == line[..k];
        }
      }
      StageCrash(f, d0, t, dir, entries, e, k, landed);
      StageCrash(f, d0, t - {FrameOf(dir, e)}, dir, entries, e, k, landed);
    }
  }

  function NewEntry(f: Formats, index: nat, frame: FramePacket): FrameEntry {
    FrameEntry(index, frame.extension, frame.capturedNs, frame.frameId, frame.mimeType,
               |frame.data|, f.digest(frame.data), frame.sourceFormat)
  }

  /** The entry is the frame's, under that index. */
  ghost predicate Carries(f: Formats, e: FrameEntry, index: nat, frame: FramePacket) {
    && e.index == index && e.extension == frame.extension && e.sizeBytes == |frame.data|
       && e.sha256 == f.digest(frame.data)
    && e.capturedNs == frame.capturedNs && e.frameId == frame.frameId
    && e.mimeType == frame.mimeType && e.sourceFormat == frame.sourceFormat
  }

  lemma {:induction false} NewEntryCarries(f: Formats, index: nat, frame: FramePacket)
    ensures Carries(f, NewEntry(f, index, frame), index, frame)
  {
  }

  lemma {:induction false} FramesMatchNext(f: Formats, disk: Disk, t: Disk, dir: string, entries: seq<FrameEntry>,
                                           frame: FramePacket)
    requires FramesMatch(f, disk, dir, entries)
    requires var p := FrameFile(dir, |entries| + 1, frame.extension);
             && p in t && t[p] == frame.data
             && forall n: nat, x: string :: FrameFile(dir, n, x) != p ==>
                  (FrameFile(dir, n, x) in t <==> FrameFile(dir, n, x) in disk)
                  && (FrameFile(dir, n, x) in disk ==> t[FrameFile(dir, n, x)] == disk[FrameFile(dir, n, x)])
    ensures FramesMatch(f, t, dir, entries + [NewEntry(f, |entries| + 1, frame)])
  {
    var all := entries + [NewEntry(f, |entries| + 1, frame)];
    forall i | 0 <= i < |all| ensures Described(f, t, dir, all, i) {
      if i < |entries| {
        assert Described(f, disk, dir, entries, i);
        assert all[i] == entries[i];
      }
    }
  }

  lemma {:induction false} SameFrames(f: Formats, disk: Disk, t: Disk, dir: string, entries: seq<FrameEntry>)
    requires FramesMatch(f, disk, dir, entries)
    requires forall n: nat, x: string ::
               (FrameFile(dir, n, x) in t <==> FrameFile(dir, n, x) in disk)
               && (FrameFile(dir, n, x) in disk ==> t[FrameFile(dir, n, x)] == disk[FrameFile(dir, n, x)])
    ensures FramesMatch(f, t, dir, entries)
  {
    forall i | 0 <= i < |entries| ensures Described(f, t, dir, entries, i) {
      assert Described(f, disk, dir, entries, i);
    }
  }

  datatype AppendResult = Appended | Closed | BadExtension | AppendFailed(why: Outcome)

  /** A short extension such as .jpg: a dot, then one to ten letters or digits. */
  predicate ValidExtension(x: string) {
    2 <= |x| <= 11 && x[0] == '.' && forall i :: 1 <= i < |x| ==>
      'a' <= x[i] <= 'z' || 'A' <= x[i] <= 'Z' || '0' <= x[i] <= '9'
  }

  // The three disks an append can end with

  lemma {:induction false} AfterAppend(f: Formats, disk: Disk, dir: string, entries: seq<FrameEntry>,
                                       frame: FramePacket)
    requires Journaled(f, disk, dir, entries, "")
    ensures var e := NewEntry(f, |entries| + 1, frame);
            var j := FrameJournal(dir);
            Journaled(f, disk[FrameOf(dir, e) := frame.data][j := JournalText(disk, j) + Line(f.frames, e)], dir,
                      entries + [e], "")
  {
    hide Line, FramesMatch;
    var e := NewEntry(f, |entries| + 1, frame);
    var j := FrameJournal(dir);
    var t := disk[FrameOf(dir, e) := frame.data][j := JournalText(disk, j) + Line(f.frames, e)];
    FramesMatchNext(f, disk, t, dir, entries, frame);
    assert (entries + [e])[..|entries|] == entries;
    assert Text(f.frames, entries) + "" == Text(f.frames, entries);
    assert Text(f.frames, entries + [e]) + "" == Text(f.frames, entries + [e]);
  }

  lemma {:induction false} AfterFailedAppend(f: Formats, disk: Disk, t: Disk, dir: string, entries: seq<FrameEntry>,
                                             frame: FramePacket, landed: nat)
    requires Journaled(f, disk, dir, entries, "")
    requires landed <= |Line(f.frames, NewEntry(f, |entries| + 1, frame))|
    requires var tail := Line(f.frames, NewEntry(f, |entries| + 1, frame))[..landed];
             (landed == 0 && t == disk) || t == disk[FrameJournal(dir) := JournalText(disk, FrameJournal(dir)) + tail]
    ensures var tail := Line(f.frames, NewEntry(f, |entries| + 1, frame))[..landed];
            Journaled(f, t, dir, entries, tail) && TornTail(f, t, dir, tail)
  {
    hide Line, Text, Described;
    SameFrames(f, disk, t, dir, entries);
    assert Text(f.frames, entries) + "" == Text(f.frames, entries);
  }

  lemma {:induction false} BooksAfterAppend(disk: Disk, external: set<Path>, torn: map<Path, nat>, reserved: nat,
                                            used: int, p: Path, data: string, journal: Path, line: string)
    requires Accounted(disk, external, torn, reserved, used)
    requires p.FrameFile? && p !in disk && journal.FrameJournal?
    ensures Accounted(disk[p := data][journal := JournalText(disk, journal) + line], external, torn, reserved,
                      used + |data| + |line|)
  {
    hide Sum, Booked;
    BookedWrite(disk, external, torn, p, data);
    var d1 := disk[p := data];
    BookedAppend(d1, external, torn, journal, line, 0);
    if journal in torn {
      assert torn[journal := torn[journal] + 0] == torn;
    } else {
      var torn' := torn[journal := 0];
      var d2 := d1[journal := JournalText(disk, journal) + line];
      assert Booked(d2, external, torn) == Booked(d2, external, torn') by {
        BookedZero(d2, external, torn, journal);
      }
    }
  }

  lemma {:induction false} BookedZero(disk: Disk, external: set<Path>, torn: map<Path, nat>, journal: Path)
    requires TornFits(disk, torn[journal := 0]) && journal !in torn
    ensures TornFits(disk, torn) && Booked(disk, external, torn) == Booked(disk, external, torn[journal := 0])
  {
    assert forall p :: p in torn ==> p in torn[journal := 0] && torn[journal := 0][p] == torn[p];
  }

  lemma {:induction false} BooksAfterFailure(disk: Disk, external: set<Path>, torn: map<Path, nat>, reserved: nat,
                                             used: int, journal: Path, tail: string)
    requires Accounted(disk, external, torn, reserved, used) && journal.FrameJournal?
    ensures Accounted(disk[journal := JournalText(disk, journal) + tail], external,
                      torn[journal := (if journal in torn then torn[journal] else 0) + |tail|], reserved, used)
  {
    hide Sum, Booked;
    BookedAppend(disk, external, torn, journal, tail, |tail|);
  }

  /** The files after the file steps of an append that landed that piece of the line. */
  lemma {:induction false} ExtensionIsShortName(x: string)
    ensures ValidExtension(x) <==>
            exists name: string ::
              && x == "." + name && 1 <= |name| <= 10
              && forall i :: 0 <= i < |name| ==>
                   'a' <= name[i] <= 'z' || 'A' <= name[i] <= 'Z' || '0' <= name[i] <= '9'
  {
    if ValidExtension(x) {
      assert x == "." + x[1..];
    }
    if name: string :| x == "." + name && 1 <= |name| <= 10
                       && forall i :: 0 <= i < |name| ==>
                            'a' <= name[i] <= 'z' || 'A' <= name[i] <= 'Z' || '0' <= name[i] <= '9' {
      forall i | 1 <= i < |x| ensures x[i] == name[i - 1] {
      }
    }
  }

  ghost predicate Wrote(d0: Disk, d: Disk, dir: string, e: FrameEntry, data: string, piece: string, ok: bool) {
    var j := FrameJournal(dir);
    if ok then d == d0[FrameOf(dir, e) := data][j := JournalText(d0, j) + piece]
    else (piece == "" && d == d0) || d == d0[j := JournalText(d0, j) + piece]
  }

  lemma {:induction false} AddedTo(kept: seq<Disk>, a: seq<Disk>, b: seq<Disk>, u: iset<Disk>)
    requires Added(a, b, u)
    ensures |a| <= |b| && Added(kept, kept + b[|a|..], u)
  {
    assert (kept + b[|a|..])[..|kept|] == kept;
  }

  lemma {:induction false} RewriteNothing(disk: Disk, p: Path)
    ensures p in disk ==> disk[p := JournalText(disk, p) + ""] == disk
  {
    assert JournalText(disk, p) + "" == JournalText(disk, p);
  }

  lemma {:induction false} GrownHas(disk: Disk, p: Path, line: string)
    ensures disk in Grown(disk, p, line)
    ensures disk[p := JournalText(disk, p) + line] in Grown(disk, p, line)
  {
    assert line[..|line|] == line;
  }

  lemma {:induction false} AddedThen2(a: seq<Disk>, b: seq<Disk>, c: seq<Disk>,
                                      s0: iset<Disk>, s1: iset<Disk>, s2: iset<Disk>, u: iset<Disk>)
    requires Added(a, b, s0 + s1) && (c == b || Added(b, c, s2)) && s0 <= u && s1 <= u && s2 <= u
    ensures Added(a, c, u)
  {
    NothingAdded(b, s2);
    AddedThen(a, b, c, s0 + s1, s2, u);
  }

  lemma {:induction false} NextFrameIsNew(f: Formats, disk: Disk, dir: string, entries: seq<FrameEntry>,
                                          frame: FramePacket)
    requires Journaled(f, disk, dir, entries, "")
    ensures FrameOf(dir, NewEntry(f, |entries| + 1, frame)) !in disk
  {
    hide Text, Described;
  }

  lemma {:induction false} TakenBack(d0: Disk, d1: Disk, d2: Disk, p: Path, data: string, journal: Path, tail: string)
    requires p !in d0 && p.FrameFile? && journal.FrameJournal?
    requires d1 == d0 || d1 == d0[p := data]
    requires (d2 == d1 && tail == "") || d2 == d1[journal := JournalText(d1, journal) + tail]
    ensures (d2 - {p} == d0 && tail == "") || d2 - {p} == d0[journal := JournalText(d0, journal) + tail]
  {
    assert d1 - {p} == d0;
    assert JournalText(d1, journal) == JournalText(d0, journal);
    if d2 != d1 || tail != "" {
      assert d2 - {p} == d0[journal := JournalText(d0, journal) + tail];
    }
  }

  ghost predicate CrashesWithin(f: Formats, dir: string, crashes: seq<Disk>, all: seq<FrameEntry>) {
    forall i :: 0 <= i < |crashes| ==> Recoverable(f, crashes[i], dir) <= all
  }

  lemma {:induction false} MoreCrashes(f: Formats, dir: string, before: seq<Disk>, after: seq<Disk>,
                                       entries: seq<FrameEntry>, e: FrameEntry, landed: nat, all: seq<FrameEntry>)
    requires Lawful(f.frames) && CrashesWithin(f, dir, before, entries)
    requires Added(before, after, AppendCrashes(f, dir, entries, e, landed))
    requires all == entries + [e] || (landed == 0 && all == entries)
    ensures CrashesWithin(f, dir, after, all) && |before| <= |after| && after[..|before|] == before
    ensures forall i :: |before| <= i < |after| ==> AppendCrash(f, after[i], dir, entries, e)
  {
    hide Recoverable, Text;
    EncodesSomething(f.frames, e);
    forall i | 0 <= i < |after| ensures Recoverable(f, after[i], dir) <= all {
      if i < |before| {
        assert after[i] == before[i] by {
          assert after[i] == after[..|before|][i];
        }
      } else {
        assert after[i] in AppendCrashes(f, dir, entries, e, landed);
      }
    }
  }

  lemma {:induction false} LineNonempty(c: Codec<FrameEntry>, e: FrameEntry)
    ensures |Line(c, e)| > 0
  {
  }

  lemma {:induction false} NoTail(f: Formats, disk: Disk, dir: string)
    ensures TornTail(f, disk, dir, "")
  {
    var e := FrameEntry(1, "", 0, "", "", 0, "", "");
    assert "" == Line(f.frames, e)[..0];
  }

  class RecordingBundle {
    const f: Formats
    const store: SpoolStore
    const dir: string
    var entries: seq<FrameEntry>
    var closed: bool
    /** Journal bytes left by a failed append, and the entry they belong to. */
    ghost var tail: string
    ghost var pending: seq<FrameEntry>
    /** Every disk state the appends of this bundle have gone through. */
    ghost var crashes: seq<Disk>

    ghost predicate Valid()
      reads this, store
    {
      && store.Valid() && Lawful(f.frames)
      && Journaled(f, store.disk, dir, entries, tail)
      && TornTail(f, store.disk, dir, tail)
      && (tail == "" ==> pending == [])
      && CrashesWithin(f, dir, crashes, entries + pending)
    }

    constructor (f: Formats, store: SpoolStore, dir: string)
      requires store.Valid() && Lawful(f.frames)
      requires FrameJournal(dir) !in store.disk && forall n: nat, x: string :: FrameFile(dir, n, x) !in store.disk
      ensures Valid() && entries == [] && !closed && tail == ""
      ensures this.f == f && this.store == store && this.dir == dir
    {
      this.f, this.store, this.dir := f, store, dir;
      entries, closed, tail, pending, crashes := [], false, "", [], [];
      new;
      NoTail(f, store.disk, dir);
    }

    /** Open for appending, write, flush, fsync: any of them may fail, and a crash may cut
        the write anywhere. */
    method AppendLine(line: string) returns (ok: bool, landed: nat)
      requires TempsBelow(store.disk, store.nextToken)
      modifies store`disk, store`trace, store`faults
      ensures TempsBelow(store.disk, store.nextToken)
      ensures landed <= |line| && (ok ==> landed == |line|)
      ensures if ok then store.faults >= old(store.faults) else store.faults > old(store.faults)
      ensures (!ok && landed == 0 && store.disk == old(store.disk))
           || store.disk == old(store.disk)[FrameJournal(dir) :=
                                            JournalText(old(store.disk), FrameJournal(dir)) + line[..landed]]
      ensures Added(old(store.trace), store.trace, Grown(old(store.disk), FrameJournal(dir), line[..landed]))
    {
      var journal := FrameJournal(dir);
      ok, landed := *, 0;
      if !ok {
        store.faults := store.faults + 1;
        return;
      }
      ghost var d0 := store.disk;
      var text := JournalText(store.disk, journal);
      landed :| 0 <= landed <= |line|;
      var cut :| 0 <= cut <= landed;
      store.disk := store.disk[journal := text + line[..cut]];
      assert line[..cut] == line[..landed][..cut];
      store.Record();
      store.disk := store.disk[journal := text + line[..landed]];
      assert line[..landed] == line[..landed][..landed];
      assert store.disk == d0[journal := text + line[..landed]];
      store.Record();
      ok := *;
      ok := ok && landed == |line|;
      if !ok {
        store.faults := store.faults + 1;
      }
    }

    /** The file steps of an append, taken back as far as they can be when one fails. */
    method WriteFrameAndLine(frame: FramePacket, entry: FrameEntry, line: string) returns (ok: bool, landed: nat)
      requires Lawful(f.frames) && Journaled(f, store.disk, dir, entries, "")
      requires entry == NewEntry(f, |entries| + 1, frame) && line == Line(f.frames, entry)
      requires TempsBelow(store.disk, store.nextToken)
      modifies store`disk, store`nextToken, store`trace, store`faults, `crashes
      ensures TempsBelow(store.disk, store.nextToken) && landed <= |line| && (ok ==> landed == |line|)
      ensures if ok then store.faults >= old(store.faults) else store.faults > old(store.faults)
      ensures Wrote(old(store.disk), store.disk, dir, entry, frame.data, line[..landed], ok)
      ensures Added(old(crashes), crashes, AppendCrashes(f, dir, entries, entry, landed))
    {
      hide Lines, Line, Text, Parsed, Present, Recoverable, Live, Described, FramesMatch, Journaled;
      hide Added, Seen, Grown, GrownTo, TempsBelow, AppendCrash, AppendCrashes, NewEntry;
      ghost var d0, t0 := store.disk, store.trace;
      var framePath := FrameOf(dir, entry);
      NextFrameIsNew(f, d0, dir, entries, frame);
      ok := store.AtomicWriteUntracked(framePath, frame.data);
      landed := 0;
      assert line[..0] == "";
      ghost var d1, t1 := store.disk, store.trace;
      if ok {
        ok, landed := AppendLine(line);
      }
      ghost var d2, t2 := store.disk, store.trace;
      AppendStages(f, d0, d1, dir, entries, entry, frame, landed);
      ghost var good := AppendCrashes(f, dir, entries, entry, landed);
      AddedThen2(t0, t1, t2, Seen(d0), Seen(d1), Grown(d1, FrameJournal(dir), line[..landed]), good);
      if !ok {
        GrownHas(d1, FrameJournal(dir), line[..landed]);
        TakenBack(d0, d1, d2, framePath, frame.data, FrameJournal(dir), line[..landed]);
        FewerTemps(d2, d2 - {framePath}, store.nextToken);
        store.disk := store.disk - {framePath};
        store.Record();
        AddedOne(t0, t2, d2 - {framePath}, good);
      }
      AddedTo(crashes, t0, store.trace, good);
      crashes := crashes + store.trace[|t0|..];
    }

    /** The whole reservation goes back although a piece of the line stayed. */
    method GiveBack(ghost d0: Disk, byteCount: nat, ghost piece: string)
      requires Accounted(d0, store.external, store.torn, store.reserved, store.usedBytes - byteCount)
      requires (piece == "" && store.disk == d0)
            || store.disk == d0[FrameJournal(dir) := JournalText(d0, FrameJournal(dir)) + piece]
      modifies store`usedBytes, store`torn
      ensures Accounted(store.disk, store.external, store.torn, store.reserved, store.usedBytes)
      ensures store.usedBytes == old(store.usedBytes) - byteCount
      ensures Sum(store.torn) == Sum(old(store.torn)) + |piece|
    {
      hide Sum, Booked;
      store.Release(byteCount);
      RewriteNothing(d0, FrameJournal(dir));
      BooksAfterFailure(d0, store.external, store.torn, store.reserved, store.usedBytes, FrameJournal(dir), piece);
      if FrameJournal(dir) in store.disk {
        ghost var lost := if FrameJournal(dir) in store.torn then store.torn[FrameJournal(dir)] else 0;
        SumWith(store.torn, FrameJournal(dir), lost + |piece|);
        store.torn := store.torn[FrameJournal(dir) := lost + |piece|];
      }
    }

    /** What follows the reservation of an append's bytes. */
    method Persist(frame: FramePacket, entry: FrameEntry, line: string) returns (ok: bool)
      requires Lawful(f.frames) && Journaled(f, store.disk, dir, entries, "") && tail == "" && pending == []
      requires CrashesWithin(f, dir, crashes, entries)
      requires entry == NewEntry(f, |entries| + 1, frame) && line == Line(f.frames, entry)
      requires TempsBelow(store.disk, store.nextToken)
      requires Accounted(store.disk, store.external, store.torn, store.reserved,
                         store.usedBytes - |frame.data| - |line|)
      modifies `entries, `tail, `pending, `crashes
      modifies store`disk, store`usedBytes, store`nextToken, store`torn, store`trace, store`faults
      ensures Valid()
      ensures if ok then store.faults >= old(store.faults) else store.faults > old(store.faults)
      ensures entries == old(entries) + (if ok then [entry] else []) && (ok ==> tail == "")
      ensures store.usedBytes == old(store.usedBytes) - if ok then 0 else |frame.data| + |line|
      ensures Wrote(old(store.disk), store.disk, dir, entry, frame.data, if ok then line else tail, ok)
      ensures Sum(store.torn) == Sum(old(store.torn)) + |tail|
      ensures |old(crashes)| <= |crashes| && crashes[..|old(crashes)|] == old(crashes)
      ensures forall i :: |old(crashes)| <= i < |crashes| ==> AppendCrash(f, crashes[i], dir, old(entries), entry)
    {
      hide Lines, Line, Text, Parsed, Present, Recoverable, Sum, Booked, Live, Described, FramesMatch, CrashesWithin;
      hide Added, Seen, Grown, GrownTo, TempsBelow, TornFits, Accounted, AppendCrash, TornTail, NewEntry, Journaled;
      ghost var d0, used, before := store.disk, store.usedBytes - |frame.data| - |line|, crashes;
      var landed;
      ok, landed := WriteFrameAndLine(frame, entry, line);
      assert entries + [] == entries;
      MoreCrashes(f, dir, before, crashes, entries, entry, landed, if landed == 0 then entries else entries + [entry]);
      if ok {
        assert line[..landed] == line;
        NextFrameIsNew(f, d0, dir, entries, frame);
        BooksAfterAppend(d0, store.external, store.torn, store.reserved, used, FrameOf(dir, entry), frame.data,
                         FrameJournal(dir), line);
        AfterAppend(f, d0, dir, entries, frame);
        NoTail(f, store.disk, dir);
        LineNonempty(f.frames, entry);
        entries := entries + [entry];
        assert entries + pending == entries;
      } else {
        GiveBack(d0, |frame.data| + |line|, line[..landed]);
        AfterFailedAppend(f, d0, store.disk, dir, entries, frame, landed);
        tail := line[..landed];
        assert |tail| == landed;
        pending := if landed == 0 then [] else [entry];
      }
    }

    /** Frame first, journal line second. The recording worker stops at the first failed
        append (runtime.py:259-262), so none follows one that left journal bytes. */
    method Append(frame: FramePacket) returns (r: AppendResult)
      requires Valid() && tail == ""
      modifies this, store
      ensures WithinQuota(old(store.usedBytes), store.maxBytes) ==> WithinQuota(store.usedBytes, store.maxBytes)
      ensures Valid()
      ensures closed == old(closed) && (r == Closed <==> closed)
              && (r == BadExtension <==> !closed && !ValidExtension(frame.extension))
      ensures r == AppendFailed(QuotaFull) <==>
                && !closed && ValidExtension(frame.extension) && store.maxBytes > 0
                && old(store.usedBytes) + |frame.data|
                   + |Line(f.frames, NewEntry(f, |old(entries)| + 1, frame))| > store.maxBytes
      ensures r.AppendFailed? ==>
                r.why != Ok && Excused(r.why, store.maxBytes, store.minFreeBytes, old(store.faults), store.faults)
      ensures entries == old(entries) + if r == Appended then [NewEntry(f, |old(entries)| + 1, frame)] else []
      ensures r == Appended ==> tail == "" && Carries(f, entries[|old(entries)|], |entries|, frame)
      ensures r == Appended ==>
                store.usedBytes == old(store.usedBytes) + |frame.data| + |Line(f.frames, entries[|old(entries)|])|
      ensures r != Appended ==> store.usedBytes == old(store.usedBytes)
      ensures Sum(store.torn) == Sum(old(store.torn)) + |tail|
      ensures if r == Appended || r == AppendFailed(IoFailed) then
                var entry := NewEntry(f, |old(entries)| + 1, frame);
                Wrote(old(store.disk), store.disk, dir, entry, frame.data, if r == Appended then Line(f.frames, entry)
                      else tail, r == Appended)
              else store.disk == old(store.disk) && tail == ""
      ensures |old(crashes)| <= |crashes| && crashes[..|old(crashes)|] == old(crashes)
      ensures forall i :: |old(crashes)| <= i < |crashes| ==>
                AppendCrash(f, crashes[i], dir, old(entries), NewEntry(f, |old(entries)| + 1, frame))
    {
      hide Lines, Line, Text, Parsed, Present, Recoverable, Sum, Booked, Live, Described, FramesMatch;
      hide Added, Seen, Grown, GrownTo, TempsBelow, TornFits, Accounted, AppendCrash, TornTail, NewEntry, Journaled,
        Wrote, CrashesWithin;
      if closed {
        return Closed;
      }
      if !ValidExtension(frame.extension) {
        return BadExtension;
      }
      var entry := NewEntry(f, |entries| + 1, frame);
      NewEntryCarries(f, |entries| + 1, frame);
      var line := Line(f.frames, entry);
      LineNonempty(f.frames, entry);
      var reserved := store.Reserve(|frame.data| + |line|);
      if reserved != Ok {
        return AppendFailed(reserved);
      }
      assert entries + pending == entries;
      var ok := Persist(frame, entry, line);
      r := if ok then Appended else AppendFailed(IoFailed);
    }
  }
}
