/** An external encoder's share of the spool: how its reservation is split, and how the books
    are settled when it ends. */
module EncodedRecording {
  import opened Common
  import opened SpoolFiles
  import opened FilePlans
  import opened Spool
  import opened Journal
  import opened FrameRecording
  import opened Finalization
  import opened VideoFinalization

  const MIB: nat := 1024 * 1024
  const MIN_NON_VIDEO_HEADROOM_BYTES: nat := 16 * MIB
  const JOURNAL_MARGIN_BYTES: nat := 4 * MIB

  // ---------------------------------------------------------------- splitting the reservation

  function Headroom(allocation: nat, separate: bool): nat {
    Max(MIN_NON_VIDEO_HEADROOM_BYTES, allocation / if separate then 5 else 20)
  }

  function VideoLimit(allocation: nat, separate: bool): nat {
    Max(1, allocation - Headroom(allocation, separate))
  }

  function AudioLimit(allocation: nat, separate: bool): nat {
    Max(1, Headroom(allocation, separate) - JOURNAL_MARGIN_BYTES)
  }

  /** Above sixteen mebibytes, and only there, the two limits leave exactly four mebibytes
      for the journals. */
  lemma {:induction false} LimitsSum(allocation: nat, separate: bool)
    ensures allocation > MIN_NON_VIDEO_HEADROOM_BYTES <==>
            VideoLimit(allocation, separate) + AudioLimit(allocation, separate) == allocation - JOURNAL_MARGIN_BYTES
  {
  }

  /** What the video may not use is sixteen mebibytes, or the twentieth part of the reservation,
      the fifth with a separate audio file, whichever is more; the audio may use that much
      without the journals' four mebibytes. */
  lemma {:induction false} LimitsShare(allocation: nat, separate: bool)
    requires allocation > 16 * MIB
    ensures var rest, part := allocation - VideoLimit(allocation, separate), if separate then 5 else 20;
            && rest >= 16 * MIB && rest * part > allocation - part
            && (rest == 16 * MIB || rest * part <= allocation)
            && AudioLimit(allocation, separate) == rest - 4 * MIB
  {
  }

  /** They fit in the reservation exactly from twelve mebibytes and one byte on; the store
      grants as little as eight. */
  lemma {:induction false} LimitsFit(allocation: nat, separate: bool)
    ensures VideoLimit(allocation, separate) + AudioLimit(allocation, separate) <= allocation
       <==> allocation >= 12 * MIB + 1
    ensures MIN_EXTERNAL_RECORDING_BYTES < 12 * MIB + 1
  {
  }

  /** An encoder that keeps its limits and journals no more than the margin never exceeds a
      reservation above sixteen mebibytes, so its commit keeps the quota. */
  lemma {:induction false} EncoderStaysWithin(disk: Disk, dir: string, allocation: nat, separate: bool, used: int,
                                              maxBytes: nat)
    requires allocation > MIN_NON_VIDEO_HEADROOM_BYTES && allocation <= used && WithinQuota(used, maxBytes)
    requires Size(disk, VideoPart(dir)) <= VideoLimit(allocation, separate)
    requires Size(disk, AudioPart(dir)) <= AudioLimit(allocation, separate)
    requires Size(disk, VideoJournal(dir)) + Size(disk, AudioJournal(dir)) <= JOURNAL_MARGIN_BYTES
    ensures EncoderBytes(disk, dir) <= allocation
    ensures WithinQuota(CommittedUse(used, allocation, EncoderBytes(disk, dir)), maxBytes)
  {
    LimitsSum(allocation, separate);
  }

  // ---------------------------------------------------------------- the journals

  /** An append that failed: the entry it was for, and how many bytes of its line stayed. */
  datatype Torn = Torn(entry: ChunkEntry, landed: nat)

  ghost function TornText(f: Formats, torn: Option<Torn>): string {
    match torn
    case None => ""
    case Some(t) => Line(f.chunks, t.entry)[..Min(t.landed, |Line(f.chunks, t.entry)|)]
  }

  /** Its object is whole in the journal although the encoder's list does not have it. */
  ghost predicate ObjectLanded(f: Formats, torn: Option<Torn>) {
    torn.Some? && torn.value.landed >= |f.chunks.encode(torn.value.entry)|
  }

  ghost predicate Journaling(f: Formats, disk: Disk, p: Path, entries: seq<ChunkEntry>, torn: Option<Torn>) {
    JournalText(disk, p) == Text(f.chunks, entries) + TornText(f, torn)
  }

  /** Recovery reads the entries, and one more exactly when its object landed whole. */
  lemma {:induction false} JournalReads(f: Formats, disk: Disk, p: Path, entries: seq<ChunkEntry>, torn: Option<Torn>)
    requires Lawful(f.chunks) && Journaling(f, disk, p, entries, torn)
    ensures ChunksAt(f, disk, p) == if ObjectLanded(f, torn) then entries + [torn.value.entry] else entries
  {
    hide Lines, Parsed, Text;
    match torn
    case None =>
      assert Text(f.chunks, entries) + "" == Text(f.chunks, entries);
      LinesOfText(f.chunks, entries);
    case Some(t) =>
      TornJournal(f.chunks, entries, t.entry, Min(t.landed, |Line(f.chunks, t.entry)|));
  }

  /** A crash while a line is being appended: the entries read back are those of before, and
      the new one with them exactly when its object landed whole. */
  lemma {:induction false} CrashedChunkReads(f: Formats, d: Disk, p: Path, entries: seq<ChunkEntry>, e: ChunkEntry,
                                             t: Disk)
    requires Lawful(f.chunks) && JournalText(d, p) == Text(f.chunks, entries) && t in Grown(d, p, Line(f.chunks, e))
    ensures ChunksAt(f, t, p)
         == if |JournalText(t, p)| >= |Text(f.chunks, entries)| + |f.chunks.encode(e)| then entries + [e] else entries
  {
    hide Lines, Parsed, Text, Line;
    var line := Line(f.chunks, e);
    if t == d {
      assert JournalText(t, p) == Text(f.chunks, entries) + line[..0];
      TornJournal(f.chunks, entries, e, 0);
      EncodesSomething(f.chunks, e);
    } else {
      var k :| 0 <= k <= |line| && t == d[p := JournalText(d, p) + line[..k]];
      TornJournal(f.chunks, entries, e, k);
    }
  }

  // ---------------------------------------------------------------- the bundle

  class FFmpegMp4Bundle {
    const f: Formats
    const store: SpoolStore
    const dir: string
    const separate: bool
    var allocationBytes: nat
    var entries: seq<ChunkEntry>
    var audioEntries: seq<ChunkEntry>
    var closed: bool
    /** The appends that failed and what they left in the two journals. */
    ghost var videoTorn: Option<Torn>
    ghost var audioTorn: Option<Torn>

    /** Until the books are settled the encoder's files are covered by the reservation. */
    ghost predicate Open()
      reads this, store
    {
      && store.Valid() && !closed && allocationBytes <= store.reserved && EncoderFiles(dir) <= store.external
      && Lawful(f.chunks)
      && Journaling(f, store.disk, VideoJournal(dir), entries, videoTorn)
      && Journaling(f, store.disk, AudioJournal(dir), audioEntries, audioTorn)
    }

    constructor (f: Formats, store: SpoolStore, dir: string, separate: bool, allocationBytes: nat)
      requires store.Valid() && allocationBytes <= store.reserved && EncoderFiles(dir) <= store.external
      requires Lawful(f.chunks) && VideoJournal(dir) !in store.disk && AudioJournal(dir) !in store.disk
      ensures Open() && this.allocationBytes == allocationBytes && entries == [] && audioEntries == []
      ensures videoTorn == None && audioTorn == None
      ensures this.f == f && this.store == store && this.dir == dir && this.separate == separate
    {
      this.f, this.store, this.dir, this.separate, this.allocationBytes := f, store, dir, separate, allocationBytes;
      entries, audioEntries, closed, videoTorn, audioTorn := [], [], false, None, None;
    }

    /** Open for appending, write, flush, fsync: any of them may fail, and a crash may cut the
        write anywhere. */
    method AppendLine(p: Path, line: string) returns (ok: bool, landed: nat)
      requires store.Valid() && p in store.external
      modifies store`disk, store`trace, store`faults
      ensures store.Valid() && landed <= |line| && (ok ==> landed == |line|)
      ensures if ok then store.faults == old(store.faults) else store.faults > old(store.faults)
      ensures (landed == 0 && store.disk == old(store.disk))
           || store.disk == old(store.disk)[p := JournalText(old(store.disk), p) + line[..landed]]
      ensures Added(old(store.trace), store.trace, Grown(old(store.disk), p, line))
    {
      hide Sum, Booked, TempsBelow, Accounted;
      ghost var d0, t0 := store.disk, store.trace;
      ok, landed := *, 0;
      NothingAdded(t0, Grown(d0, p, line));
      if !ok {
        store.faults := store.faults + 1;
        return;
      }
      var text := JournalText(store.disk, p);
      landed :| 0 <= landed <= |line|;
      var cut :| 0 <= cut <= landed;
      store.EncoderWrites(p, text + line[..cut]);
      store.EncoderWrites(p, text + line[..landed]);
      assert store.disk == d0[p := text + line[..landed]];
      ok := *;
      ok := ok && landed == |line|;
      if !ok {
        store.faults := store.faults + 1;
      }
    }

    /** The journal line of a frame the encoder took, or of an audio chunk. The list grows only
        once the line is safely written. The recording worker ends at its first failed append,
        and so does the audio writer (runtime.py:259-263, ffmpeg_backend.py:513-514). */
    method AppendEntry(entry: ChunkEntry, isAudio: bool) returns (ok: bool)
      requires Open() && (if isAudio then audioTorn else videoTorn) == None
      modifies `entries, `audioEntries, `videoTorn, `audioTorn, store`disk, store`trace, store`faults
      ensures Open()
      ensures entries == old(entries) + (if ok && !isAudio then [entry] else [])
      ensures audioEntries == old(audioEntries) + if ok && isAudio then [entry] else []
      ensures if ok then store.faults == old(store.faults) else store.faults > old(store.faults)
      ensures isAudio ==>
                && videoTorn == old(videoTorn)
                && (if ok then audioTorn == None else audioTorn.Some? && audioTorn.value.entry == entry)
      ensures !isAudio ==>
                && audioTorn == old(audioTorn)
                && (if ok then videoTorn == None else videoTorn.Some? && videoTorn.value.entry == entry)
      ensures var p := if isAudio then AudioJournal(dir) else VideoJournal(dir);
              && Added(old(store.trace), store.trace, Grown(old(store.disk), p, Line(f.chunks, entry)))
              && forall q :: q != p ==> SameFile(old(store.disk), store.disk, q)
    {
      hide Sum, Booked, TempsBelow, Accounted, Text, Line, Added, Grown, Lawful;
      var p := if isAudio then AudioJournal(dir) else VideoJournal(dir);
      ghost var d0 := store.disk;
      var line := Line(f.chunks, entry);
      var landed;
      ok, landed := AppendLine(p, line);
      ghost var torn := Some(Torn(entry, landed));
      if isAudio {
        LineAdded(f, d0, store.disk, p, audioEntries, entry, landed, ok);
        if ok {
          audioEntries := audioEntries + [entry];
        } else {
          audioTorn := torn;
        }
      } else {
        LineAdded(f, d0, store.disk, p, entries, entry, landed, ok);
        if ok {
          entries := entries + [entry];
        } else {
          videoTorn := torn;
        }
      }
    }

    /** Commit what was written, or give the whole reservation back; a commit over quota
        raises after the books have moved, before anything is finalized. */
    method Settle() returns (r: Outcome)
      requires Open()
      modifies `allocationBytes, store`usedBytes, store`reserved, store`external
      ensures store.Valid() && HandedOver(store, dir) && allocationBytes == 0
      ensures store.reserved == old(store.reserved) - old(allocationBytes)
      ensures store.usedBytes == old(store.usedBytes) - old(allocationBytes) + EncoderBytes(store.disk, dir)
      ensures EncoderBytes(store.disk, dir) <= old(allocationBytes)
              && WithinQuota(old(store.usedBytes), store.maxBytes) ==>
                r == Ok && WithinQuota(store.usedBytes, store.maxBytes)
      ensures r == if EncoderBytes(store.disk, dir) > 0 && !WithinQuota(store.usedBytes, store.maxBytes) then QuotaFull
              else Ok
    {
      hide Sum, Booked, TempsBelow, TornFits;
      var actualBytes := EncoderBytes(store.disk, dir);
      var reservedBytes := allocationBytes;
      allocationBytes := 0;
      if actualBytes > 0 {
        r := store.CommitExternalRecording(reservedBytes, actualBytes, dir);
      } else {
        store.ReleaseExternalRecording(reservedBytes, dir);
        r := Ok;
      }
    }

    /** Whatever earlier appends left, every other session keeps its report, and this one
        reports at each crash point what its journals hold, that without frames, or what was
        taken. A completed finalization keeps the report at every crash point if and only if
        no failed append left a whole object and there is media for the frames. */
    method Finalize(session: Session, now: int) returns (r: Outcome, final: Session)
      requires closed || (Open() && GoodFormats(f) && ReservesGone(f, store.disk) && OpenVideo(f, store.disk, dir))
      requires !session.state.Recording? && session.backend.FfmpegMp4?
      modifies this, store
      ensures old(closed) ==>
                r == Ok && final == session && store.disk == old(store.disk) && store.usedBytes == old(store.usedBytes)
      ensures !old(closed) ==> store.Valid() && store.reserved == old(store.reserved) - old(allocationBytes)
      ensures !old(closed) ==> (closed <==> r == Ok)
      ensures Excused(r, store.maxBytes, store.minFreeBytes, old(store.faults), store.faults)
      ensures !old(closed) && EncoderBytes(old(store.disk), dir) <= old(allocationBytes) ==>
                (WithinQuota(old(store.usedBytes), store.maxBytes) ==> WithinQuota(store.usedBytes, store.maxBytes))
      ensures !old(closed) ==>
                var all := PassingCounts(f, old(store.disk), dir, old(entries), old(audioEntries));
                && Added(old(store.trace), store.trace, Recounts(f, old(store.disk), dir, all))
                && JournalCounts(f, old(store.disk), dir)
                   == (|old(entries)| + (if ObjectLanded(f, old(videoTorn)) then 1 else 0),
                       |old(audioEntries)| + (if ObjectLanded(f, old(audioTorn)) then 1 else 0))
      ensures !old(closed) && Faithful(f, old(store.disk), dir, old(entries), old(videoTorn), old(audioTorn)) ==>
                Added(old(store.trace), store.trace, Resumable(f, old(store.disk)))
                  && SameReports(f, old(store.disk), store.disk)
      ensures !old(closed) && r == Ok ==>
                && SessionAt(f, store.disk, dir) == Some(final)
                && ReportsOneOf(f, old(store.disk), store.disk, dir, {(|old(entries)|, |old(audioEntries)|)})
                && (SameReports(f, old(store.disk), store.disk) <==>
                    !ObjectLanded(f, old(videoTorn)) && !ObjectLanded(f, old(audioTorn)))
                && (Added(old(store.trace), store.trace, Resumable(f, old(store.disk)))
                    && SameReports(f, old(store.disk), store.disk)
                    <==> Faithful(f, old(store.disk), dir, old(entries), old(videoTorn), old(audioTorn)))
      ensures !old(closed) && r == QuotaFull ==>
                var settled := old(store.usedBytes) - old(allocationBytes) + EncoderBytes(old(store.disk), dir);
                || !WithinQuota(settled, store.maxBytes)
                || !Fits(old(store.disk), settled, store.maxBytes,
                         VideoPlan(f, old(store.disk), dir, session, old(entries), old(audioEntries), separate, now))
    {
      hide SameReports, Added, Resumable, ReservesGone, SessionAt, ConcludesVideo, FinalCounts, OpenVideo, Recounts,
        ReportsOneOf, PassingCounts;
      hide Sum, Booked, TempsBelow, TornFits, Accounted, GoodFormats, ChunksAt, VideoBytes, AudioBytes, Ran, Fits,
        VideoPlan, Filed;
      hide Journaling, ObjectLanded;
      if closed {
        return Ok, session;
      }
      ghost var d0 := store.disk;
      JournalsCount(f, d0, dir, entries, videoTorn, audioEntries, audioTorn);
      NothingAdded(store.trace, Recounts(f, d0, dir, PassingCounts(f, d0, dir, entries, audioEntries)));
      NothingAdded(store.trace, Resumable(f, d0));
      ReportsSelf(f, d0);
      final := session;
      r := Settle();
      if r != Ok {
        return;
      }
      r, final := FinalizeVideoRecording(store, f, dir, session, entries, audioEntries, separate, now);
      closed := r == Ok;
    }
  }

  /** No failed append left a whole object, and there is media for the frames. */
  ghost predicate Faithful(f: Formats, d: Disk, dir: string, entries: seq<ChunkEntry>, videoTorn: Option<Torn>,
                           audioTorn: Option<Torn>) {
    !ObjectLanded(f, videoTorn) && !ObjectLanded(f, audioTorn) && (entries == [] || VideoBytes(d, dir) > 0)
  }

  lemma {:induction false} JournalsCount(f: Formats, d: Disk, dir: string, entries: seq<ChunkEntry>,
                                         videoTorn: Option<Torn>, audio: seq<ChunkEntry>, audioTorn: Option<Torn>)
    requires Lawful(f.chunks)
    requires Journaling(f, d, VideoJournal(dir), entries, videoTorn)
             && Journaling(f, d, AudioJournal(dir), audio, audioTorn)
    ensures JournalCounts(f, d, dir)
         == (|entries| + (if ObjectLanded(f, videoTorn) then 1 else 0),
             |audio| + (if ObjectLanded(f, audioTorn) then 1 else 0))
    ensures KeepsCounts(f, d, dir, entries, audio) <==> Faithful(f, d, dir, entries, videoTorn, audioTorn)
  {
    hide ChunksAt, Journaling, VideoBytes;
    JournalReads(f, d, VideoJournal(dir), entries, videoTorn);
    JournalReads(f, d, AudioJournal(dir), audio, audioTorn);
  }

  lemma {:induction false} LineAdded(f: Formats, d: Disk, t: Disk, p: Path, entries: seq<ChunkEntry>, e: ChunkEntry,
                                     landed: nat, ok: bool)
    requires Journaling(f, d, p, entries, None) && landed <= |Line(f.chunks, e)|
             && (ok ==> landed == |Line(f.chunks, e)|)
    requires (landed == 0 && t == d) || t == d[p := JournalText(d, p) + Line(f.chunks, e)[..landed]]
    ensures ok ==> Journaling(f, t, p, entries + [e], None)
    ensures !ok ==> Journaling(f, t, p, entries, Some(Torn(e, landed)))
    ensures forall q, other, torn :: q != p && Journaling(f, d, q, other, torn) ==> Journaling(f, t, q, other, torn)
  {
    hide Line;
    var line := Line(f.chunks, e);
    assert Text(f.chunks, entries) + "" == Text(f.chunks, entries);
    assert line[..|line|] == line;
    assert (entries + [e])[..|entries|] == entries;
    assert Text(f.chunks, entries + [e]) + "" == Text(f.chunks, entries) + line;
  }

  /** Finalizing again after a failed finalization would count what is left of the encoder's
      files a second time; the worker finalizes once (runtime.py:264-279). */
  lemma {:induction false} RetryCountsTwice(disk: Disk, external: set<Path>, torn: map<Path, nat>, reserved: nat,
                                            used: int, dir: string)
    requires Accounted(disk, external, torn, reserved, used) && external !! EncoderFiles(dir)
    ensures Accounted(disk, external, torn, reserved, CommittedUse(used, 0, EncoderBytes(disk, dir))) <==>
            EncoderBytes(disk, dir) == 0
  {
    hide Sum, Booked;
  }
}
