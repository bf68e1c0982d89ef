/** The bounded spool: byte accounting against the real files, and the disk states every
    operation can leave behind if the process dies inside it. */
module Spool {
  import opened Common
  import opened SpoolFiles
  import opened FilePlans

  const MIN_FINALIZATION_RESERVE_BYTES: nat := 256 * 1024
  const MIN_EXTERNAL_RECORDING_BYTES: nat := 8 * 1024 * 1024

  lemma {:induction false} UndoTwo(d: Disk, a: Path, b: Path, x: string, y: string)
    requires a !in d && b !in d && a != b
    ensures d[a := x][b := y] - {b} - {a} == d && d[a := x][b := y] - {a} - {b} == d
    ensures d[a := x] - {b} - {a} == d && d[a := x] - {a} - {b} == d
    ensures d - {b} - {a} == d && d - {a} - {b} == d
    ensures d[a := x][b := y] - {b} == d[a := x] && d[a := x] - {b} == d[a := x] && d[a := x] - {a} == d
    ensures d - {a} == d && d - {b} == d
  {
  }

  /** Image, then sidecar. */
  function SnapshotPlan(id: string, extension: string, image: string, sidecar: string): seq<FileStep> {
    [Put(Snapshot(id, extension), image), Put(SnapshotSidecar(id, extension), sidecar)]
  }

  /** The session marker, then the physical reserve. */
  function OpeningPlan(dir: string, sessionText: string): seq<FileStep> {
    [Put(SessionFile(dir), sessionText), Put(ReserveFile(dir), ReserveText(|sessionText|))]
  }

  function CleanupPlan(dir: string): seq<FileStep> {
    [Drop(ReserveFile(dir)), Drop(SessionFile(dir))]
  }

  lemma {:induction false} StatesOfTwo(d: Disk, s: FileStep, t: FileStep)
    ensures States(d, [s, t]) == Seen(d) + Seen(Do(d, s)) + Seen(Do(Do(d, s), t))
    ensures d in Seen(d) && Do(d, s) in Seen(Do(d, s))
  {
    assert [s, t][1..] == [t] && [t][1..] == [];
    var d1 := Do(d, s);
    assert States(d1, [t]) == Seen(d1) + States(Do(d1, t), []);
    assert States(Do(d1, t), []) == Seen(Do(d1, t)) + iset{};
  }

  /** Wherever a crash strikes, a snapshot's sidecar is never without its image. */
  lemma {:induction false} SidecarNeedsImage(d: Disk, id: string, extension: string, image: string, sidecar: string,
                                             t: Disk)
    requires SnapshotSidecar(id, extension) !in d && t in States(d, SnapshotPlan(id, extension, image, sidecar))
    ensures SnapshotSidecar(id, extension) in t ==>
              && t[SnapshotSidecar(id, extension)] == sidecar
              && Snapshot(id, extension) in t && t[Snapshot(id, extension)] == image
  {
    hide Seen, States;
    var first, second := Put(Snapshot(id, extension), image), Put(SnapshotSidecar(id, extension), sidecar);
    StatesOfTwo(d, first, second);
    var u := if t in Seen(d) then d else if t in Seen(Do(d, first)) then Do(d, first) else Do(Do(d, first), second);
    SeenSame(u, t);
    assert SameFile(u, t, Snapshot(id, extension)) && SameFile(u, t, SnapshotSidecar(id, extension));
  }

  /** Wherever a crash strikes an opening or its cleanup, a reserve is never without its session,
      so recovery finds every one. */
  lemma {:induction false} ReserveNeedsSession(d: Disk, dir: string, sessionText: string, t: Disk)
    requires ReserveFile(dir) in d ==> SessionFile(dir) in d
    requires t in States(d, OpeningPlan(dir, sessionText)) || t in States(d, CleanupPlan(dir))
    ensures ReserveFile(dir) in t ==> SessionFile(dir) in t
  {
    hide Seen, States, ReserveText;
    var plan := if t in States(d, OpeningPlan(dir, sessionText)) then OpeningPlan(dir, sessionText)
    else CleanupPlan(dir);
    var first, second := plan[0], plan[1];
    assert plan == [first, second];
    StatesOfTwo(d, first, second);
    var u := if t in Seen(d) then d else if t in Seen(Do(d, first)) then Do(d, first) else Do(Do(d, first), second);
    SeenSame(u, t);
    assert SameFile(u, t, ReserveFile(dir)) && SameFile(u, t, SessionFile(dir));
  }

  lemma {:induction false} OpeningStates(d: Disk, dir: string, sessionText: string)
    ensures var states := States(d, OpeningPlan(dir, sessionText));
            && Seen(d) + Seen(d) <= states
            && Seen(d) + Seen(d[SessionFile(dir) := sessionText]) <= states
            && Seen(d[SessionFile(dir) := sessionText])
               + Seen(d[SessionFile(dir) := sessionText][ReserveFile(dir) := ReserveText(|sessionText|)]) <= states
            && Seen(d[SessionFile(dir) := sessionText]) + Seen(d[SessionFile(dir) := sessionText]) <= states
  {
    hide Seen, ReserveText;
    StatesOfTwo(d, Put(SessionFile(dir), sessionText), Put(ReserveFile(dir), ReserveText(|sessionText|)));
  }

  /** Cleaning up leads back through the states of the opening. */
  lemma {:induction false} CleanedUp(d: Disk, t: Disk, dir: string, sessionText: string, a: seq<Disk>, b: seq<Disk>,
                                     c: seq<Disk>)
    requires SessionFile(dir) !in d && ReserveFile(dir) !in d
    requires t == d || t == d[SessionFile(dir) := sessionText]
          || t == d[SessionFile(dir) := sessionText][ReserveFile(dir) := ReserveText(|sessionText|)]
    requires Added(a, b, States(d, OpeningPlan(dir, sessionText))) && Added(b, c, States(t, CleanupPlan(dir)))
    ensures Added(a, c, States(d, OpeningPlan(dir, sessionText)))
    ensures t - {ReserveFile(dir)} - {SessionFile(dir)} == d
    ensures t - {ReserveFile(dir)} == d || t - {ReserveFile(dir)} == d[SessionFile(dir) := sessionText]
  {
    hide Seen, ReserveText, States, Added;
    UndoTwo(d, SessionFile(dir), ReserveFile(dir), sessionText, ReserveText(|sessionText|));
    OpeningStates(d, dir, sessionText);
    StatesOfTwo(t, Drop(ReserveFile(dir)), Drop(SessionFile(dir)));
    AddedThen(a, b, c, States(d, OpeningPlan(dir, sessionText)), States(t, CleanupPlan(dir)),
              States(d, OpeningPlan(dir, sessionText)));
  }

  /** The states of a write. */
  lemma {:induction false} TakingHas(d: Disk, path: Path, data: string, temp: Path)
    requires temp.Temp? && temp !in d
    ensures d in Taking(d, Put(path, data)) && d[path := data] in Taking(d, Put(path, data))
    ensures forall k :: 0 <= k <= |data| ==> d[temp := data[..k]] in Taking(d, Put(path, data))
  {
    forall k | 0 <= k <= |data| ensures d[temp := data[..k]] in Taking(d, Put(path, data)) {
      assert IsHalf(d, data, d[temp := data[..k]], temp, k);
    }
  }

  lemma {:induction false} BothStates(a: seq<Disk>, b: seq<Disk>, s: iset<Disk>, t: iset<Disk>, u: iset<Disk>)
    requires Added(a, b, s * t) && s <= u
    ensures Added(a, b, u) && Added(a, b, t)
  {
  }

  lemma {:induction false} MoreStates(a: seq<Disk>, b: seq<Disk>, s: iset<Disk>, t: iset<Disk>)
    requires Added(a, b, s) && s <= t
    ensures Added(a, b, t)
  {
  }

  lemma {:induction false} FewerTemps(d: Disk, d': Disk, n: nat)
    requires TempsBelow(d, n) && d'.Keys <= d.Keys
    ensures TempsBelow(d', n)
  {
  }

  lemma {:induction false} NewSession(disk: Disk, dir: string)
    requires !exists p :: p in disk && InSession(p, dir)
    ensures SessionFile(dir) !in disk && ReserveFile(dir) !in disk
  {
    assert InSession(SessionFile(dir), dir) && InSession(ReserveFile(dir), dir);
  }

  lemma {:induction false} MarkersFree(external: set<Path>, dir: string)
    requires forall p :: p in external ==> !InSession(p, dir)
    ensures SessionFile(dir) !in external && ReserveFile(dir) !in external
  {
    assert InSession(SessionFile(dir), dir) && InSession(ReserveFile(dir), dir);
  }

  lemma {:induction false} NoEncoderFiles(disk: Disk, dir: string, x: string, y: string)
    requires !exists p :: p in disk && InSession(p, dir)
    ensures forall p :: p in EncoderFiles(dir) ==> p !in disk[SessionFile(dir) := x][ReserveFile(dir) := y]
  {
    forall p | p in EncoderFiles(dir) ensures p !in disk[SessionFile(dir) := x][ReserveFile(dir) := y] {
      assert p in disk ==> InSession(p, dir);
    }
  }

  /** An operation ends otherwise than well only for cause: a quota, a floor of free bytes, or
      a system call that failed. */
  ghost predicate Excused(r: Outcome, maxBytes: nat, minFreeBytes: nat, faultsBefore: nat, faultsAfter: nat) {
    && faultsBefore <= faultsAfter
    && match r
       case Ok => true
       case QuotaFull => maxBytes > 0
       case DiskLow => minFreeBytes > 0
       case IoFailed => faultsAfter > faultsBefore
       case _ => false
  }

  /** The books hold for a disk: used bytes are the booked files plus open reservations. */
  ghost predicate Accounted(disk: Disk, external: set<Path>, torn: map<Path, nat>, reserved: nat, used: int) {
    && TornFits(disk, torn)
    && (forall p :: p in external ==> EncoderFile(p))
    && used == Sum(Booked(disk, external, torn)) + reserved
  }

  class SpoolStore {
    const maxBytes: nat
    const minFreeBytes: nat
    var disk: Disk
    var usedBytes: int
    /** Temporary names come from uuid4, which never repeats. */
    var nextToken: nat
    /** Bytes granted to encoders that have not been committed or released. */
    ghost var reserved: nat
    ghost var external: set<Path>
    /** Journal bytes that failed appends left on disk after giving their reservation back. */
    ghost var torn: map<Path, nat>
    /** System calls that have failed. */
    ghost var faults: nat
    /** Every state the disk has gone through: the points at which a crash can strike. */
    ghost var trace: seq<Disk>

    ghost predicate Valid()
      reads this
    {
      TempsBelow(disk, nextToken) && Accounted(disk, external, torn, reserved, usedBytes)
    }

    /** A restart: whatever lies on the disk is scanned and counted. */
    constructor (found: Disk, freshToken: nat, maxBytes: int, minFreeBytes: int)
      requires TempsBelow(found, freshToken)
      ensures Valid() && disk == found && trace == [] && external == {} && torn == map[] && reserved == 0 && faults == 0
      ensures usedBytes == Sum(Sizes(found))
      ensures this.maxBytes == Max(0, maxBytes) && this.minFreeBytes == Max(0, minFreeBytes)
    {
      this.maxBytes := Max(0, maxBytes);
      this.minFreeBytes := Max(0, minFreeBytes);
      disk, nextToken := found, freshToken;
      reserved, external, torn, trace, faults := 0, {}, map[], [], 0;
      var scanned := SpoolStore.ScanUsedBytes(found);
      usedBytes := scanned;
      assert Booked(found, {}, map[]) == Sizes(found);
    }

    static method ScanUsedBytes(found: Disk) returns (total: nat)
      ensures total == Sum(Sizes(found))
    {
      total := 0;
      var rest := found;
      while rest != map[]
        invariant rest.Keys <= found.Keys
        invariant total + Sum(Sizes(rest)) == Sum(Sizes(found))
        decreases |rest|
      {
        var p :| p in rest;
        SumWithout(Sizes(rest), p);
        assert Sizes(rest) - {p} == Sizes(rest - {p});
        assert (rest - {p}).Keys == rest.Keys - {p};
        total := total + |rest[p]|;
        rest := rest - {p};
      }
    }

    ghost function Now(): Moment
      reads this
    {
      Moment(disk, usedBytes, trace)
    }

    ghost method Record()
      modifies this`trace
      ensures trace == old(trace) + [disk]
    {
      trace := trace + [disk];
    }

    ghost method RecordOne(since: seq<Disk>, s: iset<Disk>, t: iset<Disk>)
      requires Added(since, trace, s) && Added(since, trace, t) && disk in s && disk in t
      modifies this`trace
      ensures trace == old(trace) + [disk] && Added(since, trace, s) && Added(since, trace, t)
    {
      AddedOne(since, trace, disk, s);
      AddedOne(since, trace, disk, t);
      trace := trace + [disk];
    }

    // -------------------------------------------------------------- reserving and releasing

    method Reserve(byteCount: int) returns (r: Outcome)
      modifies this`usedBytes
      ensures r == Ok || r == QuotaFull || r == DiskLow
      ensures usedBytes == old(usedBytes) + if r == Ok then Max(0, byteCount) else 0
      ensures r == QuotaFull <==> byteCount > 0 && maxBytes > 0 && old(usedBytes) + byteCount > maxBytes
      ensures r == DiskLow ==> byteCount > 0 && minFreeBytes > 0
    {
      if byteCount <= 0 {
        return Ok;
      }
      if maxBytes > 0 && usedBytes + byteCount > maxBytes {
        return QuotaFull;
      }
      var free: nat := *;
      if minFreeBytes > 0 && free - byteCount < minFreeBytes {
        return DiskLow;
      }
      usedBytes := usedBytes + byteCount;
      r := Ok;
    }

    method Release(byteCount: int)
      modifies this`usedBytes
      ensures usedBytes == if byteCount <= 0 then old(usedBytes) else Max(0, old(usedBytes) - byteCount)
    {
      if byteCount > 0 {
        usedBytes := Max(0, usedBytes - byteCount);
      }
    }

    // -------------------------------------------------------------- file primitives

    /** Temporary file, fsync, replace: old or new for every reader, never in between. */
    method AtomicWriteUntracked(path: Path, data: string) returns (ok: bool)
      requires TempsBelow(disk, nextToken) && !path.Temp?
      modifies this`disk, this`nextToken, this`trace, this`faults
      ensures TempsBelow(disk, nextToken)
      ensures faults == old(faults) + if ok then 0 else 1
      ensures disk == if ok then old(disk)[path := data] else old(disk)
      ensures Added(old(trace), trace, Seen(old(disk)) + Seen(disk))
      ensures Added(old(trace), trace, Taking(old(disk), Put(path, data)))
    {
      hide Live, Added, Taking;
      var temp := Temp(path, nextToken);
      nextToken := nextToken + 1;
      ghost var d0, t0, taking := disk, trace, Taking(disk, Put(path, data));
      ghost var before := Seen(disk) * taking;
      ghost var either := (Seen(disk) + Seen(disk[path := data])) * taking;
      TakingHas(d0, path, data, temp);
      NothingAdded(t0, before);
      NothingAdded(t0, either);
      ok := *;
      if !ok {
        faults := faults + 1;
        BothStates(t0, trace, Seen(d0), taking, Seen(d0) + Seen(d0));
        return;
      }
      disk := disk[temp := ""];
      assert data[..0] == "";
      LiveWithTemp(d0, path, temp.token, "");
      RecordOne(t0, before, either);
      var written :| 0 <= written <= |data|;
      disk := disk[temp := data[..written]];
      LiveWithTemp(d0, path, temp.token, disk[temp]);
      assert disk == d0[temp := data[..written]];
      RecordOne(t0, before, either);
      ok := *;
      if written < |data| || !ok {
        ok := false;
        faults := faults + 1;
        disk := disk - {temp};
        assert disk == d0;
        RecordOne(t0, before, either);
        BothStates(t0, trace, Seen(d0), taking, Seen(d0) + Seen(d0));
        return;
      }
      disk := (disk - {temp})[path := data];
      assert disk == d0[path := data];
      RecordOne(t0, either, either);
      BothStates(t0, trace, Seen(d0) + Seen(disk), taking, Seen(d0) + Seen(disk));
    }

    method AtomicWriteCounted(path: Path, data: string) returns (r: Outcome)
      requires Valid() && path !in external && !path.FrameJournal? && !path.Temp?
      modifies this`disk, this`usedBytes, this`nextToken, this`trace, this`faults
      ensures Valid()
      ensures Excused(r, maxBytes, minFreeBytes, old(faults), faults)
      ensures disk == if r == Ok then old(disk)[path := data] else old(disk)
      ensures usedBytes == old(usedBytes) + if r == Ok then |data| - Size(old(disk), path) else 0
      ensures r == QuotaFull <==>
              |data| > Size(old(disk), path) && maxBytes > 0
                && old(usedBytes) + |data| - Size(old(disk), path) > maxBytes
      ensures r == DiskLow ==> |data| > Size(old(disk), path) && minFreeBytes > 0
      ensures WithinQuota(old(usedBytes), maxBytes) ==> WithinQuota(usedBytes, maxBytes)
      ensures Added(old(trace), trace, Seen(old(disk)) + Seen(disk))
      ensures Ran(old(Now()), maxBytes, [Put(path, data)], r, Now())
    {
      hide Sum, Booked, Live, Ran, Added, Seen, TempsBelow, Taking;
      ghost var before := Now();
      var oldSize := if path in disk then |disk[path]| else 0;
      var growth := Max(0, |data| - oldSize);
      BookedWrite(disk, external, torn, path, data);
      NothingAdded(trace, Seen(disk) + Seen(disk));
      NothingAdded(trace, Taking(disk, Put(path, data)));
      r := Reserve(growth);
      if r != Ok {
        RanStep(before, maxBytes, Put(path, data), r, Now());
        return;
      }
      var ok := AtomicWriteUntracked(path, data);
      if !ok {
        Release(growth);
        RanStep(before, maxBytes, Put(path, data), IoFailed, Now());
        return IoFailed;
      }
      if |data| < oldSize {
        Release(oldSize - |data|);
      }
      RanStep(before, maxBytes, Put(path, data), r, Now());
    }

    method UnlinkCounted(path: Path) returns (r: Outcome)
      requires Valid() && path !in external && !path.FrameJournal? && !path.Temp?
      modifies this`disk, this`usedBytes, this`trace, this`faults
      ensures Valid()
      ensures (r == Ok || r == IoFailed) && Excused(r, maxBytes, minFreeBytes, old(faults), faults)
      ensures disk == if r == Ok then old(disk) - {path} else old(disk)
      ensures usedBytes == old(usedBytes) - if r == Ok then Size(old(disk), path) else 0
      ensures r == Ok && path in old(disk) ==> trace == old(trace) + [disk]
      ensures Added(old(trace), trace, Seen(disk))
      ensures Ran(old(Now()), maxBytes, [Drop(path)], r, Now())
    {
      hide Sum, Booked, Live, Ran;
      ghost var before := Now();
      if path !in disk {
        assert disk - {path} == disk;
        RanStep(before, maxBytes, Drop(path), Ok, before);
        return Ok;
      }
      if * {
        faults := faults + 1;
        RanStep(before, maxBytes, Drop(path), IoFailed, before);
        return IoFailed;
      }
      var byteCount := |disk[path]|;
      BookedRemove(disk, external, torn, path);
      disk := disk - {path};
      Record();
      Release(byteCount);
      r := Ok;
      RanStep(before, maxBytes, Drop(path), Ok, Now());
    }

    /** os.replace of a file by a counted one: no byte changes. */
    method Rename(from: Path, to: Path) returns (r: Outcome)
      requires Valid() && from in disk && to !in disk
      requires from !in external && to !in external
      requires !from.FrameJournal? && !to.FrameJournal? && !from.Temp? && !to.Temp?
      modifies this`disk, this`trace, this`faults
      ensures Valid()
      ensures (r == Ok || r == IoFailed) && Excused(r, maxBytes, minFreeBytes, old(faults), faults)
      ensures disk == if r == Ok then (old(disk) - {from})[to := old(disk)[from]] else old(disk)
      ensures Added(old(trace), trace, Seen(disk))
      ensures Ran(old(Now()), maxBytes, [Place(from, to)], r, Now())
    {
      hide Sum, Booked, Live, Ran;
      ghost var before := Now();
      if * {
        faults := faults + 1;
        RanStep(before, maxBytes, Place(from, to), IoFailed, before);
        return IoFailed;
      }
      BookedRemove(disk, external, torn, from);
      BookedWrite(disk - {from}, external, torn, to, disk[from]);
      disk := (disk - {from})[to := disk[from]];
      Record();
      r := Ok;
      RanStep(before, maxBytes, Place(from, to), Ok, Now());
    }

    // -------------------------------------------------------------- snapshots

    /** Image and sidecar, or neither. The artifact id is a fresh uuid4. */
    method WriteSnapshot(id: string, extension: string, image: string, sidecar: string) returns (r: Outcome)
      requires Valid() && Snapshot(id, extension) !in disk && SnapshotSidecar(id, extension) !in disk
      modifies this`disk, this`usedBytes, this`nextToken, this`trace, this`faults
      ensures Valid()
      ensures disk == if r == Ok
                      then old(disk)[Snapshot(id, extension) := image][SnapshotSidecar(id, extension) := sidecar]
                      else old(disk)
      ensures usedBytes == old(usedBytes) + if r == Ok then |image| + |sidecar| else 0
      ensures Excused(r, maxBytes, minFreeBytes, old(faults), faults)
      ensures r == QuotaFull <==>
                |image| + |sidecar| > 0 && maxBytes > 0 && old(usedBytes) + |image| + |sidecar| > maxBytes
      ensures WithinQuota(old(usedBytes), maxBytes) ==> WithinQuota(usedBytes, maxBytes)
      ensures Added(old(trace), trace, States(old(disk), SnapshotPlan(id, extension, image, sidecar)))
    {
      hide Sum, Booked, Live, Added, Seen, TempsBelow, States;
      NothingAdded(trace, States(disk, SnapshotPlan(id, extension, image, sidecar)));
      var media, side := Snapshot(id, extension), SnapshotSidecar(id, extension);
      BookedWrite(disk, external, torn, media, image);
      BookedWrite(disk[media := image], external, torn, side, sidecar);
      r := Reserve(|image| + |sidecar|);
      if r != Ok {
        return;
      }
      var ok := WritePair(media, image, side, sidecar);
      if !ok {
        Release(|image| + |sidecar|);
        return IoFailed;
      }
    }

    method WritePair(media: Path, image: string, side: Path, sidecar: string) returns (ok: bool)
      requires TempsBelow(disk, nextToken) && media != side && media !in disk && side !in disk && !media.Temp?
               && !side.Temp?
      modifies this`disk, this`nextToken, this`trace, this`faults
      ensures TempsBelow(disk, nextToken) && (if ok then faults >= old(faults) else faults > old(faults))
      ensures disk == if ok then old(disk)[media := image][side := sidecar] else old(disk)
      ensures Added(old(trace), trace, States(old(disk), [Put(media, image), Put(side, sidecar)]))
    {
      hide Live, Added, Seen, TempsBelow, States;
      ghost var d0, t0, states := disk, trace, States(disk, [Put(media, image), Put(side, sidecar)]);
      StatesOfTwo(d0, Put(media, image), Put(side, sidecar));
      UndoTwo(d0, media, side, image, sidecar);
      ok := AtomicWriteUntracked(media, image);
      MoreStates(t0, trace, Seen(d0) + Seen(disk), states);
      if ok {
        ghost var d1, t1 := disk, trace;
        ok := AtomicWriteUntracked(side, sidecar);
        AddedThen(t0, t1, trace, states, Seen(d1) + Seen(disk), states);
      }
      if !ok {
        FewerTemps(disk, d0, nextToken);
        disk := disk - {media};
        RecordOne(t0, states, states);
        disk := disk - {side};
        RecordOne(t0, states, states);
      }
    }

    // -------------------------------------------------------------- opening a recording

    /** The session marker and the physical reserve for its terminal metadata. */
    method PrepareRecording(dir: string, sessionText: string) returns (r: Outcome)
      requires Valid() && forall p :: p in external ==> !InSession(p, dir)
      modifies this`disk, this`usedBytes, this`nextToken, this`trace, this`faults
      ensures Valid()
      ensures r == AlreadyExists <==> exists p :: p in old(disk) && InSession(p, dir)
      ensures r == Ok ==>
                disk == old(disk)[SessionFile(dir) := sessionText][ReserveFile(dir) := ReserveText(|sessionText|)]
      ensures r != Ok && r != IoFailed ==> disk == old(disk) && usedBytes == old(usedBytes)
      ensures r == IoFailed ==> disk == old(disk) || disk == old(disk)[SessionFile(dir) := sessionText]
      ensures (r == AlreadyExists && faults == old(faults)) || Excused(r, maxBytes, minFreeBytes, old(faults), faults)
      ensures WithinQuota(old(usedBytes), maxBytes) ==> WithinQuota(usedBytes, maxBytes)
      ensures Added(old(trace), trace, States(old(disk), OpeningPlan(dir, sessionText)))
    {
      hide Sum, Booked, Live, TempsBelow, TornFits, Added, Seen, InSession, ReserveText, Ran, States, OpeningPlan,
        CleanupPlan, Do, Accounted;
      ghost var d0, t0, states := disk, trace, States(disk, OpeningPlan(dir, sessionText));
      NothingAdded(t0, states);
      if exists p :: p in disk.Keys && InSession(p, dir) {
        return AlreadyExists;
      }
      NewSession(disk, dir);
      OpeningStates(d0, dir, sessionText);
      MarkersFree(external, dir);
      r := AtomicWriteCounted(SessionFile(dir), sessionText);
      MoreStates(t0, trace, Seen(d0) + Seen(disk), states);
      if r == Ok {
        ghost var d1, t1 := disk, trace;
        r := AtomicWriteCounted(ReserveFile(dir), ReserveText(|sessionText|));
        AddedThen(t0, t1, trace, states, Seen(d1) + Seen(disk), states);
      }
      if r != Ok {
        ghost var d2, t2 := disk, trace;
        var cleaned := CleanupPreparedRecording(dir);
        CleanedUp(d0, d2, dir, sessionText, t0, t2, trace);
        if cleaned != Ok {
          return IoFailed;
        }
      }
    }

    method CleanupPreparedRecording(dir: string) returns (r: Outcome)
      requires Valid() && forall p :: p in external ==> !InSession(p, dir)
      modifies this`disk, this`usedBytes, this`trace, this`faults
      ensures Valid()
      ensures (r == Ok || r == IoFailed) && Excused(r, maxBytes, minFreeBytes, old(faults), faults)
      ensures r == Ok ==> disk == old(disk) - {ReserveFile(dir)} - {SessionFile(dir)}
      ensures r == Ok ==> usedBytes == old(usedBytes) - Size(old(disk), ReserveFile(dir)) - Size(old(disk),
                                                                                                 SessionFile(dir))
      ensures usedBytes <= old(usedBytes)
      ensures r == IoFailed ==> disk == old(disk) || disk == old(disk) - {ReserveFile(dir)}
      ensures Added(old(trace), trace, States(old(disk), CleanupPlan(dir)))
    {
      hide Sum, Booked, Live, Added, Seen, Ran, States;
      ghost var d0, t0, states := disk, trace, States(disk, CleanupPlan(dir));
      StatesOfTwo(d0, Drop(ReserveFile(dir)), Drop(SessionFile(dir)));
      assert SessionFile(dir) !in external && ReserveFile(dir) !in external;
      r := UnlinkCounted(ReserveFile(dir));
      MoreStates(t0, trace, Seen(disk), states);
      if r == Ok {
        ghost var d1, t1 := disk, trace;
        r := UnlinkCounted(SessionFile(dir));
        AddedThen(t0, t1, trace, states, Seen(disk), states);
      }
    }

    // -------------------------------------------------------------- external encoders

    /** free is what the file system reports. The grant is the largest that leaves quota and
        floor alone; it is refused exactly when even the minimum does not. */
    method ReserveExternalCapacity(requested: int, free: nat) returns (r: Outcome, allocation: int)
      requires Valid()
      modifies this`usedBytes, this`reserved
      ensures Valid()
      ensures r == if Grantable(MIN_EXTERNAL_RECORDING_BYTES, requested, old(usedBytes), maxBytes, free, minFreeBytes)
              then Ok else DiskLow
      ensures r == Ok ==>
                && MIN_EXTERNAL_RECORDING_BYTES <= allocation
                && (forall n: nat :: Grantable(n, requested, old(usedBytes), maxBytes, free, minFreeBytes) <==>
                    n <= allocation)
                && usedBytes == old(usedBytes) + allocation && reserved == old(reserved) + allocation
      ensures r != Ok ==> usedBytes == old(usedBytes) && reserved == old(reserved)
    {
      hide Sum, Booked;
      var quotaAvailable := requested;
      if maxBytes > 0 {
        quotaAvailable := Max(0, maxBytes - usedBytes);
      }
      var diskAvailable := Max(0, free - minFreeBytes);
      allocation := Min(requested, Min(quotaAvailable, diskAvailable));
      if allocation < MIN_EXTERNAL_RECORDING_BYTES {
        return DiskLow, allocation;
      }
      usedBytes := usedBytes + allocation;
      reserved := reserved + allocation;
      r := Ok;
    }

    method PrepareExternalRecording(dir: string, sessionText: string, requested: int)
      returns (r: Outcome, allocation: int)
      requires Valid() && forall p :: p in external ==> !InSession(p, dir)
      modifies this
      ensures Valid()
      ensures requested < MIN_EXTERNAL_RECORDING_BYTES ==> r == TooSmall
      ensures r == Ok ==>
                && MIN_EXTERNAL_RECORDING_BYTES <= allocation <= requested
                && reserved == old(reserved) + allocation
                && external == old(external) + EncoderFiles(dir)
                && disk == old(disk)[SessionFile(dir) := sessionText][ReserveFile(dir) := ReserveText(|sessionText|)]
      ensures r != Ok ==> reserved == old(reserved) && external == old(external)
      ensures r != Ok && r != IoFailed ==> disk == old(disk) && usedBytes == old(usedBytes)
      ensures faults >= old(faults) && (r == IoFailed ==> faults > old(faults))
      ensures torn == old(torn)
      ensures WithinQuota(old(usedBytes), maxBytes) ==> WithinQuota(usedBytes, maxBytes)
      ensures Added(old(trace), trace, States(old(disk), OpeningPlan(dir, sessionText)))
    {
      hide Sum, Booked, Live, TempsBelow, TornFits, Added, Seen, ReserveText, EncoderFiles, States, OpeningPlan,
        CleanupPlan, Ran, Do;
      ghost var t0, states := trace, States(disk, OpeningPlan(dir, sessionText));
      NothingAdded(t0, states);
      allocation := 0;
      if requested < MIN_EXTERNAL_RECORDING_BYTES {
        return TooSmall, 0;
      }
      ghost var d0 := disk;
      r := PrepareRecording(dir, sessionText);
      if r != Ok {
        return;
      }
      NewSession(d0, dir);
      NoEncoderFiles(d0, dir, sessionText, ReserveText(|sessionText|));
      var free: nat := *;
      r, allocation := ReserveExternalCapacity(requested, free);
      assert r == Ok ==> Grantable(allocation, requested, usedBytes - allocation, maxBytes, free, minFreeBytes);
      if r != Ok {
        ghost var d2, t2 := disk, trace;
        var cleaned := CleanupPreparedRecording(dir);
        CleanedUp(d0, d2, dir, sessionText, t0, t2, trace);
        if cleaned != Ok {
          return IoFailed, allocation;
        }
        return;
      }
      BookedWithAbsent(disk, external, torn, dir);
      external := external + EncoderFiles(dir);
    }

    /** The encoder writes its files; nothing in the books moves. */
    method EncoderWrites(path: Path, data: string)
      requires Valid() && path in external
      modifies this`disk, this`trace
      ensures Valid() && disk == old(disk)[path := data] && trace == old(trace) + [disk]
    {
      hide Sum, Booked, Live;
      BookedExternal(disk, disk[path := data], external, torn);
      disk := disk[path := data];
      Record();
    }

    /** The books move from the reservation to the files whether or not the call then
        raises for going over quota. */
    method CommitExternalRecording(reservedBytes: nat, actualBytes: nat, ghost dir: string) returns (r: Outcome)
      requires Valid() && reservedBytes <= reserved && EncoderFiles(dir) <= external
      requires actualBytes == EncoderBytes(disk, dir)
      modifies this`usedBytes, this`reserved, this`external
      ensures Valid() && reserved == old(reserved) - reservedBytes && external == old(external) - EncoderFiles(dir)
      ensures usedBytes == old(usedBytes) - reservedBytes + actualBytes
      ensures r == if maxBytes > 0 && usedBytes > maxBytes then QuotaFull else Ok
    {
      hide Sum, Booked;
      BookedHandOver(disk, external, torn, dir);
      var nextUsed := CommittedUse(usedBytes, reservedBytes, actualBytes);
      usedBytes := nextUsed;
      reserved := reserved - reservedBytes;
      external := external - EncoderFiles(dir);
      r := if maxBytes > 0 && nextUsed > maxBytes then QuotaFull else Ok;
    }

    /** For an encoder that left no byte. */
    method ReleaseExternalRecording(reservedBytes: nat, ghost dir: string)
      requires Valid() && reservedBytes <= reserved && EncoderFiles(dir) <= external
      requires EncoderBytes(disk, dir) == 0
      modifies this`usedBytes, this`reserved, this`external
      ensures Valid() && reserved == old(reserved) - reservedBytes && external == old(external) - EncoderFiles(dir)
      ensures usedBytes == old(usedBytes) - reservedBytes
    {
      hide Sum, Booked;
      BookedHandOver(disk, external, torn, dir);
      Release(reservedBytes);
      reserved := reserved - reservedBytes;
      external := external - EncoderFiles(dir);
    }
  }

  /** n bytes are asked for, and taking them goes over neither quota nor floor. */
  predicate Grantable(n: nat, requested: int, used: int, maxBytes: nat, free: nat, minFreeBytes: nat) {
    && n <= requested
    && (n > 0 ==> WithinQuota(used + n, maxBytes) && n + minFreeBytes <= free)
  }

  /** Zero bytes, enough for the terminal metadata of a session of this encoded length. */
  function ReserveText(sessionBytes: nat): (text: string)
    ensures |text| >= MIN_FINALIZATION_RESERVE_BYTES && |text| >= 8 * sessionBytes
    ensures |text| == MIN_FINALIZATION_RESERVE_BYTES || |text| == 8 * sessionBytes
  {
    seq(Max(MIN_FINALIZATION_RESERVE_BYTES, 8 * sessionBytes), _ => '\0')
  }

  function EncoderBytes(disk: Disk, dir: string): nat {
    Size(disk, VideoPart(dir)) + Size(disk, VideoJournal(dir)) + Size(disk, AudioPart(dir))
      + Size(disk, AudioJournal(dir))
  }

  lemma {:induction false} BookedWithAbsent(disk: Disk, external: set<Path>, torn: map<Path, nat>, dir: string)
    requires TornFits(disk, torn) && forall p :: p in EncoderFiles(dir) ==> p !in disk
    ensures forall p :: p in EncoderFiles(dir) ==> EncoderFile(p)
    ensures Booked(disk, external, torn) == Booked(disk, external + EncoderFiles(dir), torn)
  {
  }

  // ---------------------------------------------------------------- what the books mean

  /** The counter is the size of the whole disk plus what encoders may still write, minus
      what they have written and what failed appends left: so a rescan at restart agrees
      exactly when no encoder is open and no failed append left a byte. */
  lemma {:induction false} RescanAgrees(disk: Disk, external: set<Path>, torn: map<Path, nat>, reserved: nat, used: int)
    requires Accounted(disk, external, torn, reserved, used)
    ensures used == Sum(Sizes(disk)) + reserved - Sum(Sizes(Within(disk, external))) - Sum(torn)
    ensures external == {} && reserved == 0 ==>
              (used == Sum(Sizes(disk)) <==> forall p :: p in torn ==> torn[p] == 0)
  {
    hide Sum;
    BooksCoverDisk(disk, external, torn);
    SumZero(torn);
    if external == {} {
      assert Sizes(Within(disk, external)) == map[];
      SumZero(Sizes(Within(disk, external)));
    }
  }

  /** No release of a counted file, and no commit or release of an open reservation, is
      ever clamped at zero. */
  lemma {:induction false} ReleasesNeverClamp(disk: Disk, external: set<Path>, torn: map<Path, nat>, reserved: nat,
                                              used: int, p: Path)
    requires Accounted(disk, external, torn, reserved, used)
    ensures reserved <= used
    ensures p in disk && p !in external && p !in torn ==> |disk[p]| + reserved <= used
  {
    hide Sum;
    if p in disk && p !in external && p !in torn {
      BookedRemove(disk, external, torn, p);
    }
  }

  // ---------------------------------------------------------------- quota

  /** A commit keeps every admissible store within quota exactly when the encoder wrote no
      more than it reserved. */
  lemma {:induction false} CommitKeepsQuota(reservedBytes: nat, actualBytes: nat)
    ensures actualBytes <= reservedBytes <==>
            forall used: int, maxBytes: nat :: reservedBytes <= used && WithinQuota(used, maxBytes) ==>
              WithinQuota(CommittedUse(used, reservedBytes, actualBytes), maxBytes)
  {
    if actualBytes > reservedBytes {
      var used := reservedBytes + 1;
      assert WithinQuota(used, used) && !WithinQuota(CommittedUse(used, reservedBytes, actualBytes), used);
    }
  }

  function CommittedUse(used: int, reservedBytes: int, actualBytes: int): int {
    Max(0, used - Max(0, reservedBytes)) + Max(0, actualBytes)
  }
}
