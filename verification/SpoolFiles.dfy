/** The files below the spool root, their sizes, and what a reader of the spool can see. */
module SpoolFiles {
  import opened Common

  /** dir names one recording session's directory. A temporary file lies beside its target
      under a name no reader looks for. */
  datatype Path =
    | SessionFile(dir: string)
    | ReserveFile(dir: string)
    | FrameJournal(dir: string)
    | FrameFile(dir: string, index: nat, extension: string)
    | Manifest(dir: string)
    | VideoPart(dir: string)
    | Video(dir: string)
    | VideoSidecar(dir: string)
    | VideoJournal(dir: string)
    | AudioPart(dir: string)
    | Audio(dir: string)
    | AudioSidecar(dir: string)
    | AudioJournal(dir: string)
    | Snapshot(id: string, extension: string)
    | SnapshotSidecar(id: string, extension: string)
    | Temp(target: Path, token: nat)

  type Disk = map<Path, string>

  predicate InSession(p: Path, dir: string) {
    !p.Temp? && !p.Snapshot? && !p.SnapshotSidecar? && p.dir == dir
  }

  /** The files an external encoder writes while its bytes are only reserved. */
  predicate EncoderFile(p: Path) {
    p.VideoPart? || p.VideoJournal? || p.AudioPart? || p.AudioJournal?
  }

  function EncoderFiles(dir: string): set<Path> {
    {VideoPart(dir), VideoJournal(dir), AudioPart(dir), AudioJournal(dir)}
  }

  function Size(disk: Disk, p: Path): nat {
    if p in disk then |disk[p]| else 0
  }

  /** What a reader sees: everything but temporary files. */
  ghost function Live(disk: Disk): Disk {
    map p | p in disk && !p.Temp? :: disk[p]
  }

  ghost predicate TempsBelow(disk: Disk, n: nat) {
    forall p :: p in disk && p.Temp? ==> p.token < n
  }

  lemma {:induction false} LiveWithTemp(disk: Disk, target: Path, token: nat, data: string)
    ensures Live(disk[Temp(target, token) := data]) == Live(disk)
    ensures Live(disk - {Temp(target, token)}) == Live(disk)
  {
  }

  // ---------------------------------------------------------------- adding up sizes

  ghost function Sum(sizes: map<Path, nat>): nat {
    if sizes == map[] then 0
    else
      var p :| p in sizes;
      sizes[p] + Sum(sizes - {p})
  }

  lemma {:induction false} SumWithout(sizes: map<Path, nat>, q: Path)
    requires q in sizes
    ensures Sum(sizes) == sizes[q] + Sum(sizes - {q})
  {
    var p :| p in sizes && Sum(sizes) == sizes[p] + Sum(sizes - {p});
    if p != q {
      SumWithout(sizes - {p}, q);
      SumWithout(sizes - {q}, p);
      assert sizes - {p} - {q} == sizes - {q} - {p};
    }
  }

  lemma {:induction false} SumWith(sizes: map<Path, nat>, q: Path, n: nat)
    ensures Sum(sizes[q := n]) == Sum(sizes) - (if q in sizes then sizes[q] else 0) + n
  {
    SumWithout(sizes[q := n], q);
    if q in sizes {
      SumWithout(sizes, q);
      assert sizes[q := n] - {q} == sizes - {q};
    } else {
      assert sizes[q := n] - {q} == sizes;
    }
  }

  /** Bytes of each file that the accounting is responsible for: encoder files are covered
      by a reservation, and torn counts journal bytes left by appends that failed. */
  ghost function Booked(disk: Disk, external: set<Path>, torn: map<Path, nat>): map<Path, nat>
    requires TornFits(disk, torn)
  {
    map p | p in disk && p !in external :: if p in torn then |disk[p]| - torn[p] else |disk[p]|
  }

  ghost predicate TornFits(disk: Disk, torn: map<Path, nat>) {
    forall p :: p in torn ==> p.FrameJournal? && p in disk && torn[p] <= |disk[p]|
  }

  ghost function Sizes(disk: Disk): map<Path, nat> {
    map p | p in disk :: |disk[p]|
  }

  ghost predicate AddsUp(whole: map<Path, nat>, a: map<Path, nat>, b: map<Path, nat>) {
    && a.Keys <= whole.Keys && b.Keys <= whole.Keys
    && forall p :: p in whole ==> whole[p] == (if p in a then a[p] else 0) + (if p in b then b[p] else 0)
  }

  lemma {:induction false} SumAddsUp(whole: map<Path, nat>, a: map<Path, nat>, b: map<Path, nat>)
    requires AddsUp(whole, a, b)
    ensures Sum(whole) == Sum(a) + Sum(b)
    decreases |whole|
  {
    if whole == map[] {
      assert a == map[] && b == map[];
    } else {
      var p :| p in whole && Sum(whole) == whole[p] + Sum(whole - {p});
      assert (whole - {p}).Keys == whole.Keys - {p};
      SumAddsUp(whole - {p}, a - {p}, b - {p});
      SumMinus(a, p);
      SumMinus(b, p);
    }
  }

  lemma {:induction false} SumMinus(sizes: map<Path, nat>, p: Path)
    ensures Sum(sizes) == Sum(sizes - {p}) + (if p in sizes then sizes[p] else 0)
  {
    if p in sizes {
      SumWithout(sizes, p);
    } else {
      assert sizes - {p} == sizes;
    }
  }

  /** Every byte on disk is booked, torn, or the encoder's. */
  lemma {:induction false} BooksCoverDisk(disk: Disk, external: set<Path>, torn: map<Path, nat>)
    requires TornFits(disk, torn) && torn.Keys !! external
    ensures Sum(Sizes(disk)) == Sum(Booked(disk, external, torn)) + Sum(torn) + Sum(Sizes(Within(disk, external)))
  {
    hide Sum;
    var counted := Sizes(disk - external);
    SumAddsUp(Sizes(disk), counted, Sizes(Within(disk, external)));
    SumAddsUp(counted, Booked(disk, external, torn), torn);
  }

  ghost function Within(disk: Disk, paths: set<Path>): Disk {
    map p | p in disk && p in paths :: disk[p]
  }

  lemma {:induction false} SumZero(sizes: map<Path, nat>)
    ensures Sum(sizes) == 0 <==> forall p :: p in sizes ==> sizes[p] == 0
    decreases |sizes|
  {
    if sizes != map[] {
      var p :| p in sizes && Sum(sizes) == sizes[p] + Sum(sizes - {p});
      assert (sizes - {p}).Keys == sizes.Keys - {p};
      SumZero(sizes - {p});
      assert forall q :: q in sizes ==> q == p || q in sizes - {p};
    }
  }

  // Booked under the three ways a file changes

  lemma {:induction false} BookedWrite(disk: Disk, external: set<Path>, torn: map<Path, nat>, p: Path, data: string)
    requires TornFits(disk, torn) && p !in external && p !in torn
    ensures TornFits(disk[p := data], torn)
    ensures Sum(Booked(disk[p := data], external, torn)) == Sum(Booked(disk, external, torn)) - Size(disk, p) + |data|
  {
    hide Sum;
    SumWith(Booked(disk, external, torn), p, |data|);
    assert Booked(disk[p := data], external, torn) == Booked(disk, external, torn)[p := |data|];
  }

  lemma {:induction false} BookedRemove(disk: Disk, external: set<Path>, torn: map<Path, nat>, p: Path)
    requires TornFits(disk, torn) && p !in external && p !in torn && p in disk
    ensures TornFits(disk - {p}, torn)
    ensures Sum(Booked(disk - {p}, external, torn)) == Sum(Booked(disk, external, torn)) - |disk[p]|
    ensures |disk[p]| <= Sum(Booked(disk, external, torn))
  {
    hide Sum;
    SumWithout(Booked(disk, external, torn), p);
    assert Booked(disk - {p}, external, torn) == Booked(disk, external, torn) - {p};
  }

  /** Appending to a journal: kept bytes are booked, the rest is torn. */
  lemma {:induction false} BookedAppend(disk: Disk, external: set<Path>, torn: map<Path, nat>, p: Path, tail: string,
                                        lost: nat)
    requires TornFits(disk, torn) && p !in external && p.FrameJournal? && lost <= |tail|
    ensures var disk' := disk[p := (if p in disk then disk[p] else "") + tail];
            var torn' := torn[p := (if p in torn then torn[p] else 0) + lost];
            && TornFits(disk', torn')
            && Sum(Booked(disk', external, torn')) == Sum(Booked(disk, external, torn)) + |tail| - lost
  {
    hide Sum;
    var disk' := disk[p := (if p in disk then disk[p] else "") + tail];
    var torn' := torn[p := (if p in torn then torn[p] else 0) + lost];
    var was := Booked(disk, external, torn);
    var n: nat := (if p in was then was[p] else 0) + |tail| - lost;
    SumWith(was, p, n);
    assert Booked(disk', external, torn') == was[p := n];
  }

  /** Files an open encoder reservation covers are not booked. */
  lemma {:induction false} BookedExternal(disk: Disk, disk': Disk, external: set<Path>, torn: map<Path, nat>)
    requires TornFits(disk, torn) && TornFits(disk', torn)
    requires forall p :: p !in external ==> (p in disk <==> p in disk') && (p in disk ==> disk[p] == disk'[p])
    ensures Booked(disk, external, torn) == Booked(disk', external, torn)
  {
  }

  /** Handing an encoder's files over to the books. */
  lemma {:induction false} BookedHandOver(disk: Disk, external: set<Path>, torn: map<Path, nat>, dir: string)
    requires TornFits(disk, torn) && EncoderFiles(dir) <= external
    ensures Sum(Booked(disk, external - EncoderFiles(dir), torn))
         == Sum(Booked(disk, external, torn))
            + Size(disk, VideoPart(dir)) + Size(disk, VideoJournal(dir)) + Size(disk, AudioPart(dir))
              + Size(disk, AudioJournal(dir))
  {
    hide Sum;
    var e1 := external - {VideoPart(dir)};
    var e2 := e1 - {VideoJournal(dir)};
    var e3 := e2 - {AudioPart(dir)};
    HandOverOne(disk, external, torn, VideoPart(dir));
    HandOverOne(disk, e1, torn, VideoJournal(dir));
    HandOverOne(disk, e2, torn, AudioPart(dir));
    HandOverOne(disk, e3, torn, AudioJournal(dir));
    assert e3 - {AudioJournal(dir)} == external - EncoderFiles(dir);
  }

  lemma {:induction false} HandOverOne(disk: Disk, external: set<Path>, torn: map<Path, nat>, p: Path)
    requires TornFits(disk, torn) && p in external && EncoderFile(p)
    ensures Sum(Booked(disk, external - {p}, torn)) == Sum(Booked(disk, external, torn)) + Size(disk, p)
  {
    hide Sum;
    if p in disk {
      SumWith(Booked(disk, external, torn), p, |disk[p]|);
      assert Booked(disk, external - {p}, torn) == Booked(disk, external, torn)[p := |disk[p]|];
    } else {
      assert Booked(disk, external - {p}, torn) == Booked(disk, external, torn);
    }
  }
}
