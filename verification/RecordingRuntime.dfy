/**
 The background recording worker: several subscriber callbacks put packets on a
 bounded queue, one thread takes them off and writes them to a bundle. Each lock
 region, queue call and flag read of the source is one step; steps of different
 threads interleave freely.
 */
module RecordingRuntime {
  import opened Common

  datatype Packet = Frame(sequence: nat, size: nat) | Audio(sequence: nat, size: nat)

  /** Where one subscriber callback stands inside enqueue. */
  datatype Producer =
    | Idle
    | Checked(p: Packet)   // found the stopping flag clear
    | Reserved(p: Packet)  // added its bytes to the counter
    | Refused(p: Packet)   // the queue was full; the bytes are still counted

  /** Where the worker thread stands inside its loop. */
  datatype Consumer =
    | Testing              // evaluating the loop condition
    | SawStopping          // the flag was set; asks whether the queue is empty
    | Getting              // waits for a packet
    | Holding(p: Packet)   // took a packet, about to write it
    | Written(p: Packet)   // wrote it, has not counted it
    | Counted(p: Packet)   // counted it, still holds its bytes
    | Broken(p: Packet)    // the write raised, still holds its bytes
    | Raised               // the exception leaves the loop
    | Left                 // out of the loop
    | Ended                // finalized

  /** Where the one stop under way stands; a lock keeps out every other. */
  datatype Stopper =
    | NotStopping
    | Asking(final: RecordingState) // found the thread alive
    | Joining                       // asked the worker to stop, waits for the thread
    | Late                          // the deadline is over and the thread alive; wants the state lock

  datatype RecordingState = Recording | Finalized | Canceled | Failed

  datatype Session = Session(
    state: RecordingState, errorCode: string,
    frames: nat, audioChunks: nat, bytes: nat, droppedFrames: nat, droppedAudio: nat)

  /** The thread stays alive for a moment after it has finalized. The last five components are
      history: what was offered, dropped, put and failed, and how many callbacks were still
      inside enqueue when the loop was left. */
  datatype Worker = Worker(
    capacity: nat, maxBytes: nat,
    queue: seq<Packet>, queuedBytes: int, producers: seq<Producer>, consumer: Consumer,
    stopping: bool, requested: RecordingState, alive: bool, stopper: Stopper, session: Session, bundle: seq<Packet>,
    offered: multiset<Packet>, dropped: seq<Packet>, put: seq<Packet>, failed: Option<Packet>, lateProducers: nat)

  datatype FinalizeOutcome = Committed | QuotaExceeded | OtherFailure

  datatype Step =
    | Offer(i: nat, p: Packet)
    | Reserve(i: nat)
    | Put(i: nat)
    | Rollback(i: nat)
    | TestStopping
    | TestEmpty
    | Get
    | Write(ok: bool)
    | Count
    | ReleaseBytes
    | SetError(quota: bool)
    | Finish(outcome: FinalizeOutcome)
    | Exit
    | SeeAlive(final: RecordingState)
    | Stop
    | SeeLate
    | StopTimeout
    | StopReturn

  ghost predicate Init(w: Worker) {
    && w.capacity >= 1
    && w.queue == [] && w.queuedBytes == 0 && w.bundle == []
    && (forall i :: 0 <= i < |w.producers| ==> w.producers[i] == Idle)
    && w.consumer == Testing && !w.stopping && w.requested == Finalized && w.alive && w.stopper == NotStopping
    && w.session == Session(Recording, NO_ERROR, 0, 0, 0, 0, 0)
    && w.offered == multiset{} && w.dropped == [] && w.put == [] && w.failed == None && w.lateProducers == 0
  }

  /** Which steps the threads' positions allow. */
  predicate EnabledAt(producers: seq<Producer>, consumer: Consumer, alive: bool, stopper: Stopper, s: Step) {
    match s
    case Offer(i, _) => i < |producers| && producers[i].Idle?
    case Reserve(i) => i < |producers| && producers[i].Checked?
    case Put(i) => i < |producers| && producers[i].Reserved?
    case Rollback(i) => i < |producers| && producers[i].Refused?
    case TestStopping => consumer.Testing?
    case TestEmpty => consumer.SawStopping?
    case Get => consumer.Getting?
    case Write(_) => consumer.Holding?
    case Count => consumer.Written?
    case ReleaseBytes => consumer.Counted? || consumer.Broken?
    case SetError(_) => consumer.Raised?
    case Finish(_) => consumer.Left?
    case Exit => consumer.Ended? && alive
    case SeeAlive(_) => stopper.NotStopping? && alive
    case Stop => stopper.Asking?
    case SeeLate => stopper.Joining? && alive
    case StopTimeout => stopper.Late?
    case StopReturn => stopper.Joining? && !alive
  }

  predicate Enabled(w: Worker, s: Step) {
    EnabledAt(w.producers, w.consumer, w.alive, w.stopper, s)
  }

  function CountDrop(s: Session, p: Packet): Session {
    if p.Audio? then s.(droppedAudio := s.droppedAudio + 1) else s.(droppedFrames := s.droppedFrames + 1)
  }

  function CountWrite(s: Session, p: Packet): Session {
    (if p.Audio? then s.(audioChunks := s.audioChunks + 1) else s.(frames := s.frames + 1)).(bytes := s.bytes + p.size)
  }

  function Drop(w: Worker, i: nat, p: Packet): Worker
    requires i < |w.producers|
  {
    w.(producers := w.producers[i := Idle], session := CountDrop(w.session, p), dropped := w.dropped + [p])
  }

  function Next(w: Worker, s: Step): Worker
    requires Enabled(w, s)
  {
    match s
    case Offer(i, p) =>
      if w.stopping then w
      else w.(producers := w.producers[i := Checked(p)], offered := w.offered + multiset{p})
    case Reserve(i) =>
      var p := w.producers[i].p;
      if w.maxBytes != 0 && w.queuedBytes + p.size > w.maxBytes then Drop(w, i, p)
      else w.(producers := w.producers[i := Reserved(p)], queuedBytes := w.queuedBytes + p.size)
    case Put(i) =>
      var p := w.producers[i].p;
      if |w.queue| < w.capacity
      then w.(producers := w.producers[i := Idle], queue := w.queue + [p], put := w.put + [p])
      else w.(producers := w.producers[i := Refused(p)])
    case Rollback(i) =>
      var p := w.producers[i].p;
      Drop(w, i, p).(queuedBytes := Max(0, w.queuedBytes - p.size))
    case TestStopping => w.(consumer := if w.stopping then SawStopping else Getting)
    case TestEmpty =>
      if w.queue == [] then w.(consumer := Left, lateProducers := InFlight(w.producers))
      else w.(consumer := Getting)
    case Get =>
      if w.queue == [] then w.(consumer := Testing)
      else w.(consumer := Holding(w.queue[0]), queue := w.queue[1..])
    case Write(ok) =>
      var p := w.consumer.p;
      if ok then w.(consumer := Written(p), bundle := w.bundle + [p])
      else w.(consumer := Broken(p), failed := Some(p))
    case Count =>
      w.(consumer := Counted(w.consumer.p), session := CountWrite(w.session, w.consumer.p))
    case ReleaseBytes =>
      w.(consumer := if w.consumer.Broken? then Raised else Testing,
         queuedBytes := Max(0, w.queuedBytes - w.consumer.p.size))
    case SetError(quota) =>
      w.(consumer := Left, stopping := true,
         session := w.session.(state := Failed, errorCode := if quota then "STORAGE_FULL" else "WRITE_FAILED"))
    case Finish(outcome) =>
      var s := if w.session.state == Recording then w.session.(state := w.requested) else w.session;
      w.(consumer := Ended,
         session := match outcome
                    case Committed => s
                    case QuotaExceeded => s.(state := Failed, errorCode := "STORAGE_FULL")
                    case OtherFailure => s.(state := Failed, errorCode := "FINALIZE_FAILED"))
    case Exit => w.(alive := false)
    case SeeAlive(final) => w.(stopper := Asking(final))
    case Stop => w.(requested := w.stopper.final, stopping := true, stopper := Joining)
    case SeeLate => w.(stopper := Late)
    case StopTimeout =>
      w.(session := w.session.(state := Failed, errorCode := "FINALIZE_TIMEOUT"), stopper := NotStopping)
    case StopReturn => w.(stopper := NotStopping)
  }

  // ---------------------------------------------------------------- measures

  function Bytes(ps: seq<Packet>): nat {
    if ps == [] then 0 else Bytes(ps[..|ps| - 1]) + ps[|ps| - 1].size
  }

  function Audios(ps: seq<Packet>): nat {
    if ps == [] then 0 else Audios(ps[..|ps| - 1]) + (if ps[|ps| - 1].Audio? then 1 else 0)
  }

  function HeldBy(p: Producer): nat {
    if p.Reserved? || p.Refused? then p.p.size else 0
  }

  /** Bytes counted for packets that are in a callback's hands. */
  function ReservedBytes(ps: seq<Producer>): nat {
    if ps == [] then 0 else ReservedBytes(ps[..|ps| - 1]) + HeldBy(ps[|ps| - 1])
  }

  function InFlight(ps: seq<Producer>): nat {
    if ps == [] then 0 else InFlight(ps[..|ps| - 1]) + (if ps[|ps| - 1].Idle? then 0 else 1)
  }

  function Carries(p: Producer, q: Packet): nat {
    if !p.Idle? && p.p == q then 1 else 0
  }

  /** How many callbacks carry the packet q. */
  function Carried(ps: seq<Producer>, q: Packet): nat {
    if ps == [] then 0 else Carried(ps[..|ps| - 1], q) + Carries(ps[|ps| - 1], q)
  }

  function HandBytes(c: Consumer): nat {
    if c.Holding? || c.Written? || c.Counted? || c.Broken? then c.p.size else 0
  }

  function Hand(c: Consumer): seq<Packet> {
    if c.Holding? then [c.p] else []
  }

  function FailedPackets(f: Option<Packet>): seq<Packet> {
    if f.Some? then [f.value] else []
  }

  lemma {:induction false} ProducerMoves(ps: seq<Producer>, i: nat, x: Producer)
    requires i < |ps|
    ensures ReservedBytes(ps[i := x]) == ReservedBytes(ps) - HeldBy(ps[i]) + HeldBy(x)
    ensures InFlight(ps[i := x]) == InFlight(ps) - (if ps[i].Idle? then 0 else 1) + (if x.Idle? then 0 else 1)
  {
    var n := |ps| - 1;
    if i < n {
      assert ps[i := x][..n] == ps[..n][i := x];
      ProducerMoves(ps[..n], i, x);
    } else {
      assert ps[i := x][..n] == ps[..n];
    }
  }

  lemma {:induction false} CarriedMoves(ps: seq<Producer>, i: nat, x: Producer, q: Packet)
    requires i < |ps|
    ensures Carried(ps[i := x], q) == Carried(ps, q) - Carries(ps[i], q) + Carries(x, q)
  {
    var n := |ps| - 1;
    if i < n {
      assert ps[i := x][..n] == ps[..n][i := x];
      CarriedMoves(ps[..n], i, x, q);
    } else {
      assert ps[i := x][..n] == ps[..n];
    }
  }

  lemma {:induction false} SumsAppend(a: seq<Packet>, p: Packet)
    ensures Bytes(a + [p]) == Bytes(a) + p.size
    ensures Audios(a + [p]) == Audios(a) + (if p.Audio? then 1 else 0)
  {
    assert (a + [p])[..|a|] == a;
  }

  lemma {:induction false} BytesTakeFirst(a: seq<Packet>)
    requires a != []
    ensures Bytes(a) == a[0].size + Bytes(a[1..])
  {
    var n := |a| - 1;
    if n > 0 {
      BytesTakeFirst(a[..n]);
      assert a[1..][..n - 1] == a[..n][1..];
    }
  }

  // ---------------------------------------------------------------- the invariant

  /** The byte counter is the queue, the callbacks' reservations and the packet in the
      worker's hand, and stays within its bound. */
  ghost predicate BytesAddUp(w: Worker) {
    && w.queuedBytes == Bytes(w.queue) + ReservedBytes(w.producers) + HandBytes(w.consumer)
    && (w.maxBytes != 0 ==> w.queuedBytes <= w.maxBytes)
    && |w.queue| <= w.capacity
  }

  /** Places of q: how often it was dropped, is carried by a callback, is queued, is in
      the worker's hand, was written, or failed. */
  ghost function Places(w: Worker, q: Packet): nat {
    multiset(w.dropped)[q] + Carried(w.producers, q) + multiset(w.queue)[q]
    + multiset(Hand(w.consumer))[q] + multiset(w.bundle)[q] + multiset(FailedPackets(w.failed))[q]
  }

  /** Every accepted packet is in exactly one place. */
  ghost predicate Conserved(w: Worker) {
    forall q :: w.offered[q] == Places(w, q)
  }

  /** Packets are written in the order they were put. */
  ghost predicate Fifo(w: Worker) {
    w.put == w.bundle + Hand(w.consumer) + FailedPackets(w.failed) + w.queue
  }

  ghost predicate CountsAgree(w: Worker) {
    var uncounted := if w.consumer.Written? then [w.consumer.p] else [];
    && w.session.audioChunks + Audios(uncounted) == Audios(w.bundle)
    && w.session.frames + w.session.audioChunks + |uncounted| == |w.bundle|
    && w.session.bytes + Bytes(uncounted) == Bytes(w.bundle)
    && w.session.droppedAudio == Audios(w.dropped)
    && w.session.droppedFrames + w.session.droppedAudio == |w.dropped|
  }

  ghost predicate Control(w: Worker) {
    && w.capacity >= 1 && (!w.alive ==> w.consumer.Ended?)
    && (w.consumer.SawStopping? || w.consumer.Left? || w.consumer.Ended? ==> w.stopping)
    && (w.failed.Some? ==> w.consumer.Broken? || w.consumer.Raised? || w.consumer.Left? || w.consumer.Ended?)
    && (w.consumer.Broken? || w.consumer.Raised? ==> w.failed.Some?)
    && (w.failed.Some? && (w.consumer.Left? || w.consumer.Ended?) ==> w.session.state != Recording)
    && ((w.consumer.Left? || w.consumer.Ended?) && w.failed.None? ==>
          |w.queue| + InFlight(w.producers) <= w.lateProducers)
  }

  ghost predicate Inv(w: Worker) {
    BytesAddUp(w) && Conserved(w) && Fifo(w) && CountsAgree(w) && Control(w)
  }

  lemma {:induction false} InitInv(w: Worker)
    requires Init(w)
    ensures Inv(w)
  {
    IdleProducers(w.producers);
  }

  lemma {:induction false} IdleProducers(ps: seq<Producer>)
    requires forall i :: 0 <= i < |ps| ==> ps[i] == Idle
    ensures ReservedBytes(ps) == 0 && InFlight(ps) == 0 && forall q :: Carried(ps, q) == 0
  {
    if ps != [] {
      IdleProducers(ps[..|ps| - 1]);
    }
  }

  predicate ByProducer(s: Step) {
    s.Offer? || s.Reserve? || s.Put? || s.Rollback?
  }

  function PacketOf(w: Worker, s: Step): Packet
    requires Enabled(w, s) && ByProducer(s)
  {
    if s.Offer? then s.p else w.producers[s.i].p
  }

  lemma {:induction false} ProducerStepMoves(w: Worker, s: Step)
    requires Enabled(w, s) && ByProducer(s)
    ensures var before, after := w.producers[s.i], Next(w, s).producers[s.i];
            && |Next(w, s).producers| == |w.producers|
            && ReservedBytes(Next(w, s).producers) == ReservedBytes(w.producers) - HeldBy(before) + HeldBy(after)
            && InFlight(Next(w, s).producers)
               == InFlight(w.producers) - (if before.Idle? then 0 else 1) + (if after.Idle? then 0 else 1)
  {
    hide ReservedBytes, InFlight;
    var w' := Next(w, s);
    assert w'.producers == w.producers[s.i := w'.producers[s.i]];
    ProducerMoves(w.producers, s.i, w'.producers[s.i]);
  }

  lemma {:induction false} ProducersKeepBytes(w: Worker, s: Step)
    requires BytesAddUp(w) && Enabled(w, s) && ByProducer(s)
    ensures BytesAddUp(Next(w, s))
  {
    hide InFlight, ReservedBytes, Bytes, CountDrop;
    ProducerStepMoves(w, s);
    match s
    case Put(_) => SumsAppend(w.queue, PacketOf(w, s));
    case _ =>
  }

  lemma {:induction false} ConsumerKeepsBytes(w: Worker, s: Step)
    requires BytesAddUp(w) && Enabled(w, s) && !ByProducer(s)
    ensures BytesAddUp(Next(w, s))
  {
    hide ReservedBytes, InFlight, CountWrite;
    if s.Get? && w.queue != [] {
      BytesTakeFirst(w.queue);
    }
  }

  lemma {:induction false} AppendCounts(a: seq<Packet>, p: Packet, q: Packet)
    ensures multiset(a + [p])[q] == multiset(a)[q] + (if p == q then 1 else 0)
  {
    assert multiset(a + [p]) == multiset(a) + multiset{p};
  }

  lemma {:induction false} PutEffect(w: Worker, i: nat)
    requires Enabled(w, Put(i))
    ensures i < |w.producers| && w.producers[i].Reserved?
    ensures var p := w.producers[i].p;
            Next(w, Put(i)) == if |w.queue| < w.capacity
                               then w.(producers := w.producers[i := Idle], queue := w.queue + [p], put := w.put + [p])
                               else w.(producers := w.producers[i := Refused(p)])
  {
  }

  lemma {:induction false} PutMovesPacket(w: Worker, i: nat, q: Packet)
    requires Enabled(w, Put(i))
    ensures Places(Next(w, Put(i)), q) == Places(w, q)
  {
    hide Places, Next, Enabled;
    PutEffect(w, i);
    if |w.queue| < w.capacity {
      QueuedMovesPacket(w, i, q);
    } else {
      RefusedMovesPacket(w, i, q);
    }
  }

  lemma {:induction false} QueuedMovesPacket(w: Worker, i: nat, q: Packet)
    requires i < |w.producers| && w.producers[i].Reserved?
    ensures var p := w.producers[i].p;
            Places(w.(producers := w.producers[i := Idle], queue := w.queue + [p], put := w.put + [p]), q)
              == Places(w, q)
  {
    hide Carried;
    CarriedMoves(w.producers, i, Idle, q);
    AppendCounts(w.queue, w.producers[i].p, q);
  }

  lemma {:induction false} RefusedMovesPacket(w: Worker, i: nat, q: Packet)
    requires i < |w.producers| && w.producers[i].Reserved?
    ensures Places(w.(producers := w.producers[i := Refused(w.producers[i].p)]), q) == Places(w, q)
  {
    hide Carried;
    CarriedMoves(w.producers, i, Refused(w.producers[i].p), q);
  }

  lemma {:induction false} DropMovesPacket(w: Worker, i: nat, q: Packet)
    requires i < |w.producers| && !w.producers[i].Idle?
    ensures Places(Drop(w, i, w.producers[i].p), q) == Places(w, q)
  {
    hide Carried, CountDrop;
    CarriedMoves(w.producers, i, Idle, q);
    AppendCounts(w.dropped, w.producers[i].p, q);
  }

  lemma {:induction false} OfferMovesPacket(w: Worker, i: nat, p: Packet, q: Packet)
    requires Enabled(w, Offer(i, p))
    ensures Places(Next(w, Offer(i, p)), q) - Places(w, q) == Next(w, Offer(i, p)).offered[q] - w.offered[q]
  {
    hide Carried;
    CarriedMoves(w.producers, i, Checked(p), q);
  }

  lemma {:induction false} ReserveMovesPacket(w: Worker, i: nat, q: Packet)
    requires Enabled(w, Reserve(i))
    ensures Places(Next(w, Reserve(i)), q) == Places(w, q)
  {
    hide Carried, CountDrop;
    var w' := Next(w, Reserve(i));
    if w'.producers[i].Idle? {
      DropMovesPacket(w, i, q);
    } else {
      CarriedMoves(w.producers, i, w'.producers[i], q);
    }
  }

  lemma {:induction false} RollbackMovesPacket(w: Worker, i: nat, q: Packet)
    requires Enabled(w, Rollback(i))
    ensures Places(Next(w, Rollback(i)), q) == Places(w, q)
  {
    hide Carried, CountDrop;
    DropMovesPacket(w, i, q);
  }

  lemma {:induction false} ProducersMovePackets(w: Worker, s: Step, q: Packet)
    requires Enabled(w, s) && ByProducer(s)
    ensures Places(Next(w, s), q) - Places(w, q) == Next(w, s).offered[q] - w.offered[q]
  {
    hide Places;
    match s
    case Offer(i, p) => OfferMovesPacket(w, i, p, q);
    case Reserve(i) => ReserveMovesPacket(w, i, q);
    case Put(i) => PutMovesPacket(w, i, q);
    case Rollback(i) => RollbackMovesPacket(w, i, q);
  }

  lemma {:induction false} GetEffect(w: Worker)
    requires Enabled(w, Get) && w.queue != []
    ensures Next(w, Get) == w.(consumer := Holding(w.queue[0]), queue := w.queue[1..]) && w.consumer.Getting?
  {
  }

  lemma {:induction false} GetMovesPacket(w: Worker, q: Packet)
    requires Enabled(w, Get) && w.queue != []
    ensures Places(Next(w, Get), q) == Places(w, q)
  {
    hide Carried, Next, Enabled;
    GetEffect(w);
    FirstCounts(w.queue, q);
    HandCounts(w.queue[0], q);
  }

  lemma {:induction false} FirstCounts(a: seq<Packet>, q: Packet)
    requires a != []
    ensures multiset(a)[q] == multiset(a[1..])[q] + (if a[0] == q then 1 else 0)
  {
    assert a == [a[0]] + a[1..];
    assert multiset(a) == multiset{a[0]} + multiset(a[1..]);
  }

  lemma {:induction false} HandCounts(p: Packet, q: Packet)
    ensures multiset([p])[q] == (if p == q then 1 else 0) && multiset([])[q] == 0
  {
  }

  lemma {:induction false} WriteEffect(w: Worker, ok: bool)
    requires Enabled(w, Write(ok))
    ensures w.consumer.Holding?
    ensures var p := w.consumer.p;
            Next(w, Write(ok)) == if ok then w.(consumer := Written(p), bundle := w.bundle + [p])
                                  else w.(consumer := Broken(p), failed := Some(p))
  {
  }

  lemma {:induction false} WriteMovesPacket(w: Worker, ok: bool, q: Packet)
    requires Enabled(w, Write(ok)) && w.failed == None
    ensures Places(Next(w, Write(ok)), q) == Places(w, q)
  {
    hide Carried, Next, Enabled;
    WriteEffect(w, ok);
    AppendCounts(w.bundle, w.consumer.p, q);
    HandCounts(w.consumer.p, q);
  }

  /** The other steps of the worker, and the ones that stop it, move no packet. */
  lemma {:induction false} QuietEffect(w: Worker, s: Step)
    requires Enabled(w, s) && !ByProducer(s) && !s.Write? && (s.Get? ==> w.queue == [])
    ensures var w' := Next(w, s);
            && w'.queue == w.queue && w'.put == w.put && w'.bundle == w.bundle && w'.dropped == w.dropped
               && w'.failed == w.failed
            && w'.producers == w.producers && w'.offered == w.offered && Hand(w'.consumer) == Hand(w.consumer)
  {
    hide InFlight, CountWrite;
  }

  lemma {:induction false} ConsumerMovesPackets(w: Worker, s: Step, q: Packet)
    requires Enabled(w, s) && !ByProducer(s) && Control(w)
    ensures Places(Next(w, s), q) == Places(w, q) && Next(w, s).offered == w.offered
  {
    hide Carried, InFlight, ReservedBytes, Hand, CountWrite;
    if s.Get? && w.queue != [] {
      GetMovesPacket(w, q);
    } else if s.Write? {
      WriteMovesPacket(w, s.ok, q);
    } else {
      QuietEffect(w, s);
    }
  }

  lemma {:induction false} StepsConserve(w: Worker, s: Step)
    requires Conserved(w) && Control(w) && Enabled(w, s)
    ensures Conserved(Next(w, s))
  {
    hide Places, Next, Control;
    forall q ensures Next(w, s).offered[q] == Places(Next(w, s), q) {
      assert w.offered[q] == Places(w, q);
      if ByProducer(s) {
        ProducersMovePackets(w, s, q);
      } else {
        ConsumerMovesPackets(w, s, q);
      }
    }
  }

  lemma {:induction false} ProducersKeepOrder(w: Worker, s: Step)
    requires Fifo(w) && Enabled(w, s) && ByProducer(s)
    ensures Fifo(Next(w, s))
  {
    hide InFlight, CountDrop;
    if s.Put? {
      var p := w.producers[s.i].p;
      assert w.put + [p] == w.bundle + Hand(w.consumer) + FailedPackets(w.failed) + (w.queue + [p]);
    }
  }

  lemma {:induction false} StepsKeepOrder(w: Worker, s: Step)
    requires Fifo(w) && Control(w) && Enabled(w, s)
    ensures Fifo(Next(w, s))
  {
    hide InFlight, Next;
    if ByProducer(s) {
      ProducersKeepOrder(w, s);
    } else if s.Get? && w.queue != [] {
      GetEffect(w);
      assert w.queue == [w.queue[0]] + w.queue[1..];
    } else if s.Write? {
      WriteEffect(w, s.ok);
    } else {
      QuietEffect(w, s);
    }
  }

  lemma {:induction false} DropKeepsCounts(w: Worker, w': Worker, i: nat)
    requires CountsAgree(w) && i < |w.producers| && !w.producers[i].Idle?
    requires w' == Drop(w, i, w.producers[i].p).(queuedBytes := w'.queuedBytes)
    ensures CountsAgree(w')
  {
    hide Audios, Bytes;
    SumsAppend(w.dropped, w.producers[i].p);
  }

  lemma {:induction false} WriteKeepsCounts(w: Worker, ok: bool)
    requires CountsAgree(w) && Enabled(w, Write(ok))
    ensures CountsAgree(Next(w, Write(ok)))
  {
    SumsAppend(w.bundle, w.consumer.p);
  }

  lemma {:induction false} ReserveKeepsCounts(w: Worker, i: nat)
    requires CountsAgree(w) && Enabled(w, Reserve(i))
    ensures CountsAgree(Next(w, Reserve(i)))
  {
    hide InFlight, Audios, Bytes, CountDrop;
    if Next(w, Reserve(i)).producers[i].Idle? {
      DropKeepsCounts(w, Next(w, Reserve(i)), i);
    }
  }

  lemma {:induction false} CountKeepsCounts(w: Worker)
    requires CountsAgree(w) && Enabled(w, Count)
    ensures CountsAgree(Next(w, Count))
  {
    hide InFlight, Audios, Bytes, CountDrop;
    assert [w.consumer.p] == [] + [w.consumer.p];
    SumsAppend([], Frame(0, 0));
    SumsAppend([], w.consumer.p);
  }

  lemma {:induction false} StepsKeepCounts(w: Worker, s: Step)
    requires CountsAgree(w) && Enabled(w, s)
    ensures CountsAgree(Next(w, s))
  {
    hide InFlight, Audios, Bytes, CountDrop, CountWrite, Drop;
    match s
    case Reserve(i) => ReserveKeepsCounts(w, i);
    case Rollback(i) => DropKeepsCounts(w, Next(w, s), i);
    case Write(ok) => WriteKeepsCounts(w, ok);
    case Count => CountKeepsCounts(w);
    case _ =>
  }

  lemma {:induction false} StepsKeepControl(w: Worker, s: Step)
    requires Control(w) && Enabled(w, s)
    ensures Control(Next(w, s))
  {
    hide InFlight, ReservedBytes;
    if ByProducer(s) {
      ProducerStepMoves(w, s);
    }
  }

  lemma {:induction false} StepInv(w: Worker, s: Step)
    requires Inv(w) && Enabled(w, s)
    ensures Inv(Next(w, s))
  {
    hide BytesAddUp, Conserved, Fifo, CountsAgree;
    if ByProducer(s) {
      ProducersKeepBytes(w, s);
    } else {
      ConsumerKeepsBytes(w, s);
    }
    StepsConserve(w, s);
    StepsKeepOrder(w, s);
    StepsKeepCounts(w, s);
    StepsKeepControl(w, s);
  }

  // ---------------------------------------------------------------- whole runs

  /** An interleaving: each step is enabled where it is taken. */
  ghost predicate IsRun(states: seq<Worker>, steps: seq<Step>) {
    IsPath(states, steps) && Init(states[0])
  }

  ghost predicate IsPath(states: seq<Worker>, steps: seq<Step>) {
    |states| == |steps| + 1 && forall i :: 0 <= i < |steps| ==> Moves(states[i], steps[i], states[i + 1])
  }

  ghost predicate Moves(w: Worker, s: Step, w': Worker) {
    Enabled(w, s) && w' == Next(w, s)
  }

  /** In every interleaving the byte counter adds up and stays in bounds, no packet is
      lost or duplicated, writes follow the put order, and the counters agree. */
  lemma {:induction false} EveryRunIsSound(states: seq<Worker>, steps: seq<Step>, i: nat)
    requires IsRun(states, steps) && i < |states|
    ensures Inv(states[i])
  {
    hide Inv;
    if i == 0 {
      InitInv(states[0]);
    } else {
      EveryRunIsSound(states, steps, i - 1);
      assert Moves(states[i - 1], steps[i - 1], states[i]);
      StepInv(states[i - 1], steps[i - 1]);
    }
  }

  /** Giving bytes back never has to be cut off at zero. */
  lemma {:induction false} ReleasesNeverClamp(states: seq<Worker>, steps: seq<Step>, i: nat)
    requires IsRun(states, steps) && i < |steps|
    ensures Enabled(states[i], steps[i])
    ensures steps[i].Rollback? ==> states[i].queuedBytes >= states[i].producers[steps[i].i].p.size
    ensures steps[i].ReleaseBytes? ==> states[i].queuedBytes >= states[i].consumer.p.size
  {
    hide ReservedBytes, Conserved, Fifo, CountsAgree, Control;
    EveryRunIsSound(states, steps, i);
    assert Moves(states[i], steps[i], states[i + 1]);
    if steps[i].Rollback? {
      HeldIsReserved(states[i].producers, steps[i].i);
    }
  }

  lemma {:induction false} HeldIsReserved(ps: seq<Producer>, i: nat)
    requires i < |ps|
    ensures HeldBy(ps[i]) <= ReservedBytes(ps)
  {
    if i < |ps| - 1 {
      HeldIsReserved(ps[..|ps| - 1], i);
    }
  }

  /** Nothing left anywhere: everything put was written, everything offered was written or
      dropped, and the session counts what the bundle holds. */
  ghost predicate Drained(w: Worker) {
    && w.queue == [] && w.queuedBytes == 0
    && w.bundle == w.put
    && w.offered == multiset(w.dropped) + multiset(w.bundle)
    && w.session.frames + w.session.audioChunks == |w.bundle|
    && w.session.audioChunks == Audios(w.bundle)
    && w.session.bytes == Bytes(w.bundle)
  }

  /** It ended without error, and no callback was inside enqueue when the loop was left. */
  predicate EndedCleanly(w: Worker) {
    w.consumer.Ended? && w.failed.None? && w.lateProducers == 0
  }

  lemma {:induction false} CleanExitDrains(w: Worker)
    requires Inv(w) && EndedCleanly(w)
    ensures Drained(w)
  {
    NoneInFlight(w.producers);
    forall q ensures w.offered[q] == (multiset(w.dropped) + multiset(w.bundle))[q] {
      assert w.offered[q] == Places(w, q);
    }
  }

  lemma {:induction false} NoneInFlight(ps: seq<Producer>)
    ensures InFlight(ps) == 0 ==> ReservedBytes(ps) == 0 && forall q :: Carried(ps, q) == 0
  {
    if ps != [] {
      NoneInFlight(ps[..|ps| - 1]);
    }
  }

  /** A packet is dropped at once exactly when its bytes and those queued, reserved and in hand
      exceed the bound. */
  lemma {:induction false} ReserveDropsExactly(w: Worker, i: nat)
    requires Inv(w) && Enabled(w, Reserve(i))
    ensures i < |w.producers| && w.producers[i].Checked?
    ensures var p, t := w.producers[i].p, Next(w, Reserve(i));
            var full := w.maxBytes != 0
                        && Bytes(w.queue) + ReservedBytes(w.producers) + HandBytes(w.consumer) + p.size > w.maxBytes;
            && t.producers == w.producers[i := if full then Idle else Reserved(p)]
            && t.dropped == (if full then w.dropped + [p] else w.dropped)
  {
    hide Conserved, Fifo, CountsAgree, Control, CountDrop, Bytes, ReservedBytes, InFlight, HandBytes;
  }

  /** A reserved packet is turned away by the queue exactly when that is full, and only then
      dropped. What is offered before stopping is let in. */
  lemma {:induction false} QueueRefusesExactly(w: Worker, s: Step)
    requires Inv(w) && Enabled(w, s) && (s.Put? || s.Offer? || s.Rollback?)
    ensures s.i < |w.producers|
    ensures s.Offer? ==> Next(w, s).producers == w.producers[s.i := if w.stopping then Idle else Checked(s.p)]
    ensures s.Put? ==>
              var p, t := w.producers[s.i].p, Next(w, s);
              && t.producers == w.producers[s.i := if |w.queue| == w.capacity then Refused(p) else Idle]
              && t.queue == (if |w.queue| == w.capacity then w.queue else w.queue + [p]) && t.dropped == w.dropped
    ensures s.Rollback? ==>
              var p, t := w.producers[s.i].p, Next(w, s);
              t.producers == w.producers[s.i := Idle] && t.dropped == w.dropped + [p]
  {
    hide Conserved, Fifo, CountsAgree, Control, CountDrop, Bytes, ReservedBytes, InFlight, HandBytes;
  }

  // ---------------------------------------------------------------- packets left behind

  /** A callback that can still put its packet after the loop was left. */
  predicate Threatens(w: Worker, p: Producer) {
    p.Reserved? || (p.Checked? && (w.maxBytes == 0 || p.p.size <= w.maxBytes))
  }

  ghost predicate Threatened(w: Worker) {
    exists i :: 0 <= i < |w.producers| && Threatens(w, w.producers[i])
  }

  /** Some continuation ends with a packet nobody will write. */
  ghost predicate CanStrand(w: Worker) {
    exists states, steps :: IsPath(states, steps) && states[0] == w && Stranded(states[|states| - 1])
  }

  predicate Stranded(w: Worker) {
    w.consumer.Ended? && w.queue != []
  }

  ghost predicate Quiet(w: Worker) {
    Inv(w) && (w.consumer.Left? || w.consumer.Ended?) && w.queue == [] && !Threatened(w)
  }

  lemma {:induction false} InvBounds(w: Worker)
    requires Inv(w)
    ensures w.queuedBytes >= 0 && (w.consumer.Left? || w.consumer.Ended? ==> w.stopping)
  {
  }

  lemma {:induction false} QuietProducer(w: Worker, s: Step)
    requires Enabled(w, s) && ByProducer(s) && w.stopping && w.queuedBytes >= 0 && w.queue == [] && !Threatened(w)
    ensures Next(w, s).queue == [] && Next(w, s).consumer == w.consumer && !Threatened(Next(w, s))
  {
    hide CountDrop, InFlight;
    assert !Threatens(w, w.producers[s.i]);
    var t := Next(w, s);
    assert t.producers == w.producers[s.i := t.producers[s.i]] && t.maxBytes == w.maxBytes;
    assert !Threatens(t, t.producers[s.i]);
    ThreatElsewhere(w, t, s.i);
  }

  lemma {:induction false} ThreatElsewhere(w: Worker, t: Worker, i: nat)
    requires i < |w.producers| && i < |t.producers| && t.producers == w.producers[i := t.producers[i]]
             && t.maxBytes == w.maxBytes
    requires !Threatened(w) && !Threatens(t, t.producers[i])
    ensures !Threatened(t)
  {
    forall k | 0 <= k < |t.producers| ensures !Threatens(t, t.producers[k]) {
      assert !Threatens(w, w.producers[k]);
    }
  }

  lemma {:induction false} QuietWorker(w: Worker, s: Step)
    requires Enabled(w, s) && !ByProducer(s) && (w.consumer.Left? || w.consumer.Ended?) && w.queue == []
    ensures var t := Next(w, s);
            t.queue == [] && (t.consumer.Left? || t.consumer.Ended?) && t.producers == w.producers
              && t.maxBytes == w.maxBytes
  {
    hide InFlight, CountWrite;
  }

  lemma {:induction false} QuietStep(w: Worker, s: Step)
    requires Quiet(w) && Enabled(w, s)
    ensures Quiet(Next(w, s))
  {
    hide Inv, Next;
    StepInv(w, s);
    InvBounds(w);
    if ByProducer(s) {
      QuietProducer(w, s);
    } else {
      QuietWorker(w, s);
      assert forall i :: 0 <= i < |w.producers| ==>
             (Threatens(Next(w, s), w.producers[i]) <==> Threatens(w, w.producers[i]));
    }
  }

  lemma {:induction false} StaysQuiet(states: seq<Worker>, steps: seq<Step>, k: nat)
    requires IsPath(states, steps) && Quiet(states[0]) && k < |states|
    ensures Quiet(states[k])
  {
    hide Quiet, Enabled, Next;
    if k > 0 {
      StaysQuiet(states, steps, k - 1);
      assert Moves(states[k - 1], steps[k - 1], states[k]);
      QuietStep(states[k - 1], steps[k - 1]);
    }
  }

  lemma {:induction false} PathCons(w: Worker, s: Step, states: seq<Worker>, steps: seq<Step>)
    requires IsPath(states, steps) && Moves(w, s, states[0])
    ensures IsPath([w] + states, [s] + steps)
  {
    hide Moves;
    forall i | 0 <= i < |[s] + steps| ensures Moves(([w] + states)[i], ([s] + steps)[i], ([w] + states)[i + 1]) {
      if i > 0 {
        assert Moves(states[i - 1], steps[i - 1], states[i]);
      }
    }
  }

  lemma {:induction false} NothingHeld(ps: seq<Producer>)
    requires forall i :: 0 <= i < |ps| ==> HeldBy(ps[i]) == 0
    ensures ReservedBytes(ps) == 0
  {
    if ps != [] {
      NothingHeld(ps[..|ps| - 1]);
    }
  }

  /** A reserved packet is put, and the worker ends. */
  lemma {:induction false} StrandReserved(w: Worker, i: nat) returns (states: seq<Worker>, steps: seq<Step>)
    requires Inv(w) && w.consumer.Left? && w.queue == [] && i < |w.producers| && w.producers[i].Reserved?
    ensures IsPath(states, steps) && states[0] == w && Stranded(states[|states| - 1])
  {
    hide Conserved, Fifo, CountsAgree, BytesAddUp;
    var s1 := Next(w, Put(i));
    var s2 := Next(s1, Finish(Committed));
    states, steps := [w, s1, s2], [Put(i), Finish(Committed)];
    assert Moves(w, Put(i), s1) && Moves(s1, Finish(Committed), s2);
  }

  /** Refused callbacks roll back first; then the packet fits, is reserved, and put. */
  lemma {:induction false} Strand(w: Worker, i: nat) returns (states: seq<Worker>, steps: seq<Step>)
    requires Inv(w) && w.consumer.Left? && w.queue == [] && i < |w.producers| && Threatens(w, w.producers[i])
    ensures IsPath(states, steps) && states[0] == w && Stranded(states[|states| - 1])
    decreases InFlight(w.producers), if w.producers[i].Checked? then 1 else 0
  {
    hide Conserved, Fifo, CountsAgree, InFlight, ReservedBytes, IsPath, Stranded, CountDrop;
    if w.producers[i].Reserved? {
      states, steps := StrandReserved(w, i);
    } else if j :| 0 <= j < |w.producers| && w.producers[j].Reserved? {
      states, steps := StrandReserved(w, j);
    } else {
      var s := Reserve(i);
      if j :| 0 <= j < |w.producers| && w.producers[j].Refused? {
        s := Rollback(j);
      } else {
        NothingHeld(w.producers);
      }
      StepInv(w, s);
      ProducerStepMoves(w, s);
      var restStates, restSteps := Strand(Next(w, s), i);
      PathCons(w, s, restStates, restSteps);
      states, steps := [w] + restStates, [s] + restSteps;
      EndOfCons(w, restStates);
      PathNonempty(restStates, restSteps);
    }
  }

  lemma {:induction false} PathNonempty(states: seq<Worker>, steps: seq<Step>)
    requires IsPath(states, steps)
    ensures states != []
  {
  }

  lemma {:induction false} EndOfCons(w: Worker, states: seq<Worker>)
    ensures states != [] ==> ([w] + states)[|[w] + states| - 1] == states[|states| - 1]
  {
  }

  /** From a state just after the loop was left with an empty queue and no failure, a packet
      can be left behind if and only if a callback holds a reservation, or has passed the
      flag check with a packet the byte bound admits. */
  lemma {:induction false} StrandsExactly(w: Worker)
    requires Inv(w) && w.consumer.Left? && w.failed.None? && w.queue == []
    ensures CanStrand(w) <==> Threatened(w)
  {
    hide Inv, Stranded;
    if Threatened(w) {
      var i :| 0 <= i < |w.producers| && Threatens(w, w.producers[i]);
      var states, steps := Strand(w, i);
    } else if CanStrand(w) {
      var states, steps :| IsPath(states, steps) && states[0] == w && Stranded(states[|states| - 1]);
      PathNonempty(states, steps);
      StaysQuiet(states, steps, |states| - 1);
      QuietIsNotStranded(states[|states| - 1]);
    }
  }

  lemma {:induction false} QuietIsNotStranded(w: Worker)
    requires Quiet(w)
    ensures !Stranded(w)
  {
  }

  lemma {:induction false} ReservesOne(w: Worker, p: Packet) returns (s1: Worker, s2: Worker)
    requires Init(w) && w.producers != [] && (w.maxBytes == 0 || p.size <= w.maxBytes)
    ensures Moves(w, Offer(0, p), s1) && Moves(s1, Reserve(0), s2)
    ensures s2.producers != [] && s2.producers[0] == Reserved(p) && s2.queue == [] && s2.failed == None
    ensures s2.consumer == Testing && s2.alive && s2.stopper == NotStopping
  {
    hide CountDrop, InFlight;
    s1 := Next(w, Offer(0, p));
    s2 := Next(s1, Reserve(0));
  }

  lemma {:induction false} LeavesEmpty(w: Worker) returns (s1: Worker, s2: Worker, s3: Worker, s4: Worker)
    requires w.consumer == Testing && w.alive && w.stopper == NotStopping && w.queue == []
    ensures Moves(w, SeeAlive(Finalized), s1) && Moves(s1, Stop, s2) && Moves(s2, TestStopping, s3)
            && Moves(s3, TestEmpty, s4)
    ensures s4.consumer.Left? && s4.queue == [] && s4.producers == w.producers && s4.failed == w.failed
  {
    hide InFlight;
    s1 := Next(w, SeeAlive(Finalized));
    s2 := Next(s1, Stop);
    s3 := Next(s2, TestStopping);
    s4 := Next(s3, TestEmpty);
  }

  /** A worker reaches such a state with any packet its byte bound admits, whatever the number
      of callbacks. */
  lemma {:induction false} LeavesWithOneReserved(w: Worker, p: Packet) returns (states: seq<Worker>, steps: seq<Step>)
    requires Init(w) && w.producers != [] && (w.maxBytes == 0 || p.size <= w.maxBytes)
    ensures IsRun(states, steps) && states[0] == w
    ensures var last := states[|states| - 1];
            last.consumer.Left? && last.failed.None? && last.queue == [] && last.producers != []
              && last.producers[0] == Reserved(p)
  {
    hide Moves, Init;
    var s1, s2 := ReservesOne(w, p);
    var s3, s4, s5, s6 := LeavesEmpty(s2);
    states, steps := [w, s1, s2, s3, s4, s5, s6],
      [Offer(0, p), Reserve(0), SeeAlive(Finalized), Stop, TestStopping, TestEmpty];
  }

  // ---------------------------------------------------------------- stopping terminates

  predicate ByStopper(s: Step) {
    s.SeeAlive? || s.Stop? || s.SeeLate? || s.StopTimeout? || s.StopReturn?
  }

  predicate ByConsumer(s: Step) {
    !ByProducer(s) && !ByStopper(s)
  }

  /** How far the worker is from its end once stopping is set. */
  function Distance(w: Worker): nat {
    8 * |w.queue| +
    match w.consumer
    case Holding(_) => 7
    case Written(_) => 6
    case Counted(_) => 5
    case Broken(_) => 6
    case Raised => 5
    case Getting => if w.queue == [] then 5 else 2
    case Testing => 4
    case SawStopping => 3
    case Left => 2
    case Ended => if w.alive then 1 else 0
  }

  /** Once stopping is set, the worker always has a step to take until its thread has exited,
      and each of its steps brings it closer: it drains the queue, finalizes and exits. */
  lemma {:induction false} StoppingWorkerAdvances(w: Worker)
    requires w.stopping
    ensures w.alive ==> exists s :: ByConsumer(s) && Enabled(w, s)
    ensures forall s :: ByConsumer(s) && Enabled(w, s) ==> Next(w, s).stopping && Distance(Next(w, s)) < Distance(w)
  {
    if w.alive {
      var s := match w.consumer
        case Testing => TestStopping
        case SawStopping => TestEmpty
        case Getting => Get
        case Holding(_) => Write(true)
        case Written(_) => Count
        case Counted(_) => ReleaseBytes
        case Broken(_) => ReleaseBytes
        case Raised => SetError(false)
        case Left => Finish(Committed)
        case Ended => Exit;
      assert ByConsumer(s) && Enabled(w, s);
    }
  }

  // ---------------------------------------------------------------- late deadlines

  /** Some continuation overwrites the session with FINALIZE_TIMEOUT. */
  ghost predicate CanTimeOut(w: Worker) {
    exists states, steps :: IsPath(states, steps) && states[0] == w && steps != [] && steps[|steps| - 1] == StopTimeout
  }

  /** The thread is gone and no stop has already found it alive. */
  predicate PastDeadlines(w: Worker) {
    !w.alive && !w.stopper.Late?
  }

  lemma {:induction false} StaysPast(states: seq<Worker>, steps: seq<Step>, k: nat)
    requires IsPath(states, steps) && PastDeadlines(states[0]) && k < |states|
    ensures PastDeadlines(states[k]) && (k < |steps| ==> steps[k] != StopTimeout)
  {
    hide CountDrop, CountWrite, InFlight;
    if k > 0 {
      StaysPast(states, steps, k - 1);
      assert Moves(states[k - 1], steps[k - 1], states[k]);
    }
    assert k < |steps| ==> Moves(states[k], steps[k], states[k + 1]);
  }

  lemma {:induction false} TimesOut(w: Worker) returns (states: seq<Worker>, steps: seq<Step>)
    requires !PastDeadlines(w)
    ensures IsPath(states, steps) && states[0] == w && steps != [] && steps[|steps| - 1] == StopTimeout
    decreases match w.stopper case NotStopping => 3 case Asking(_) => 2 case Joining => 1 case Late => 0
  {
    hide CountDrop, CountWrite, InFlight, IsPath;
    var s := match w.stopper
      case NotStopping => SeeAlive(Finalized)
      case Asking(_) => Stop
      case Joining => SeeLate
      case Late => StopTimeout;
    var t := Next(w, s);
    if s == StopTimeout {
      states, steps := [w, t], [s];
      OneStep(w, s);
    } else {
      states, steps := TimesOut(t);
      PathCons(w, s, states, steps);
      states, steps := [w] + states, [s] + steps;
    }
  }

  lemma {:induction false} OneStep(w: Worker, s: Step)
    requires Enabled(w, s)
    ensures IsPath([w, Next(w, s)], [s])
  {
    hide Enabled, Next;
  }

  /** From any state, finalized or not, a stop can still overwrite the session with
      FINALIZE_TIMEOUT if and only if the thread has not exited or a stop has found it alive
      after its deadline. */
  lemma {:induction false} TimesOutExactly(w: Worker)
    ensures CanTimeOut(w) <==> w.alive || w.stopper.Late?
  {
    if w.alive || w.stopper.Late? {
      var states, steps := TimesOut(w);
    } else if CanTimeOut(w) {
      var states, steps :| IsPath(states, steps) && states[0] == w && steps != [] && steps[|steps| - 1] == StopTimeout;
      StaysPast(states, steps, |steps| - 1);
    }
  }

  // ---------------------------------------------------------------- what the session says

  predicate Fails(s: Step) {
    s.SetError? || s.StopTimeout? || (s.Finish? && s.outcome != Committed)
  }

  /** The code of a failure. */
  ghost predicate FailsWith(s: Step, code: string) {
    match s
    case SetError(quota) => code == if quota then "STORAGE_FULL" else "WRITE_FAILED"
    case StopTimeout => code == "FINALIZE_TIMEOUT"
    case Finish(outcome) =>
      (outcome == QuotaExceeded && code == "STORAGE_FULL") || (outcome == OtherFailure && code == "FINALIZE_FAILED")
    case _ => false
  }

  /** The j-th step is the last failure among the first n. */
  ghost predicate LastFailure(steps: seq<Step>, j: nat, n: nat)
    requires n <= |steps|
  {
    j < n && Fails(steps[j]) && forall k :: j < k < n ==> !Fails(steps[k])
  }

  lemma {:induction false} StepSays(w: Worker, s: Step)
    requires Enabled(w, s)
    ensures var t := Next(w, s);
            && (Fails(s) ==> t.session.state == Failed && FailsWith(s, t.session.errorCode))
            && (!Fails(s) ==> t.session.errorCode == w.session.errorCode)
            && (!Fails(s) && !s.Finish? ==> t.session.state == w.session.state)
            && (!Fails(s) && s.Finish? ==>
                  t.session.state == if w.session.state == Recording then w.requested else w.session.state)
            && (w.consumer.Ended? ==> t.consumer.Ended? && !s.Finish?) && (s.Finish? ==> t.consumer.Ended?)
            && t.requested == (if s.Stop? then w.stopper.final else w.requested)
  {
    hide InFlight;
  }

  lemma {:induction false} EndsWithFinish(states: seq<Worker>, steps: seq<Step>, k: nat, n: nat)
    requires IsRun(states, steps) && k < n <= |steps| && steps[k].Finish?
    ensures states[n].consumer.Ended? && forall l :: k < l < n ==> !steps[l].Finish?
    decreases n
  {
    hide Enabled, Next, FailsWith, Fails;
    assert Moves(states[n - 1], steps[n - 1], states[n]);
    StepSays(states[n - 1], steps[n - 1]);
    if k < n - 1 {
      EndsWithFinish(states, steps, k, n - 1);
    }
  }

  lemma {:induction false} FailureSays(states: seq<Worker>, steps: seq<Step>, j: nat, n: nat)
    requires IsRun(states, steps) && n <= |steps| && LastFailure(steps, j, n)
    ensures states[n].session.state == Failed && FailsWith(steps[j], states[n].session.errorCode)
    decreases n
  {
    hide Enabled, Next, FailsWith, Fails;
    assert Moves(states[n - 1], steps[n - 1], states[n]);
    StepSays(states[n - 1], steps[n - 1]);
    if j < n - 1 {
      FailureSays(states, steps, j, n - 1);
      FailedStays(states, steps, n - 1);
    }
  }

  /** A finalization that succeeds leaves a failed session failed. */
  lemma {:induction false} FailedStays(states: seq<Worker>, steps: seq<Step>, m: nat)
    requires IsRun(states, steps) && m < |steps| && states[m].session.state == Failed && !Fails(steps[m])
    ensures states[m + 1].session.state == Failed
  {
    hide Enabled, Next, FailsWith, Fails;
    assert Moves(states[m], steps[m], states[m + 1]);
    StepSays(states[m], steps[m]);
  }

  /** Over every run the session says what the last failure says; without one it is RECORDING
      until the worker has finalized, and from then on in the state requested at that moment. */
  lemma {:induction false} SessionSays(states: seq<Worker>, steps: seq<Step>, n: nat)
    requires IsRun(states, steps) && n <= |steps|
    ensures forall j: nat :: LastFailure(steps, j, n) ==>
              states[n].session.state == Failed && FailsWith(steps[j], states[n].session.errorCode)
    ensures (forall j :: 0 <= j < n ==> !Fails(steps[j])) ==>
              && states[n].session.errorCode == NO_ERROR
              && (forall k :: 0 <= k < n && steps[k].Finish? ==> states[n].session.state == states[k].requested)
              && ((forall k :: 0 <= k < n ==> !steps[k].Finish?) ==> states[n].session.state == Recording)
  {
    hide Enabled, Next, FailsWith, Fails, Moves, Init;
    forall j: nat | LastFailure(steps, j, n)
      ensures states[n].session.state == Failed && FailsWith(steps[j], states[n].session.errorCode)
    {
      FailureSays(states, steps, j, n);
    }
    if forall j :: 0 <= j < n ==> !Fails(steps[j]) {
      QuietSays(states, steps, n);
    }
  }

  lemma {:induction false} QuietSays(states: seq<Worker>, steps: seq<Step>, n: nat)
    requires IsRun(states, steps) && n <= |steps| && forall j :: 0 <= j < n ==> !Fails(steps[j])
    ensures states[n].session.errorCode == NO_ERROR
    ensures forall k :: 0 <= k < n && steps[k].Finish? ==> states[n].session.state == states[k].requested
    ensures (forall k :: 0 <= k < n ==> !steps[k].Finish?) ==> states[n].session.state == Recording
  {
    hide Enabled, Next, FailsWith, Fails;
    if n > 0 {
      var m := n - 1;
      QuietSays(states, steps, m);
      assert Moves(states[m], steps[m], states[n]);
      StepSays(states[m], steps[m]);
      if steps[m].Finish? {
        forall k | 0 <= k < m ensures !steps[k].Finish? {
          if steps[k].Finish? {
            EndsWithFinish(states, steps, k, n);
          }
        }
      }
    }
  }

  /** The j-th step is the last, among the first n, in which a stop asks for a final state; it
      found the thread alive at the i-th. */
  ghost predicate LastAsked(steps: seq<Step>, i: nat, j: nat, n: nat)
    requires n <= |steps|
  {
    && i < j < n && steps[j].Stop? && steps[i].SeeAlive?
    && (forall k :: j < k < n ==> !steps[k].Stop?) && (forall k :: i < k < j ==> !steps[k].SeeAlive?)
  }

  lemma {:induction false} StepAsks(w: Worker, s: Step)
    requires Enabled(w, s)
    ensures var t := Next(w, s);
            && (s.SeeAlive? ==> t.stopper == Asking(s.final))
            && (s.Stop? ==> w.stopper.Asking? && t.requested == w.stopper.final && !t.stopper.Asking?)
            && (!s.Stop? ==> t.requested == w.requested)
            && (!s.Stop? && !s.SeeAlive? ==> (t.stopper.Asking? <==> w.stopper.Asking?))
            && (t.stopper.Asking? && !s.SeeAlive? ==> t.stopper == w.stopper)
  {
    hide InFlight, CountDrop, CountWrite;
  }

  /** The state requested is that of the last stop that asked for one, FINALIZED before any. */
  lemma {:induction false} RequestedIsLastAsked(states: seq<Worker>, steps: seq<Step>, n: nat)
    requires IsRun(states, steps) && n <= |steps|
    ensures forall i: nat, j: nat :: LastAsked(steps, i, j, n) ==> states[n].requested == steps[i].final
    ensures (forall k :: 0 <= k < n ==> !steps[k].Stop?) ==> states[n].requested == Finalized
    ensures (exists k :: 0 <= k < n && steps[k].Stop?) ==> exists i: nat, j: nat :: LastAsked(steps, i, j, n)
    ensures states[n].stopper.Asking? ==>
              exists i: nat :: i < n && steps[i].SeeAlive? && states[n].stopper == Asking(steps[i].final)
                && forall k :: i < k < n ==> !steps[k].SeeAlive?
  {
    hide Enabled, Next;
    if n > 0 {
      var m := n - 1;
      RequestedIsLastAsked(states, steps, m);
      assert Moves(states[m], steps[m], states[n]);
      StepAsks(states[m], steps[m]);
      if steps[m].Stop? {
        var i: nat :| i < m && steps[i].SeeAlive? && states[m].stopper == Asking(steps[i].final)
                      && forall k :: i < k < m ==> !steps[k].SeeAlive?;
        assert LastAsked(steps, i, m, n);
      } else {
        forall i: nat, j: nat ensures LastAsked(steps, i, j, n) <==> LastAsked(steps, i, j, m) {
        }
      }
    }
  }

  // ---------------------------------------------------------------- schedules

  /** Where a schedule takes the worker: steps the threads' positions do not allow are passed
      over. */
  function After(w: Worker, schedule: seq<Step>): Worker
    decreases |schedule|
  {
    if schedule == [] then w
    else if Enabled(w, schedule[0]) then After(Next(w, schedule[0]), schedule[1..])
    else After(w, schedule[1..])
  }

  /** Under every schedule the invariant holds at the end, and a clean end has drained
      everything. */
  lemma {:induction false} EveryScheduleIsSound(w: Worker, schedule: seq<Step>)
    requires Inv(w)
    ensures Inv(After(w, schedule)) && (EndedCleanly(After(w, schedule)) ==> Drained(After(w, schedule)))
    decreases |schedule|
  {
    hide Inv, Enabled, Next, Drained, EndedCleanly;
    if schedule == [] {
      if EndedCleanly(w) {
        CleanExitDrains(w);
      }
    } else if Enabled(w, schedule[0]) {
      StepInv(w, schedule[0]);
      EveryScheduleIsSound(Next(w, schedule[0]), schedule[1..]);
    } else {
      EveryScheduleIsSound(w, schedule[1..]);
    }
  }

  // ---------------------------------------------------------------- the worker object

  /** The worker's fields, updated in place. `producers`, `consumer`, `alive` and
      `stopper` are the positions of the threads; the ghosts are the history the properties speak about. */
  class RecordingWorker {
    const capacity: nat
    const maxBytes: nat
    var queue: seq<Packet>
    var queuedBytes: int
    var producers: seq<Producer>
    var consumer: Consumer
    var stopping: bool
    var requested: RecordingState
    var alive: bool
    var stopper: Stopper
    var session: Session
    var bundle: seq<Packet>
    ghost var offered: multiset<Packet>
    ghost var dropped: seq<Packet>
    ghost var put: seq<Packet>
    ghost var failed: Option<Packet>
    ghost var lateProducers: nat

    ghost function State(): Worker
      reads this
    {
      Worker(capacity, maxBytes, queue, queuedBytes, producers, consumer, stopping, requested, alive, stopper, session,
             bundle,
             offered, dropped, put, failed, lateProducers)
    }

    /** What every atomic section of every thread keeps. */
    ghost predicate Valid()
      reads this
    {
      Inv(State())
    }

    constructor (queueSize: int, queueMaxBytes: int, callbacks: nat)
      ensures Valid() && Init(State()) && |producers| == callbacks
      ensures capacity == Max(1, queueSize) && maxBytes == Max(0, queueMaxBytes)
    {
      capacity := Max(1, queueSize);
      maxBytes := Max(0, queueMaxBytes);
      queue, queuedBytes, bundle := [], 0, [];
      producers := seq(callbacks, _ => Idle);
      consumer, stopping, requested, alive, stopper := Testing, false, Finalized, true, NotStopping;
      session := Session(Recording, NO_ERROR, 0, 0, 0, 0, 0);
      offered, dropped, put, failed, lateProducers := multiset{}, [], [], None, 0;
      new;
      InitInv(State());
    }

    /** enqueue: the flag test. */
    method CheckStopping(i: nat, p: Packet)
      requires Valid() && Enabled(State(), Offer(i, p))
      modifies this
      ensures Valid() && State() == Next(old(State()), Offer(i, p))
    {
      hide Inv, InFlight;
      StepInv(State(), Offer(i, p));
      if stopping {
        return;
      }
      producers := producers[i := Checked(p)];
      offered := offered + multiset{p};
    }

    /** enqueue: the first lock region. */
    method ReserveBytes(i: nat)
      requires Valid() && Enabled(State(), Reserve(i))
      modifies this
      ensures Valid() && State() == Next(old(State()), Reserve(i))
    {
      hide Inv, InFlight;
      StepInv(State(), Reserve(i));
      var p := producers[i].p;
      if maxBytes != 0 && queuedBytes + p.size > maxBytes {
        DropPacket(i);
      } else {
        queuedBytes := queuedBytes + p.size;
        producers := producers[i := Reserved(p)];
      }
    }

    /** enqueue: put_nowait. */
    method PutNoWait(i: nat)
      requires Valid() && Enabled(State(), Put(i))
      modifies this
      ensures Valid() && State() == Next(old(State()), Put(i))
    {
      hide Inv, InFlight;
      StepInv(State(), Put(i));
      var p := producers[i].p;
      if |queue| < capacity {
        queue, put := queue + [p], put + [p];
        producers := producers[i := Idle];
      } else {
        producers := producers[i := Refused(p)];
      }
    }

    /** enqueue: the lock region of the Full handler. */
    method RollBackReservation(i: nat)
      requires Valid() && Enabled(State(), Rollback(i))
      modifies this
      ensures Valid() && State() == Next(old(State()), Rollback(i))
    {
      hide Inv, InFlight;
      StepInv(State(), Rollback(i));
      queuedBytes := Max(0, queuedBytes - producers[i].p.size);
      DropPacket(i);
    }

    method DropPacket(i: nat)
      requires i < |producers| && !producers[i].Idle?
      modifies this
      ensures State() == Drop(old(State()), i, old(producers[i].p))
    {
      var p := producers[i].p;
      if p.Audio? {
        session := session.(droppedAudio := session.droppedAudio + 1);
      } else {
        session := session.(droppedFrames := session.droppedFrames + 1);
      }
      dropped := dropped + [p];
      producers := producers[i := Idle];
    }

    /** _run: one evaluation of the loop condition's first half. */
    method TestFlag()
      requires Valid() && Enabled(State(), TestStopping)
      modifies this
      ensures Valid() && State() == Next(old(State()), TestStopping)
    {
      hide Inv, InFlight;
      StepInv(State(), TestStopping);
      if stopping {
        consumer := SawStopping;
      } else {
        consumer := Getting;
      }
    }

    /** _run: the loop condition's second half, reached when the flag was set. */
    method TestQueue()
      requires Valid() && Enabled(State(), TestEmpty)
      modifies this
      ensures Valid() && State() == Next(old(State()), TestEmpty)
    {
      hide Inv, InFlight;
      StepInv(State(), TestEmpty);
      if queue == [] {
        lateProducers := InFlight(producers);
        consumer := Left;
      } else {
        consumer := Getting;
      }
    }

    /** _run: get with a timeout. */
    method GetPacket()
      requires Valid() && Enabled(State(), Get)
      modifies this
      ensures Valid() && State() == Next(old(State()), Get)
    {
      hide Inv, InFlight;
      StepInv(State(), Get);
      if queue == [] {
        consumer := Testing;
      } else {
        consumer, queue := Holding(queue[0]), queue[1..];
      }
    }

    /** _run: the bundle's append, which succeeds or raises. */
    method WritePacket(ok: bool)
      requires Valid() && Enabled(State(), Write(ok))
      modifies this
      ensures Valid() && State() == Next(old(State()), Write(ok))
    {
      hide Inv, InFlight;
      StepInv(State(), Write(ok));
      var p := consumer.p;
      if ok {
        bundle := bundle + [p];
        consumer := Written(p);
      } else {
        failed := Some(p);
        consumer := Broken(p);
      }
    }

    /** _run: the lock region that counts a written packet. */
    method CountPacket()
      requires Valid() && Enabled(State(), Count)
      modifies this
      ensures Valid() && State() == Next(old(State()), Count)
    {
      hide Inv, InFlight;
      StepInv(State(), Count);
      var p := consumer.p;
      if p.Audio? {
        session := session.(audioChunks := session.audioChunks + 1);
      } else {
        session := session.(frames := session.frames + 1);
      }
      session := session.(bytes := session.bytes + p.size);
      consumer := Counted(p);
    }

    /** _run: the finally block around one packet. */
    method ReleasePacket()
      requires Valid() && Enabled(State(), ReleaseBytes)
      modifies this
      ensures Valid() && State() == Next(old(State()), ReleaseBytes)
    {
      hide Inv, InFlight;
      StepInv(State(), ReleaseBytes);
      queuedBytes := Max(0, queuedBytes - consumer.p.size);
      consumer := if consumer.Broken? then Raised else Testing;
    }

    method RecordError(quota: bool)
      requires Valid() && Enabled(State(), SetError(quota))
      modifies this
      ensures Valid() && State() == Next(old(State()), SetError(quota))
    {
      hide Inv, InFlight;
      StepInv(State(), SetError(quota));
      session := session.(state := Failed, errorCode := if quota then "STORAGE_FULL" else "WRITE_FAILED");
      stopping := true;
      consumer := Left;
    }

    /** _run: the outer finally block. */
    method Finalize(outcome: FinalizeOutcome)
      requires Valid() && Enabled(State(), Finish(outcome))
      modifies this
      ensures Valid() && State() == Next(old(State()), Finish(outcome))
    {
      hide Inv, InFlight;
      StepInv(State(), Finish(outcome));
      if session.state == Recording {
        session := session.(state := requested);
      }
      if outcome == QuotaExceeded {
        session := session.(state := Failed, errorCode := "STORAGE_FULL");
      } else if outcome == OtherFailure {
        session := session.(state := Failed, errorCode := "FINALIZE_FAILED");
      }
      consumer := Ended;
    }

    /** The thread is gone. */
    method ExitThread()
      requires Valid() && Enabled(State(), Exit)
      modifies this
      ensures Valid() && State() == Next(old(State()), Exit)
    {
      hide Inv, InFlight;
      StepInv(State(), Exit);
      alive := false;
    }

    /** stop: the first look at the thread. */
    method FindAlive(final: RecordingState)
      requires Valid() && Enabled(State(), SeeAlive(final))
      modifies this
      ensures Valid() && State() == Next(old(State()), SeeAlive(final))
    {
      hide Inv, InFlight;
      StepInv(State(), SeeAlive(final));
      stopper := Asking(final);
    }

    /** stop: the requested state and the flag. */
    method RequestStop()
      requires Valid() && Enabled(State(), Stop)
      modifies this
      ensures Valid() && State() == Next(old(State()), Stop)
    {
      hide Inv, InFlight;
      StepInv(State(), Stop);
      requested := stopper.final;
      stopping := true;
      stopper := Joining;
    }

    /** stop: the join is over and the thread still alive. */
    method FindLate()
      requires Valid() && Enabled(State(), SeeLate)
      modifies this
      ensures Valid() && State() == Next(old(State()), SeeLate)
    {
      hide Inv, InFlight;
      StepInv(State(), SeeLate);
      stopper := Late;
    }

    /** stop: the lock region after a deadline, however long it took to get the lock. */
    method GiveUpWaiting()
      requires Valid() && Enabled(State(), StopTimeout)
      modifies this
      ensures Valid() && State() == Next(old(State()), StopTimeout)
    {
      hide Inv, InFlight;
      StepInv(State(), StopTimeout);
      session := session.(state := Failed, errorCode := "FINALIZE_TIMEOUT");
      stopper := NotStopping;
    }

    /** stop: the thread has exited. */
    method ReturnFromStop()
      requires Valid() && Enabled(State(), StopReturn)
      modifies this
      ensures Valid() && State() == Next(old(State()), StopReturn)
    {
      hide Inv, InFlight;
      StepInv(State(), StopReturn);
      stopper := NotStopping;
    }

    predicate CanTake(s: Step)
      reads this
    {
      EnabledAt(producers, consumer, alive, stopper, s)
    }

    method Take(s: Step)
      requires Valid() && CanTake(s)
      modifies this
      ensures Valid() && State() == Next(old(State()), s)
    {
      hide Inv, Next;
      match s {
        case Offer(i, p) => CheckStopping(i, p);
        case Reserve(i) => ReserveBytes(i);
        case Put(i) => PutNoWait(i);
        case Rollback(i) => RollBackReservation(i);
        case TestStopping => TestFlag();
        case TestEmpty => TestQueue();
        case Get => GetPacket();
        case Write(ok) => WritePacket(ok);
        case Count => CountPacket();
        case ReleaseBytes => ReleasePacket();
        case SetError(quota) => RecordError(quota);
        case Finish(outcome) => Finalize(outcome);
        case Exit => ExitThread();
        case SeeAlive(final) => FindAlive(final);
        case Stop => RequestStop();
        case SeeLate => FindLate();
        case StopTimeout => GiveUpWaiting();
        case StopReturn => ReturnFromStop();
      }
    }

    /** Runs the callbacks, the worker thread and the stop requests under an arbitrary
        schedule. The byte counter adds up, nothing is lost or duplicated, writes follow the put
        order and the counters agree at every point; a clean end has drained everything. */
    method Drive(schedule: seq<Step>)
      requires Valid()
      modifies this
      ensures Valid() && State() == After(old(State()), schedule)
      ensures EndedCleanly(State()) ==> Drained(State())
    {
      hide Inv, Next, Drained, EndedCleanly;
      ghost var w := State();
      for k := 0 to |schedule|
        invariant Valid() && After(State(), schedule[k..]) == After(w, schedule)
      {
        assert schedule[k..][0] == schedule[k] && schedule[k..][1..] == schedule[k + 1..];
        if CanTake(schedule[k]) {
          Take(schedule[k]);
        }
      }
      EveryScheduleIsSound(State(), []);
    }
  }
}
