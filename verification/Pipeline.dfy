/** The offload as it runs: data movers, the offload thread and the processing thread, interleaved
    in any way. */
module Pipeline {
  import opened TraceTypes
  import opened Packets
  import opened LoggerSpec
  import opened ClockTraining
  import opened OffloadSpec
  import opened Offload
  import opened Ring

  /** Where the offload thread is. A poll of all movers is cut into turns; the chunks of a turn are
      pushed one at a time, each under the queue's lock. */
  datatype OffloadPc =
    | Init
    | Check
    | Turn(final: bool, i: nat)
    | Push(final: bool, i: nat, rest: seq<seq<Byte>>)
    | ClearFlag
    | Spin
    | EndTrace  // about to call endProcessTraceData
    | Finish
    | Gone

  /** Where the processing thread is. `last` tells the final drain, `qEmpty` is its local variable. */
  datatype ProcessPc =
    | Start
    | ClearDone
    | Loop
    | Drain(last: bool, qEmpty: bool)
    | Work(last: bool, qEmpty: bool, chunk: seq<Byte>)
    | SetDone
    | Exit

  datatype Pipe = Pipe(
    movers: seq<Mover>, bufs: seq<TraceBufferInfo>, circular: bool, initialized: bool, status: Status,
    off: OffloadPc, proc: ProcessPc, queue: seq<seq<Byte>>, processFlag: bool, doneFlag: bool,
    pushed: seq<(nat, seq<Byte>)>,   // every chunk ever queued, with its mover
    processed: seq<seq<Byte>>)       // every chunk handed to processTraceData, in order

  datatype Action =
    | Dma(i: nat, word: seq<Byte>)
    | OffloadThread(firstSync: bool, secondSync: bool)
    | ProcessThread
    | Stop

  // ----- What is known at every moment -----

  function Chunks(pushed: seq<(nat, seq<Byte>)>): (r: seq<seq<Byte>>)
    ensures |r| == |pushed|
  {
    seq(|pushed|, i requires 0 <= i < |pushed| => pushed[i].1)
  }

  function Of(pushed: seq<(nat, seq<Byte>)>, i: nat): seq<seq<Byte>> {
    if pushed == [] then []
    else
      var last := pushed[|pushed| - 1];
      Of(pushed[..|pushed| - 1], i) + if last.0 == i then [last.1] else []
  }

  /** The bytes read for a mover: pushed, or in the offload thread's hands. */
  function Got(p: Pipe, i: nat): seq<Byte> {
    Concat(Of(p.pushed, i)) + if p.off.Push? && p.off.i == i then Concat(p.off.rest) else []
  }

  /** The offload thread has made, or given up, its final poll of a mover. */
  predicate PolledFinally(off: OffloadPc, i: nat) {
    match off
    case Turn(final, k) => final && i < k
    case Push(final, k, _) => final && i <= k
    case ClearFlag => true
    case Spin => true
    case EndTrace => true
    case Finish => true
    case Gone => true
    case _ => false
  }

  ghost predicate RingOk(p: Pipe, i: nat)
    requires i < |p.movers| == |p.bufs|
  {
    && MoverOk(p.movers[i], p.circular)
    && BufferOk(p.movers[i], p.bufs[i], Got(p, i), p.circular)
    && (p.movers[i].flushed ==> PolledFinally(p.off, i))
  }

  ghost predicate RingsOk(p: Pipe) {
    && |p.movers| == |p.bufs|
    && (forall i | 0 <= i < |p.movers| :: RingOk(p, i))
    && (p.off.Push? ==> p.off.i < |p.movers|)
  }

  function Held(proc: ProcessPc): seq<seq<Byte>> {
    if proc.Work? then [proc.chunk] else []
  }

  /** First in, first out: what was queued is what was processed, what is being processed, and what
      waits. */
  ghost predicate FifoOk(p: Pipe) {
    Chunks(p.pushed) == p.processed + Held(p.proc) + p.queue
  }

  predicate AfterClear(off: OffloadPc) {
    off in {Spin, EndTrace, Finish, Gone}
  }

  predicate LastDrain(proc: ProcessPc) {
    match proc
    case Drain(last, _) => last
    case Work(last, _, _) => last
    case SetDone => true
    case Exit => true
    case _ => false
  }

  /** The shutdown handshake. */
  ghost predicate HandOffOk(p: Pipe) {
    && (p.proc != Start && !p.processFlag ==> AfterClear(p.off))
    && (LastDrain(p.proc) ==> AfterClear(p.off) && !p.processFlag)
    && (p.doneFlag <==> p.proc == Exit)
    && (p.proc in {SetDone, Exit} ==> p.queue == [])
    && (p.proc.Drain? && !p.proc.qEmpty ==> p.queue != [])
    && (p.proc.Work? && !p.proc.qEmpty ==> p.queue != [])
    && (p.proc.Work? && p.proc.qEmpty && p.proc.last ==> p.queue == [])
    && (p.initialized && p.off in {EndTrace, Finish, Gone} ==> p.doneFlag)
    && (!p.initialized ==> p.off in {Init, Finish, Gone})
  }

  ghost predicate Ok(p: Pipe) {
    RingsOk(p) && FifoOk(p) && HandOffOk(p)
  }

  // ----- Steps -----

  function DmaStep(p: Pipe, i: nat, word: seq<Byte>): Pipe {
    if i < |p.movers| && p.movers[i].mem != [] then
      p.(movers := p.movers[i := WriteWord(p.movers[i], p.circular, word)])
    else p
  }

  /** One mover's turn: poll it, and keep what was read for pushing. A ring that was overwritten stops
      the offload and ends the poll. */
  ghost function TurnStep(p: Pipe, firstSync: bool, secondSync: bool): Pipe
    requires RingsOk(p) && p.off.Turn? && p.off.i < |p.movers|
  {
    var final, i := p.off.final, p.off.i;
    assert RingOk(p, i);
    ReadOk(p.movers[i], p.bufs[i], Got(p, i), p.circular, final, firstSync, secondSync);
    var m := Poll(p.movers[i], final);
    var r := ReadMover(p.bufs[i], p.circular, ViewOf(m, firstSync, secondSync), final);
    p.(movers := p.movers[i := m], bufs := p.bufs[i := r.bd],
       status := if r.overwritten then Stopping(p.status) else p.status,
       off := if r.overwritten then Turn(final, |p.movers|) else Push(final, i, r.chunks))
  }

  ghost function OffloadStep(p: Pipe, firstSync: bool, secondSync: bool): Pipe
    requires RingsOk(p)
  {
    match p.off
    case Init => p.(off := if p.initialized then Check else Finish)
    case Check => p.(off := Turn(p.status != RUNNING, 0))
    case Turn(final, i) =>
      if i < |p.movers| then TurnStep(p, firstSync, secondSync)
      else p.(off := if final then ClearFlag else Check)
    case Push(final, i, rest) =>
      if rest == [] then p.(off := Turn(final, i + 1))
      else p.(queue := p.queue + [rest[0]], pushed := p.pushed + [(i, rest[0])], off := Push(final, i, rest[1..]))
    case ClearFlag => p.(processFlag := false, off := Spin)
    case Spin => if p.doneFlag then p.(off := EndTrace) else p
    case EndTrace => p.(off := Finish)
    case Finish => p.(status := STOPPED, off := Gone)
    case Gone => p
  }

  function AfterWork(last: bool, qEmpty: bool): ProcessPc {
    if !qEmpty then Drain(last, qEmpty) else if last then SetDone else Loop
  }

  function ProcessStep(p: Pipe): Pipe {
    match p.proc
    case Start => p.(processFlag := true, proc := ClearDone)
    case ClearDone => p.(doneFlag := false, proc := Loop)
    case Loop => p.(proc := Drain(!p.processFlag, true))
    case Drain(last, qEmpty) =>
      if p.queue != [] then p.(queue := p.queue[1..], proc := Work(last, p.queue[1..] == [], p.queue[0]))
      else p.(proc := AfterWork(last, qEmpty))
    case Work(last, qEmpty, chunk) => p.(processed := p.processed + [chunk], proc := AfterWork(last, qEmpty))
    case SetDone => p.(doneFlag := true, proc := Exit)
    case Exit => p
  }

  ghost function Step(p: Pipe, a: Action): (r: Pipe)
    requires Ok(p)
    ensures Ok(r)
  {
    StepOk(p, a);
    match a
    case Dma(i, word) => DmaStep(p, i, word)
    case OffloadThread(firstSync, secondSync) => OffloadStep(p, firstSync, secondSync)
    case ProcessThread => ProcessStep(p)
    case Stop => p.(status := Stopping(p.status))
  }

  ghost function Run(p: Pipe, actions: seq<Action>): (r: Pipe)
    requires Ok(p)
    ensures Ok(r)
  {
    if actions == [] then p else Step(Run(p, actions[..|actions| - 1]), actions[|actions| - 1])
  }

  /** A freshly started offload over freshly initialised buffers. */
  ghost predicate Fresh(p: Pipe) {
    && |p.movers| == |p.bufs|
    && (forall i | 0 <= i < |p.movers| ::
          && p.movers[i].mem != [] && p.movers[i].written == [] && p.movers[i].pending == [] && !p.movers[i].flushed
          && p.bufs[i] == TraceBufferInfo(|p.movers[i].mem|, 0, 0, 0, false, false))
    && p.status == RUNNING && p.off == Init && p.proc == Start
    && p.queue == [] && !p.processFlag && !p.doneFlag && p.pushed == [] && p.processed == []
  }

  lemma FreshOk(p: Pipe)
    requires Fresh(p)
    ensures Ok(p)
  {
    forall i | 0 <= i < |p.movers| ensures RingOk(p, i) {
      assert Got(p, i) == [];
    }
  }

  // ----- Rings -----

  /** Rings that did not move stay fine as long as the thread's final polls are not forgotten. */
  lemma SameRings(p: Pipe, p': Pipe)
    requires RingsOk(p) && p'.movers == p.movers && p'.bufs == p.bufs && p'.circular == p.circular
    requires forall i: nat | i < |p.movers| :: Got(p', i) == Got(p, i)
    requires forall i: nat | i < |p.movers| :: PolledFinally(p.off, i) ==> PolledFinally(p'.off, i)
    requires p'.off.Push? ==> p'.off.i < |p.movers|
    ensures RingsOk(p')
  {
    hide MoverOk, BufferOk, Got, PolledFinally;
    forall i | 0 <= i < |p'.movers| ensures RingOk(p', i) {
      assert RingOk(p, i);
    }
  }

  lemma MoreWritten(m: Mover, m': Mover, bd: TraceBufferInfo, got: seq<Byte>, circular: bool)
    requires BufferOk(m, bd, got, circular) && m.written <= m'.written && |m'.mem| == |m.mem|
    requires m'.version2 == m.version2 && m'.flushed == m.flushed && (m.flushed ==> m' == m)
    ensures BufferOk(m', bd, got, circular)
  {
  }

  lemma WordKeepsFlags(m: Mover, circular: bool, word: seq<Byte>)
    requires m.mem != []
    ensures WriteWord(m, circular, word).version2 == m.version2 && WriteWord(m, circular, word).flushed == m.flushed
    ensures m.flushed ==> WriteWord(m, circular, word) == m
  {
  }

  lemma DmaOk(p: Pipe, k: nat, word: seq<Byte>)
    requires RingsOk(p)
    ensures RingsOk(DmaStep(p, k, word))
  {
    hide MoverOk, BufferOk, WriteWord, Concat;
    var p' := DmaStep(p, k, word);
    forall i | 0 <= i < |p'.movers| ensures RingOk(p', i) {
      assert RingOk(p, i);
      assert Got(p', i) == Got(p, i);
      if i == k && p.movers[k].mem != [] {
        WriteWordOk(p.movers[k], p.circular, word);
        WordKeepsFlags(p.movers[k], p.circular, word);
        MoreWritten(p.movers[k], p'.movers[k], p.bufs[k], Got(p, k), p.circular);
      }
    }
  }

  lemma FlushIsFinal(m: Mover, final: bool)
    requires m.mem != []
    ensures Poll(m, final).flushed ==> m.flushed || final
  {
  }

  lemma TurnOk(p: Pipe, firstSync: bool, secondSync: bool)
    requires RingsOk(p) && p.off.Turn? && p.off.i < |p.movers|
    ensures RingsOk(TurnStep(p, firstSync, secondSync))
  {
    hide MoverOk, BufferOk, ReadMover, Poll, Readable, BytesWritten, Of, Concat;
    var final, k := p.off.final, p.off.i;
    var p' := TurnStep(p, firstSync, secondSync);
    assert RingOk(p, k);
    assert Concat([]) == [] by { ConcatShort([]); }
    ReadOk(p.movers[k], p.bufs[k], Got(p, k), p.circular, final, firstSync, secondSync);
    PollOk(p.movers[k], p.circular, final, firstSync, secondSync);
    var v := ViewOf(p'.movers[k], firstSync, secondSync);
    var r := ReadMover(p.bufs[k], p.circular, v, final);
    OverwrittenReadsNothing(p.bufs[k], p.circular, v, final);
    NotEmpty(p.movers[k], p.circular);
    FlushIsFinal(p.movers[k], final);
    forall i | 0 <= i < |p'.movers| ensures RingOk(p', i) {
      assert RingOk(p, i);
      if i == k {
        assert Got(p', k) == Got(p, k) + Concat(r.chunks);
      } else {
        assert Got(p', i) == Got(p, i);
      }
    }
  }

  lemma OverwrittenReadsNothing(bd: TraceBufferInfo, circular: bool, v: View, final: bool)
    requires bd.offloadDone || Readable(bd, BytesWritten(v, final), v.mem)
    ensures var r := ReadMover(bd, circular, v, final);
            r.overwritten ==> Concat(r.chunks) == []
  {
    hide Position, Sync;
  }

  lemma {:induction false} ConcatFront(chunks: seq<seq<Byte>>)
    requires chunks != []
    ensures Concat(chunks) == chunks[0] + Concat(chunks[1..])
  {
    if |chunks| == 1 {
      ConcatShort(chunks);
    } else {
      var n := |chunks| - 1;
      ConcatFront(chunks[..n]);
      assert chunks[..n][1..] == chunks[1..][..n - 1];
      assert Concat(chunks[1..]) == Concat(chunks[1..][..n - 1]) + chunks[n];
    }
  }

  lemma PushOk(p: Pipe)
    requires RingsOk(p) && p.off.Push? && p.off.rest != []
    ensures RingsOk(OffloadStep(p, true, true))
  {
    hide MoverOk, BufferOk;
    var k, c := p.off.i, p.off.rest[0];
    var p' := OffloadStep(p, true, true);
    ConcatFront(p.off.rest);
    assert p'.pushed[..|p'.pushed| - 1] == p.pushed;
    forall i: nat | i < |p.movers| ensures Got(p', i) == Got(p, i) {
      if i == k {
        var before := Of(p.pushed, k);
        assert (before + [c])[..|before|] == before;
        assert Concat(before + [c]) == Concat(before) + c;
      } else {
        assert Of(p'.pushed, i) == Of(p.pushed, i) + [] == Of(p.pushed, i);
      }
    }
    SameRings(p, p');
  }

  /** The thread moves on with nothing in its hands. */
  lemma MoveOnOk(p: Pipe, p': Pipe)
    requires RingsOk(p) && (p.off.Push? ==> p.off.rest == []) && !p'.off.Push?
    requires p'.movers == p.movers && p'.bufs == p.bufs && p'.circular == p.circular && p'.pushed == p.pushed
    requires forall i: nat | i < |p.movers| :: PolledFinally(p.off, i) ==> PolledFinally(p'.off, i)
    ensures RingsOk(p')
  {
    hide RingOk, Of, PolledFinally;
    forall i: nat | i < |p.movers| ensures Got(p', i) == Got(p, i) {
      assert Concat(Of(p.pushed, i)) + [] == Concat(Of(p.pushed, i));
    }
    SameRings(p, p');
  }

  lemma OffloadRingsOk(p: Pipe, firstSync: bool, secondSync: bool)
    requires RingsOk(p)
    ensures RingsOk(OffloadStep(p, firstSync, secondSync))
  {
    hide TurnStep, Got, RingsOk;
    if p.off.Turn? && p.off.i < |p.movers| {
      TurnOk(p, firstSync, secondSync);
    } else if p.off.Push? && p.off.rest != [] {
      PushOk(p);
    } else {
      MoveOnOk(p, OffloadStep(p, firstSync, secondSync));
    }
  }

  // ----- Queue and handshake -----

  lemma ChunksGrow(pushed: seq<(nat, seq<Byte>)>, x: (nat, seq<Byte>))
    ensures Chunks(pushed + [x]) == Chunks(pushed) + [x.1]
  {
  }

  /** A turn reads into the thread's hands; it does not touch the queue or the handshake. */
  lemma TurnKeeps(p: Pipe, firstSync: bool, secondSync: bool)
    requires RingsOk(p) && p.off.Turn? && p.off.i < |p.movers|
    ensures var p' := TurnStep(p, firstSync, secondSync);
            && p' == p.(movers := p'.movers, bufs := p'.bufs, status := p'.status, off := p'.off)
            && (p'.off.Turn? || p'.off.Push?) && |p'.movers| == |p.movers|
  {
    hide RingOk, Poll, ReadMover;
  }

  lemma OffloadFifoOk(p: Pipe, firstSync: bool, secondSync: bool)
    requires RingsOk(p) && FifoOk(p)
    ensures FifoOk(OffloadStep(p, firstSync, secondSync))
  {
    hide RingsOk, TurnStep, Chunks;
    if p.off.Turn? && p.off.i < |p.movers| {
      TurnKeeps(p, firstSync, secondSync);
    } else if p.off.Push? && p.off.rest != [] {
      ChunksGrow(p.pushed, (p.off.i, p.off.rest[0]));
      assert p.processed + Held(p.proc) + (p.queue + [p.off.rest[0]]) ==
             (p.processed + Held(p.proc) + p.queue) + [p.off.rest[0]];
    }
  }

  lemma OffloadHandOffOk(p: Pipe, firstSync: bool, secondSync: bool)
    requires RingsOk(p) && HandOffOk(p)
    ensures HandOffOk(OffloadStep(p, firstSync, secondSync))
  {
    hide RingsOk, TurnStep;
    if p.off.Turn? && p.off.i < |p.movers| {
      TurnKeeps(p, firstSync, secondSync);
    }
  }

  lemma ProcessQueueOk(p: Pipe)
    requires FifoOk(p) && HandOffOk(p)
    ensures FifoOk(ProcessStep(p)) && HandOffOk(ProcessStep(p))
  {
    hide Chunks;
    var p' := ProcessStep(p);
    if p.proc.Drain? && p.queue != [] {
      assert p.queue == [p.queue[0]] + p.queue[1..];
      assert p.processed + [] + p.queue == p.processed + [p.queue[0]] + p.queue[1..];
    } else if p.proc.Work? {
      assert p.processed + [p.proc.chunk] + p.queue == (p.processed + [p.proc.chunk]) + [] + p.queue;
    }
  }

  lemma StepOk(p: Pipe, a: Action)
    requires Ok(p)
    ensures Ok(match a
               case Dma(i, word) => DmaStep(p, i, word)
               case OffloadThread(firstSync, secondSync) => OffloadStep(p, firstSync, secondSync)
               case ProcessThread => ProcessStep(p)
               case Stop => p.(status := Stopping(p.status)))
  {
    hide RingOk, OffloadStep, Got;
    match a
    case Dma(i, word) => DmaOk(p, i, word);
    case OffloadThread(firstSync, secondSync) =>
      OffloadRingsOk(p, firstSync, secondSync);
      OffloadFifoOk(p, firstSync, secondSync);
      OffloadHandOffOk(p, firstSync, secondSync);
    case ProcessThread =>
      ProcessQueueOk(p);
      NotTheRings(p, ProcessStep(p));
    case Stop => NotTheRings(p, p.(status := Stopping(p.status)));
  }

  lemma NotTheRings(p: Pipe, p': Pipe)
    requires RingsOk(p) && p'.movers == p.movers && p'.bufs == p.bufs && p'.circular == p.circular
    requires p'.pushed == p.pushed && p'.off == p.off
    ensures RingsOk(p')
  {
    hide RingOk;
    SameRings(p, p');
  }

  // ----- What holds over every run -----

  /** The state after some actions of a freshly started offload. */
  ghost function RunFresh(p: Pipe, actions: seq<Action>): (r: Pipe)
    requires Fresh(p)
    ensures Ok(r) && |r.movers| == |r.bufs| == |p.movers| && r.initialized == p.initialized && r.circular == p.circular
  {
    FreshOk(p);
    SameInit(p, actions);
    Run(p, actions)
  }

  /** Ring refinement: at any moment of any run, what has been read for a mover that is not done
      (queued, or in the offload thread's hands) is exactly its stream up to
      rollovers * size + used; for a done mover it is a prefix of its stream. A version 2 mover that
      was flushed by its final poll and is not done has been read to its end. */
  lemma RingsRefineStreams(p: Pipe, actions: seq<Action>, i: nat)
    requires Fresh(p) && i < |p.movers|
    ensures var q := RunFresh(p, actions);
            && Got(q, i) <= q.movers[i].written
            && (!q.bufs[i].offloadDone ==>
                  && q.bufs[i].BytesRead() <= |q.movers[i].written|
                  && Got(q, i) == q.movers[i].written[..q.bufs[i].BytesRead()])
            && (q.movers[i].flushed && !q.bufs[i].offloadDone ==> Got(q, i) == q.movers[i].written)
  {
    hide Run, Got;
    assert RingOk(RunFresh(p, actions), i);
  }

  /** Hand-off: in every interleaving, from the moment the trace is about to be ended, every chunk ever
      queued has been processed exactly once, in the order it was queued, the queue is empty, and
      the processing thread is through. */
  lemma HandOffSafe(p: Pipe, actions: seq<Action>)
    requires Fresh(p) && p.initialized
    ensures var q := RunFresh(p, actions);
            q.off in {EndTrace, Finish, Gone} ==> q.processed == Chunks(q.pushed) && q.queue == [] && q.proc == Exit
  {
    hide RingsOk, Run;
    var q := RunFresh(p, actions);
    assert FifoOk(q) && HandOffOk(q);
    if q.off in {EndTrace, Finish, Gone} {
      assert q.processed + [] + [] == q.processed;
    }
  }

  /** So with any number of movers: of the chunks processed, those of one mover join to its stream up
      to the bytes read, or, if it is done, to a prefix of it. */
  lemma AllMoversAtTheEnd(p: Pipe, actions: seq<Action>, i: nat)
    requires Fresh(p) && p.initialized && i < |p.movers|
    ensures var q := RunFresh(p, actions);
            q.off in {EndTrace, Finish, Gone} ==>
              && q.processed == Chunks(q.pushed)
              && Concat(Of(q.pushed, i)) <= q.movers[i].written
              && (!q.bufs[i].offloadDone ==>
                    && q.bufs[i].BytesRead() <= |q.movers[i].written|
                    && Concat(Of(q.pushed, i)) == q.movers[i].written[..q.bufs[i].BytesRead()])
  {
    hide RunFresh, Run, Ok, Concat;
    HandOffSafe(p, actions);
    RingsRefineStreams(p, actions, i);
    var q := RunFresh(p, actions);
    assert Concat(Of(q.pushed, i)) + [] == Concat(Of(q.pushed, i));
  }

  lemma {:induction false} SameInit(p: Pipe, actions: seq<Action>)
    requires Ok(p)
    ensures Run(p, actions).initialized == p.initialized && |Run(p, actions).movers| == |p.movers|
    ensures Run(p, actions).circular == p.circular
  {
    hide Ok, Step;
    if actions != [] {
      SameInit(p, actions[..|actions| - 1]);
      StepKeepsInit(Run(p, actions[..|actions| - 1]), actions[|actions| - 1]);
    }
  }

  lemma StepKeepsInit(p: Pipe, a: Action)
    requires Ok(p)
    ensures Step(p, a).initialized == p.initialized && |Step(p, a).movers| == |p.movers|
            && Step(p, a).circular == p.circular
  {
    hide RingOk, FifoOk, HandOffOk, TurnStep, WriteWord, ProcessStep;
    if a.OffloadThread? && p.off.Turn? && p.off.i < |p.movers| {
      TurnKeeps(p, a.firstSync, a.secondSync);
    } else if a.ProcessThread? {
      ProcessKeeps(p);
    }
  }

  lemma ProcessKeeps(p: Pipe)
    ensures var p' := ProcessStep(p);
            p' == p.(proc := p'.proc, queue := p'.queue, processFlag := p'.processFlag, doneFlag := p'.doneFlag,
                     processed := p'.processed)
  {
  }

  // ----- Whole packets, and one mover end to end -----

  /** Every chunk is a nonempty whole number of packets and belongs to a mover. */
  ghost predicate Sized(p: Pipe) {
    && (forall i | 0 <= i < |p.bufs| :: p.bufs[i].allocSize % 8 == 0)
    && (forall k | 0 <= k < |p.pushed| :: |p.pushed[k].1| % 8 == 0 && |p.pushed[k].1| > 0 && p.pushed[k].0 < |p.movers|)
    && (p.off.Push? ==> forall k | 0 <= k < |p.off.rest| :: |p.off.rest[k]| % 8 == 0 && |p.off.rest[k]| > 0)
  }

  lemma TurnSized(p: Pipe, firstSync: bool, secondSync: bool)
    requires Ok(p) && Sized(p) && p.off.Turn? && p.off.i < |p.movers|
    ensures Sized(TurnStep(p, firstSync, secondSync))
  {
    hide Poll, ReadMover, Readable, BytesWritten, Holds, Got;
    var final, k := p.off.final, p.off.i;
    assert RingOk(p, k);
    var bd := p.bufs[k];
    ReadOk(p.movers[k], bd, Got(p, k), p.circular, final, firstSync, secondSync);
    PollOk(p.movers[k], p.circular, final, firstSync, secondSync);
    var v := ViewOf(Poll(p.movers[k], final), firstSync, secondSync);
    var r := ReadMover(bd, p.circular, v, final);
    if bd.offloadDone {
      DoneReadsNothing(bd, p.circular, v, final);
    } else {
      forall c | 0 <= c < |r.chunks| ensures |r.chunks[c]| % 8 == 0 && |r.chunks[c]| > 0 {
        ChunksAreWhole(bd, p.circular, v, final, 8, c);
      }
    }
    ReadKeepsSize(bd, p.circular, v, final);
  }

  lemma ReadKeepsSize(bd: TraceBufferInfo, circular: bool, v: View, final: bool)
    requires bd.offloadDone || Readable(bd, BytesWritten(v, final), v.mem)
    ensures ReadMover(bd, circular, v, final).bd.allocSize == bd.allocSize
  {
    hide BytesWritten;
  }

  lemma OffloadSized(p: Pipe, firstSync: bool, secondSync: bool)
    requires Ok(p) && Sized(p)
    ensures Sized(OffloadStep(p, firstSync, secondSync))
  {
    hide RingOk, FifoOk, HandOffOk, TurnStep;
    if p.off.Turn? && p.off.i < |p.movers| {
      TurnSized(p, firstSync, secondSync);
    }
  }

  lemma StepSized(p: Pipe, a: Action)
    requires Ok(p) && Sized(p)
    ensures Sized(Step(p, a))
  {
    hide Ok, OffloadStep, WriteWord, ProcessStep;
    if a.OffloadThread? {
      OffloadSized(p, a.firstSync, a.secondSync);
    } else if a.ProcessThread? {
      ProcessKeeps(p);
    }
  }

  lemma {:induction false} RunSized(p: Pipe, actions: seq<Action>)
    requires Ok(p) && Sized(p)
    ensures Sized(Run(p, actions))
  {
    hide Ok, Sized, Step;
    if actions != [] {
      RunSized(p, actions[..|actions| - 1]);
      StepSized(Run(p, actions[..|actions| - 1]), actions[|actions| - 1]);
    }
  }

  lemma {:induction false} AllOfOne(pushed: seq<(nat, seq<Byte>)>)
    requires forall k | 0 <= k < |pushed| :: pushed[k].0 == 0
    ensures Of(pushed, 0) == Chunks(pushed)
  {
    if pushed != [] {
      var n := |pushed| - 1;
      AllOfOne(pushed[..n]);
      assert pushed == pushed[..n] + [pushed[n]];
      ChunksGrow(pushed[..n], pushed[n]);
    }
  }

  /** Chunks that are whole numbers of packets carry the packets of their bytes. */
  lemma {:induction false} PacketsOfChunks(chunks: seq<seq<Byte>>)
    requires forall k | 0 <= k < |chunks| :: |chunks[k]| % 8 == 0
    ensures Flatten(PacketChunks(chunks)) == PacketsOf(Concat(chunks)) && |Concat(chunks)| % 8 == 0
  {
    if chunks != [] {
      var n := |chunks| - 1;
      PacketsOfChunks(chunks[..n]);
      assert PacketChunks(chunks)[..n] == PacketChunks(chunks[..n]);
      PacketsOfConcat(Concat(chunks[..n]), chunks[n]);
    }
  }

  /** End to end, for one data mover with a ring of whole packets: when the trace is about to be ended,
      in any interleaving and however polling and wraparound cut the stream, if the training window
      lies in the first chunk then handling the chunks one by one has left the logger (log, state
      and clock training) as one call would on the packets of the stream's prefix that was read;
      and that prefix is everything up to `BytesRead()` unless the mover is done. */
  lemma EndToEnd(D: Design, s: LoggerSpec.State, p: Pipe, actions: seq<Action>)
    requires Fresh(p) && p.initialized && |p.movers| == 1 && |p.movers[0].mem| % 8 == 0 && s.Fits(D)
    ensures var q := RunFresh(p, actions);
            q.off == EndTrace && q.processed != [] && WindowSeen(s, PacketsOf(q.processed[0])) ==>
              var stream, n := q.movers[0].written, |Concat(q.processed)|;
              && n <= |stream|
              && (!q.bufs[0].offloadDone ==> n == q.bufs[0].BytesRead())
              && ProcessAll(D, s, PacketChunks(q.processed)) == Process(D, s, PacketsOf(stream[..n]))
  {
    hide RunFresh, ProcessAll, Process, WindowSeen, PacketsOf, Concat, Chunks;
    OneMoverAtTheEnd(p, actions);
    var q := RunFresh(p, actions);
    if q.off == EndTrace && q.processed != [] && WindowSeen(s, PacketsOf(q.processed[0])) {
      PacketsOfChunks(q.processed);
      var buffers := PacketChunks(q.processed);
      assert buffers[0] == PacketsOf(q.processed[0]);
      BuffersDoNotMatter(D, s, buffers);
    }
  }

  /** With one mover everything processed is its stream, in whole packets. */
  lemma OneMoverAtTheEnd(p: Pipe, actions: seq<Action>)
    requires Fresh(p) && p.initialized && |p.movers| == 1 && |p.movers[0].mem| % 8 == 0
    ensures var q := RunFresh(p, actions);
            q.off == EndTrace ==>
              var n := |Concat(q.processed)|;
              && n <= |q.movers[0].written|
              && Concat(q.processed) == q.movers[0].written[..n]
              && (!q.bufs[0].offloadDone ==> n == q.bufs[0].BytesRead())
              && forall k | 0 <= k < |q.processed| :: |q.processed[k]| % 8 == 0
  {
    hide Run, Ok;
    FreshOk(p);
    RunSized(p, actions);
    HandOffSafe(p, actions);
    RingsRefineStreams(p, actions, 0);
    var q := RunFresh(p, actions);
    if q.off == EndTrace {
      AllOfOne(q.pushed);
      assert Got(q, 0) == Concat(q.processed) + [] == Concat(q.processed);
      forall k | 0 <= k < |q.processed| ensures |q.processed[k]| % 8 == 0 {
        assert q.processed[k] == q.pushed[k].1;
      }
    }
  }
}
