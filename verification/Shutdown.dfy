/** The shutdown handshake: when the two threads come through it, and when they cannot. */
module Shutdown {
  import opened OffloadSpec
  import opened Offload
  import opened Ring
  import opened Pipeline

  // ----- It can hang -----

  /** The offload thread waits, and the processing thread had not started, or will not look again. */
  predicate Doomed(p: Pipe) {
    p.off == Spin && !p.doneFlag && !LastDrain(p.proc) && (p.proc == Start || p.processFlag)
  }

  lemma DoomedStays(p: Pipe, a: Action)
    requires Ok(p) && Doomed(p)
    ensures Doomed(Step(p, a))
  {
    hide Ok, WriteWord;
  }

  lemma {:induction false} DoomedForever(p: Pipe, actions: seq<Action>)
    requires Ok(p) && Doomed(p)
    ensures Doomed(Run(p, actions))
  {
    hide Ok, Doomed, Step;
    if actions != [] {
      DoomedForever(p, actions[..|actions| - 1]);
      DoomedStays(Run(p, actions[..|actions| - 1]), actions[|actions| - 1]);
    }
  }

  // ----- It finishes -----

  /** The offload thread has cleared the flag, and the processing thread had stored its own before. */
  predicate Ending(p: Pipe) {
    p.initialized && AfterClear(p.off) && p.proc != Start && !p.processFlag
  }

  /** How many steps of the processing thread are enough for its exit. */
  function Rank(p: Pipe): nat {
    match p.proc
    case Exit => 0
    case SetDone => 1
    case Drain(last, _) => (if last then 2 else 4) + 2 * |p.queue|
    case Work(last, _, _) => (if last then 3 else 5) + 2 * |p.queue|
    case Loop => 3 + 2 * |p.queue|
    case ClearDone => 4 + 2 * |p.queue|
    case Start => 0
  }

  function Minus(a: nat, b: nat): nat { if a <= b then 0 else a - b }

  lemma EndingStep(p: Pipe, a: Action)
    requires Ok(p) && Ending(p)
    ensures Ending(Step(p, a))
    ensures Rank(Step(p, a)) <= Minus(Rank(p), if a.ProcessThread? then 1 else 0)
  {
    hide RingsOk, FifoOk, WriteWord;
  }

  function ProcessSteps(actions: seq<Action>): nat {
    if actions == [] then 0
    else ProcessSteps(actions[..|actions| - 1]) + if actions[|actions| - 1].ProcessThread? then 1 else 0
  }

  lemma {:induction false} EndingRun(p: Pipe, actions: seq<Action>)
    requires Ok(p) && Ending(p)
    ensures Ending(Run(p, actions)) && Rank(Run(p, actions)) <= Minus(Rank(p), ProcessSteps(actions))
  {
    hide Ok, Ending, Rank, Step;
    if actions != [] {
      EndingRun(p, actions[..|actions| - 1]);
      EndingStep(Run(p, actions[..|actions| - 1]), actions[|actions| - 1]);
    }
  }

  /** Once the offload thread waits, if the processing thread had stored its flag before it was cleared,
      then every way to go on, however interleaved with the other thread, the device and further stop
      requests, gets the processing thread through as soon as it has been given `Rank(p)` steps, and
      the offload thread on by its next step. */
  lemma EveryRunFinishes(p: Pipe, actions: seq<Action>, firstSync: bool, secondSync: bool)
    requires Ok(p) && p.initialized && p.off == Spin && p.proc != Start && !p.processFlag
    requires ProcessSteps(actions) >= Rank(p)
    ensures var q := Run(p, actions);
            && q.doneFlag && q.proc == Exit && q.queue == []
            && Step(q, OffloadThread(firstSync, secondSync)).off in {EndTrace, Finish, Gone}
  {
    hide RingsOk, FifoOk, Run;
    EndingRun(p, actions);
  }

  lemma {:induction false} AllProcessing(actions: seq<Action>)
    requires forall i | 0 <= i < |actions| :: actions[i] == ProcessThread
    ensures ProcessSteps(actions) == |actions|
  {
    if actions != [] {
      AllProcessing(actions[..|actions| - 1]);
    }
  }

  lemma {:induction false} StillSpinning(p: Pipe, actions: seq<Action>)
    requires Ok(p) && p.off == Spin && forall i | 0 <= i < |actions| :: actions[i] == ProcessThread
    ensures Run(p, actions).off == Spin
  {
    hide Ok, RingsOk;
    if actions != [] {
      StillSpinning(p, actions[..|actions| - 1]);
      ProcessKeeps(Run(p, actions[..|actions| - 1]));
    }
  }

  lemma CanFinish(p: Pipe) returns (actions: seq<Action>)
    requires Ok(p) && p.initialized && p.off == Spin && p.proc != Start && !p.processFlag
    ensures Run(p, actions).off == EndTrace
  {
    hide RingsOk, FifoOk;
    var drain := seq(Rank(p), _ => ProcessThread);
    AllProcessing(drain);
    StillSpinning(p, drain);
    EveryRunFinishes(p, drain, true, true);
    actions := drain + [OffloadThread(true, true)];
    assert actions[..|drain|] == drain;
  }

  /** Once the offload thread waits for the processing thread, it can get through if and only if the
      processing thread had stored its own flag before the offload thread cleared it: a thread that
      starts late sets the flag again and drains for ever. */
  lemma ShutdownCompletesIff(p: Pipe)
    requires Ok(p) && p.initialized && p.off == Spin
    ensures (exists actions :: Run(p, actions).off == EndTrace) <==> p.proc != Start && !p.processFlag
  {
    hide RingsOk, FifoOk, Run;
    if p.proc != Start && !p.processFlag {
      var actions := CanFinish(p);
    } else {
      forall actions ensures Run(p, actions).off != EndTrace {
        assert Doomed(p);
        DoomedForever(p, actions);
      }
    }
  }

  ghost predicate Reaches(p: Pipe, q: Pipe)
    requires Ok(p)
  {
    exists actions :: Run(p, actions) == q
  }

  lemma ReachesNext(p: Pipe, q: Pipe, a: Action)
    requires Ok(p) && Ok(q) && Reaches(p, q)
    ensures Reaches(p, Step(q, a))
  {
    hide Ok, Step;
    var actions :| Run(p, actions) == q;
    assert (actions + [a])[..|actions|] == actions;
    assert Run(p, actions + [a]) == Step(q, a);
  }

  /** The last poll of a mover that wrote nothing queues nothing. */
  lemma EmptyTurn(p: Pipe)
    requires Ok(p) && p.off == Turn(true, 0) && |p.movers| == 1
    requires p.movers[0].written == [] && p.movers[0].pending == []
    requires p.bufs[0] == TraceBufferInfo(|p.movers[0].mem|, 0, 0, 0, false, false)
    ensures var q := Step(p, OffloadThread(true, true));
            q == p.(movers := q.movers, bufs := q.bufs, status := q.status, off := Push(true, 0, [])) && |q.movers| == 1
  {
    assert RingOk(p, 0);
    TurnKeeps(p, true, true);
  }

  /** Three steps from a stopped start to the final poll. */
  lemma StopAtOnce(p: Pipe)
    requires Fresh(p) && p.initialized && |p.movers| == 1
    ensures Ok(p)
    ensures var q := p.(status := STOPPING, off := Turn(true, 0));
            Ok(q) && Reaches(p, q)
  {
    hide Ok, RingsOk;
    FreshOk(p);
    assert Run(p, []) == p;
    ReachesNext(p, p, Stop);
    var p1 := Step(p, Stop);
    ReachesNext(p, p1, OffloadThread(true, true));
    var p2 := Step(p1, OffloadThread(true, true));
    ReachesNext(p, p2, OffloadThread(true, true));
    assert Step(p2, OffloadThread(true, true)) == p.(status := STOPPING, off := Turn(true, 0));
  }

  /** Stopped before its processing thread has run at all, an offload of one mover that wrote nothing
      can reach the wait, and then the trace is never ended. */
  lemma LateStartHangs(p: Pipe)
    requires Fresh(p) && p.initialized && |p.movers| == 1
    ensures Ok(p) && exists q :: Ok(q) && Reaches(p, q) && Doomed(q) && forall more :: Run(q, more).off != EndTrace
  {
    hide Ok, RingsOk, Run, Reaches;
    StopAtOnce(p);
    var go := OffloadThread(true, true);
    var p3 := p.(status := STOPPING, off := Turn(true, 0));
    EmptyTurn(p3);
    ReachesNext(p, p3, go);
    var p4 := Step(p3, go);
    ReachesNext(p, p4, go);
    var p5 := Step(p4, go);
    ReachesNext(p, p5, go);
    var p6 := Step(p5, go);
    ReachesNext(p, p6, go);
    var p7 := Step(p6, go);
    assert Doomed(p7);
    forall more ensures Run(p7, more).off != EndTrace {
      DoomedForever(p7, more);
    }
  }
}
