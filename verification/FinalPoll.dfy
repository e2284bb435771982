/** When the final poll comes, and that it reads everything: not before the offload was told to stop, and
    not short of what a data mover has written by its turn. */
module FinalPoll {
  import opened Packets
  import opened OffloadSpec
  import opened Offload
  import opened Ring
  import opened Pipeline
  import opened Polling

  // ----- Not early -----

  /** In the final poll, or past it. */
  predicate Beyond(off: OffloadPc) {
    match off
    case Turn(final, _) => final
    case Push(final, _, _) => final
    case Init => false
    case Check => false
    case _ => true
  }

  /** The mover whose turn it is has written more than a ring beyond what was read of it. */
  ghost predicate Overwritten(p: Pipe)
    requires Ok(p)
  {
    && p.off.Turn? && p.off.i < |p.movers| && !p.bufs[p.off.i].offloadDone
    && p.movers[p.off.i].mem != []
    && |Poll(p.movers[p.off.i], p.off.final).written| > p.bufs[p.off.i].BytesRead() + |p.movers[p.off.i].mem|
  }

  lemma HasMemory(p: Pipe)
    requires Ok(p) && p.off.Turn? && p.off.i < |p.movers|
    ensures p.movers[p.off.i].mem != []
  {
    assert RingOk(p, p.off.i);
  }

  /** A turn, as its mover and its buffer see it. */
  lemma TurnReads(p: Pipe, firstSync: bool, secondSync: bool)
    requires Ok(p) && p.off.Turn? && p.off.i < |p.movers|
    ensures p.movers[p.off.i].mem != []
    ensures var k, r := p.off.i, TurnRead(p, firstSync, secondSync);
            && (r.overwritten <==> Overwritten(p))
            && (r.overwritten ==> r.bd == p.bufs[k].(offloadDone := true))
            && (!r.bd.offloadDone ==> r.bd.BytesRead() == |Poll(p.movers[k], p.off.final).written|)
            && (p.bufs[k].offloadDone ==> r.bd == p.bufs[k])
  {
    hide FifoOk, HandOffOk, Poll, Position, Sync, Concat, Holds, Got, BytesWritten, Readable;
    HasMemory(p);
    var k, final := p.off.i, p.off.final;
    assert RingOk(p, k);
    var m := Poll(p.movers[k], final);
    var v := ViewOf(m, firstSync, secondSync);
    PollOk(p.movers[k], p.circular, final, firstSync, secondSync);
    TurnCanRead(p, firstSync, secondSync);
    if p.bufs[k].offloadDone {
      DoneReadsNothing(p.bufs[k], p.circular, v, final);
    } else {
      ReadGetsStream(m, p.bufs[k], p.circular, v, final);
    }
  }

  lemma TurnStatus(p: Pipe, firstSync: bool, secondSync: bool)
    requires Ok(p) && p.off.Turn? && p.off.i < |p.movers|
    ensures var p' := Step(p, OffloadThread(firstSync, secondSync));
            && p'.status == (if Overwritten(p) then Stopping(p.status) else p.status)
            && (p'.off.Turn? || p'.off.Push?) && p'.off.final == p.off.final
  {
    hide Ok, RingsOk, TurnRead, Poll, Overwritten;
    TurnReads(p, firstSync, secondSync);
    TurnMoves(p, firstSync, secondSync);
  }

  /** Everything but a turn of a mover. */
  lemma OtherStatus(p: Pipe, a: Action)
    requires Ok(p) && !(a.OffloadThread? && p.off.Turn? && p.off.i < |p.movers|)
    ensures Step(p, a).status ==
            if a == Stop then Stopping(p.status) else if a.OffloadThread? && p.off == Finish then STOPPED else p.status
    ensures p.off == Check && a.OffloadThread? ==> Step(p, a).off == Turn(p.status != RUNNING, 0)
    ensures Beyond(Step(p, a).off) && !Beyond(p.off) ==> p.status != RUNNING || (p.off == Init && !p.initialized)
    ensures (p.off == Gone ==> p.status == STOPPED) ==> (Step(p, a).off == Gone ==> Step(p, a).status == STOPPED)
  {
    hide RingsOk, FifoOk, HandOffOk, TurnStep, WriteWord;
    if a.ProcessThread? {
      ProcessKeeps(p);
    }
  }

  /** The status is taken back from running by a stop request or an overwritten ring, and never given
      back; when it is time to decide, the next poll is final if and only if it was. */
  lemma StepStatus(p: Pipe, a: Action)
    requires Ok(p)
    ensures Step(p, a).status == RUNNING ==> p.status == RUNNING
    ensures p.status == RUNNING && Step(p, a).status != RUNNING && p.off != Finish ==>
              a == Stop || (a.OffloadThread? && Overwritten(p))
    ensures p.off == Check && a.OffloadThread? ==> Step(p, a).off == Turn(p.status != RUNNING, 0)
    ensures Beyond(Step(p, a).off) && !Beyond(p.off) ==> p.status != RUNNING || (p.off == Init && !p.initialized)
    ensures (p.off == Gone ==> p.status == STOPPED) ==> (Step(p, a).off == Gone ==> Step(p, a).status == STOPPED)
  {
    hide Ok, Step, Overwritten;
    if a.OffloadThread? && p.off.Turn? && p.off.i < |p.movers| {
      TurnStatus(p, a.firstSync, a.secondSync);
    } else {
      OtherStatus(p, a);
    }
  }

  ghost predicate StoppedBeyond(p: Pipe) {
    && (p.initialized && Beyond(p.off) ==> p.status != RUNNING)
    && (p.off == Gone ==> p.status == STOPPED)
  }

  lemma {:induction false} RunStopped(p: Pipe, actions: seq<Action>)
    requires Ok(p) && StoppedBeyond(p)
    ensures StoppedBeyond(Run(p, actions))
  {
    hide Ok, Step;
    if actions != [] {
      var before, a := actions[..|actions| - 1], actions[|actions| - 1];
      RunStopped(p, before);
      SameInit(p, before);
      SameInit(p, actions);
      StepStatus(Run(p, before), a);
    }
  }

  /** In every run of an initialised offload, the final poll and what follows come only after it was told
      to stop; and when the offload thread is gone, the status says so. */
  lemma FinalOnlyWhenStopped(p: Pipe, actions: seq<Action>)
    requires Fresh(p) && p.initialized
    ensures Beyond(RunFresh(p, actions).off) ==> RunFresh(p, actions).status != RUNNING
    ensures RunFresh(p, actions).off == Gone ==> RunFresh(p, actions).status == STOPPED
  {
    hide Run, Ok;
    FreshOk(p);
    RunStopped(p, actions);
  }

  /** Whether an action asks for the end, or finds a ring overwritten. */
  ghost predicate Stops(p: Pipe, a: Action)
    requires Ok(p)
  {
    a == Stop || (a.OffloadThread? && Overwritten(p))
  }

  lemma {:induction false} RunRuns(p: Pipe, actions: seq<Action>)
    requires Ok(p) && p.initialized && p.status == RUNNING && !Beyond(p.off)
    requires forall n | 0 <= n < |actions| :: !Stops(Run(p, actions[..n]), actions[n])
    ensures Run(p, actions).status == RUNNING && !Beyond(Run(p, actions).off)
  {
    hide Ok, Step, Stops, Overwritten;
    if actions != [] {
      var m := |actions| - 1;
      forall n | 0 <= n < m ensures !Stops(Run(p, actions[..m][..n]), actions[..m][n]) {
        assert actions[..m][..n] == actions[..n];
      }
      RunRuns(p, actions[..m]);
      var q := Run(p, actions[..m]);
      SameInit(p, actions[..m]);
      StepStatus(q, actions[m]);
      assert !Stops(q, actions[m]);
      NotStopping(q, actions[m]);
    }
  }

  lemma NotStopping(p: Pipe, a: Action)
    requires Ok(p) && !Stops(p, a)
    ensures a != Stop && !(a.OffloadThread? && Overwritten(p))
  {
  }

  /** A run in which nobody asks for a stop and no ring is overwritten polls on: it is never in a final
      poll or past it, and no mover has been flushed. */
  lemma PollsOnUntilStopped(p: Pipe, actions: seq<Action>, i: nat)
    requires Fresh(p) && p.initialized && i < |p.movers| && Ok(p)
    requires forall n | 0 <= n < |actions| :: !Stops(Run(p, actions[..n]), actions[n])
    ensures var q := RunFresh(p, actions);
            q.status == RUNNING && !Beyond(q.off) && !q.movers[i].flushed
  {
    hide Run, Stops, Got, MoverOk, BufferOk;
    RunRuns(p, actions);
    assert RingOk(RunFresh(p, actions), i);
  }

  /** An overwritten ring stops the offload and ends the poll: nothing is read, no other mover has a turn. */
  lemma OverwriteStops(p: Pipe, firstSync: bool, secondSync: bool)
    requires Ok(p) && Overwritten(p)
    ensures var q := Step(p, OffloadThread(firstSync, secondSync));
            && q.status != RUNNING && q.off == Turn(p.off.final, |p.movers|) && q.queue == p.queue
            && q.bufs == p.bufs[p.off.i := p.bufs[p.off.i].(offloadDone := true)]
  {
    hide Ok, TurnRead, Poll;
    TurnReads(p, firstSync, secondSync);
    TurnMoves(p, firstSync, secondSync);
    assert p.queue + [] == p.queue;
  }

  // ----- Not short -----

  lemma GotStays(p: Pipe, a: Action, i: nat)
    requires Ok(p) && i < |p.movers|
    requires !(a.OffloadThread? && p.off.Turn? && p.off.i == i)
    ensures |Step(p, a).movers| == |Step(p, a).bufs| == |p.movers|
    ensures Got(Step(p, a), i) == Got(p, i) && Step(p, a).bufs[i] == p.bufs[i]
  {
    hide Ok, RingOk, Got;
    RingsThere(p);
    RingsThere(Step(p, a));
    if !a.OffloadThread? {
      NotReading(p, a, i);
    } else if p.off.Turn? && p.off.i < |p.movers| {
      OtherTurn(p, a.firstSync, a.secondSync, i);
    } else if p.off.Push? && p.off.rest != [] {
      PushGot(p, a.firstSync, a.secondSync, i);
    } else {
      MovingOn(p, a.firstSync, a.secondSync, i);
    }
  }

  lemma NotReading(p: Pipe, a: Action, i: nat)
    requires Ok(p) && i < |p.movers| && !a.OffloadThread?
    ensures |Step(p, a).movers| == |p.movers| && Step(p, a).bufs == p.bufs && Got(Step(p, a), i) == Got(p, i)
  {
    hide RingsOk, FifoOk, HandOffOk, WriteWord, Of, Concat;
    if a.ProcessThread? {
      ProcessKeeps(p);
    }
  }

  lemma OtherTurn(p: Pipe, firstSync: bool, secondSync: bool, i: nat)
    requires Ok(p) && p.off.Turn? && p.off.i < |p.movers| == |p.bufs| && i < |p.movers| && i != p.off.i
    ensures var p' := Step(p, OffloadThread(firstSync, secondSync));
            |p'.bufs| == |p.bufs| && p'.bufs[i] == p.bufs[i] && Got(p', i) == Got(p, i)
  {
    hide Ok, TurnRead, Poll, Of, Concat;
    HasMemory(p);
    TurnMoves(p, firstSync, secondSync);
  }

  lemma MovingOn(p: Pipe, firstSync: bool, secondSync: bool, i: nat)
    requires Ok(p) && !(p.off.Turn? && p.off.i < |p.movers|) && !(p.off.Push? && p.off.rest != [])
    ensures var p' := Step(p, OffloadThread(firstSync, secondSync));
            |p'.movers| == |p.movers| && p'.bufs == p.bufs && Got(p', i) == Got(p, i)
  {
    hide Ok, Step, Of, Concat;
    MovingOnIs(p, firstSync, secondSync);
    assert Concat([]) == [] by { ConcatShort([]); }
    assert Concat(Of(p.pushed, i)) + [] == Concat(Of(p.pushed, i));
  }

  lemma MovingOnIs(p: Pipe, firstSync: bool, secondSync: bool)
    requires Ok(p) && !(p.off.Turn? && p.off.i < |p.movers|) && !(p.off.Push? && p.off.rest != [])
    ensures var p' := Step(p, OffloadThread(firstSync, secondSync));
            && p'.movers == p.movers && p'.bufs == p.bufs && p'.pushed == p.pushed && !p'.off.Push?
  {
    hide RingsOk, FifoOk, HandOffOk, OffloadStep;
    NoTurnNoPush(p, firstSync, secondSync);
  }

  lemma NoTurnNoPush(p: Pipe, firstSync: bool, secondSync: bool)
    requires RingsOk(p) && !(p.off.Turn? && p.off.i < |p.movers|) && !(p.off.Push? && p.off.rest != [])
    ensures var p' := OffloadStep(p, firstSync, secondSync);
            p' == p.(off := p'.off, processFlag := p'.processFlag, status := p'.status) && !p'.off.Push?
  {
    hide RingsOk, TurnStep, Concat;
  }

  lemma PushGot(p: Pipe, firstSync: bool, secondSync: bool, i: nat)
    requires Ok(p) && p.off.Push? && p.off.rest != []
    ensures var p' := Step(p, OffloadThread(firstSync, secondSync));
            |p'.movers| == |p.movers| && p'.bufs == p.bufs && Got(p', i) == Got(p, i)
  {
    hide RingsOk, FifoOk, HandOffOk, TurnStep;
    var k, c := p.off.i, p.off.rest[0];
    var p' := Step(p, OffloadThread(firstSync, secondSync));
    ConcatFront(p.off.rest);
    assert p'.pushed[..|p'.pushed| - 1] == p.pushed;
    if i == k {
      var before := Of(p.pushed, k);
      assert (before + [c])[..|before|] == before;
      assert Concat(before + [c]) == Concat(before) + c;
    } else {
      assert Of(p'.pushed, i) == Of(p.pushed, i) + [] == Of(p.pushed, i);
    }
  }

  lemma FlushedStays(p: Pipe, a: Action, i: nat)
    requires Ok(p) && i < |p.movers|
    ensures |Step(p, a).movers| == |p.movers| && Step(p, a).movers[i].version2 == p.movers[i].version2
    ensures p.movers[i].flushed ==> Step(p, a).movers[i].flushed
  {
    hide Ok, Step;
    if a.Dma? {
      DmaFlags(p, a.i, a.word, i);
    } else if a.OffloadThread? && p.off.Turn? && p.off.i < |p.movers| {
      TurnFlags(p, a.firstSync, a.secondSync, i);
    } else {
      SameMovers(p, a);
    }
  }

  lemma DmaFlags(p: Pipe, k: nat, word: seq<Byte>, i: nat)
    requires Ok(p) && i < |p.movers|
    ensures var p' := Step(p, Dma(k, word));
            && |p'.movers| == |p.movers| && p'.movers[i].version2 == p.movers[i].version2
            && p'.movers[i].flushed == p.movers[i].flushed
  {
    hide Ok, WriteWord;
    if k < |p.movers| && p.movers[k].mem != [] {
      WordKeepsFlags(p.movers[k], p.circular, word);
    }
  }

  lemma TurnFlags(p: Pipe, firstSync: bool, secondSync: bool, i: nat)
    requires Ok(p) && p.off.Turn? && p.off.i < |p.movers| && i < |p.movers|
    ensures var p' := Step(p, OffloadThread(firstSync, secondSync));
            && |p'.movers| == |p.movers| && p'.movers[i].version2 == p.movers[i].version2
            && (p.movers[i].flushed ==> p'.movers[i].flushed)
  {
    hide Ok, Step, Poll, TurnRead;
    HasMemory(p);
    TurnMoves(p, firstSync, secondSync);
    PollFlushes(p.movers[p.off.i], p.off.final);
  }

  lemma SameMovers(p: Pipe, a: Action)
    requires Ok(p) && !a.Dma? && !(a.OffloadThread? && p.off.Turn? && p.off.i < |p.movers|)
    ensures Step(p, a).movers == p.movers
  {
    hide RingsOk, FifoOk, HandOffOk, OffloadStep, ProcessStep;
    if a.ProcessThread? {
      ProcessKeeps(p);
    } else if a.OffloadThread? {
      OffloadKeepsMovers(p, a.firstSync, a.secondSync);
    }
  }

  lemma OffloadKeepsMovers(p: Pipe, firstSync: bool, secondSync: bool)
    requires RingsOk(p) && !(p.off.Turn? && p.off.i < |p.movers|)
    ensures OffloadStep(p, firstSync, secondSync).movers == p.movers
  {
    hide RingsOk, TurnStep;
  }

  /** Action n was mover i's turn in the final poll. It read all the mover had written by then, unless the
      mover is done; a version 2 mover has been flushed; nothing has been read of it since. */
  ghost predicate FinallyRead(p: Pipe, actions: seq<Action>, i: nat, n: nat)
    requires Ok(p) && i < |p.movers|
  {
    && n < |actions| && actions[n].OffloadThread? && Run(p, actions[..n]).off == Turn(true, i)
    && var a, q := Run(p, actions[..n + 1]), Run(p, actions);
       && |a.movers| == |a.bufs| == |q.movers| == |q.bufs| == |p.movers|
       && a.off.Push? && q.bufs[i] == a.bufs[i] && Got(q, i) == Got(a, i)
       && (!a.bufs[i].offloadDone ==> Got(a, i) == a.movers[i].written)
       && (q.movers[i].version2 ==> q.movers[i].flushed)
  }

  lemma StillFinallyRead(p: Pipe, actions: seq<Action>, a: Action, i: nat, n: nat)
    requires Ok(p) && i < |p.movers| && FinallyRead(p, actions, i, n)
    requires !(a.OffloadThread? && Run(p, actions).off.Turn? && Run(p, actions).off.i == i)
    ensures FinallyRead(p, actions + [a], i, n)
  {
    hide Ok, Step, Got;
    var all, q := actions + [a], Run(p, actions);
    assert all[..|all| - 1] == actions && all[..n] == actions[..n] && all[..n + 1] == actions[..n + 1];
    GotStays(q, a, i);
    FlushedStays(q, a, i);
  }

  /** The turn itself. */
  lemma NowFinallyRead(p: Pipe, actions: seq<Action>, a: Action, i: nat)
    requires Ok(p) && i < |p.movers| && a.OffloadThread?
    requires Run(p, actions).off == Turn(true, i) && !Overwritten(Run(p, actions))
    ensures FinallyRead(p, actions + [a], i, |actions|)
  {
    hide Ok, Step, Got, Poll, TurnRead, Overwritten;
    var all, q := actions + [a], Run(p, actions);
    var q' := Step(q, a);
    assert all[..|all| - 1] == actions && all[..|actions|] == actions && all[..|actions| + 1] == all;
    SameInit(p, actions);
    RingsThere(q);
    RingsThere(q');
    TurnReads(q, a.firstSync, a.secondSync);
    TurnMoves(q, a.firstSync, a.secondSync);
    PollFlushes(q.movers[i], true);
    AllGot(q', i);
  }

  lemma RingsThere(p: Pipe)
    requires Ok(p)
    ensures |p.movers| == |p.bufs|
  {
  }

  /** A mover that is not done and has been read to the end. */
  lemma AllGot(p: Pipe, i: nat)
    requires Ok(p) && i < |p.movers| && |p.bufs| == |p.movers|
    requires !p.bufs[i].offloadDone ==> p.bufs[i].BytesRead() == |p.movers[i].written|
    ensures !p.bufs[i].offloadDone ==> Got(p, i) == p.movers[i].written
  {
    hide Got, MoverOk;
    assert RingOk(p, i);
  }

  /** The ring of the mover whose turn it is in the final poll is overwritten: that cuts the poll short. */
  ghost predicate Cut(p: Pipe, a: Action)
    requires Ok(p)
  {
    a.OffloadThread? && Overwritten(p) && p.off.final
  }

  ghost predicate FinalPollUncut(p: Pipe, actions: seq<Action>)
    requires Ok(p)
  {
    forall n | 0 <= n < |actions| :: !Cut(Run(p, actions[..n]), actions[n])
  }

  lemma {:induction false} AllFinallyRead(p: Pipe, actions: seq<Action>, i: nat) returns (n: nat)
    requires Ok(p) && p.initialized && !Beyond(p.off) && i < |p.movers| && FinalPollUncut(p, actions)
    requires PolledFinally(Run(p, actions).off, i)
    ensures FinallyRead(p, actions, i, n)
  {
    hide Ok, Step, Got, Cut, FinallyRead;
    if actions == [] {
      assert false;
    } else {
      var m := |actions| - 1;
      var before, a := actions[..m], actions[m];
      var q := Run(p, before);
      assert before + [a] == actions;
      forall k | 0 <= k < m ensures !Cut(Run(p, before[..k]), before[k]) {
        assert before[..k] == actions[..k];
      }
      SameInit(p, before);
      assert !Cut(q, a);
      if a.OffloadThread? && q.off == Turn(true, i) {
        NotCut(q, a, i);
        NowFinallyRead(p, before, a, i);
        n := m;
      } else {
        PolledBefore(q, a, i);
        n := AllFinallyRead(p, before, i);
        StillFinallyRead(p, before, a, i, n);
      }
    }
  }

  lemma NotCut(p: Pipe, a: Action, i: nat)
    requires Ok(p) && !Cut(p, a) && a.OffloadThread? && p.off == Turn(true, i)
    ensures !Overwritten(p)
  {
  }

  /** A mover counts as finally polled from its own turn on. */
  lemma PolledBefore(p: Pipe, a: Action, i: nat)
    requires Ok(p) && p.initialized && i < |p.movers| && PolledFinally(Step(p, a).off, i)
    requires !(a.OffloadThread? && p.off == Turn(true, i))
    requires !Cut(p, a)
    ensures PolledFinally(p.off, i) && !(a.OffloadThread? && p.off.Turn? && p.off.i == i)
  {
    hide Ok, TurnRead, Poll, Step;
    if a.OffloadThread? && p.off.Turn? && p.off.i < |p.movers| {
      TurnReads(p, a.firstSync, a.secondSync);
      TurnMoves(p, a.firstSync, a.secondSync);
    } else {
      PolledOther(p, a, i);
    }
  }

  lemma PolledOther(p: Pipe, a: Action, i: nat)
    requires Ok(p) && p.initialized && i < |p.movers| && PolledFinally(Step(p, a).off, i)
    requires !(a.OffloadThread? && p.off.Turn? && p.off.i < |p.movers|)
    ensures PolledFinally(p.off, i)
  {
    hide RingsOk, FifoOk, HandOffOk, TurnStep, WriteWord;
    if a.ProcessThread? {
      ProcessKeeps(p);
    }
  }

  /** When an initialised offload has cleared the flag, or is past that, in a run whose final poll was not
      cut short: each mover had its turn in the final poll, and what was read of it is, unless it is
      done, all it had written by the end of that turn. A version 2 mover was flushed then; so if it
      is not done it has been read to its very end. */
  lemma FinalReadIsComplete(p: Pipe, actions: seq<Action>, i: nat) returns (n: nat)
    requires Fresh(p) && p.initialized && i < |p.movers| && Ok(p) && FinalPollUncut(p, actions)
    requires RunFresh(p, actions).off in {ClearFlag, Spin, EndTrace, Finish, Gone}
    ensures n < |actions| && actions[n].OffloadThread? && RunFresh(p, actions[..n]).off == Turn(true, i)
    ensures var a, q := RunFresh(p, actions[..n + 1]), RunFresh(p, actions);
            && (!q.bufs[i].offloadDone ==> Got(q, i) == a.movers[i].written)
            && (q.movers[i].version2 ==> q.movers[i].flushed)
            && (q.movers[i].version2 && !q.bufs[i].offloadDone ==> Got(q, i) == q.movers[i].written)
  {
    hide Run, Got, FinalPollUncut, Ok;
    n := AllFinallyRead(p, actions, i);
    RingsRefineStreams(p, actions, i);
  }
}
