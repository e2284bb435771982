/** Matching ends of API calls with their starts, in place, in one list per (name, thread). */
module CallStats {

  type Key = (string, nat)  // API name, thread id
  type Calls = seq<(real, real)>  // start time, end time; 0 for an end that has not come

  function CallsOf(m: map<Key, Calls>, key: Key): Calls {
    if key in m then m[key] else []
  }

  function StartCall(v: Calls, t: real): Calls { v + [(t, 0.0)] }

  /** One past the last call before n that has no end; 0 if there is none. */
  function LastOpen(v: Calls, n: nat): (r: nat)
    requires n <= |v|
    ensures r <= n
  {
    if n == 0 then 0 else if v[n - 1].1 == 0.0 then n else LastOpen(v, n - 1)
  }

  function EndCall(v: Calls, t: real): Calls {
    var n := LastOpen(v, |v|);
    if n == 0 then v else v[n - 1 := (v[n - 1].0, t)]
  }

  // ----- A call stack -----

  datatype End = Pending | At(t: real)

  /** Calls in the order they began, and the stack of those in progress. */
  datatype Stack = Stack(calls: seq<(real, End)>, open: seq<nat>)

  datatype Call = Start(t: real) | Finish(t: real)

  function StackStep(s: Stack, c: Call): Stack {
    match c
    case Start(t) => Stack(s.calls + [(t, Pending)], s.open + [|s.calls|])
    case Finish(t) =>
      if s.open == [] then s
      else
        var top := s.open[|s.open| - 1];
        if top < |s.calls| then Stack(s.calls[top := (s.calls[top].0, At(t))], s.open[..|s.open| - 1]) else s
  }

  function StackRun(calls: seq<Call>): Stack {
    if calls == [] then Stack([], []) else StackStep(StackRun(calls[..|calls| - 1]), calls[|calls| - 1])
  }

  function CallStep(v: Calls, c: Call): Calls {
    match c
    case Start(t) => StartCall(v, t)
    case Finish(t) => EndCall(v, t)
  }

  function CallRun(calls: seq<Call>): Calls {
    if calls == [] then [] else CallStep(CallRun(calls[..|calls| - 1]), calls[|calls| - 1])
  }

  /** A list entry and a call on record. */
  predicate SameCall(x: (real, real), y: (real, End)) {
    && x.0 == y.0
    && (match y.1 case Pending => x.1 == 0.0 case At(t) => x.1 == t && t != 0.0)
  }

  /** The list and the stack tell the same story. */
  ghost predicate Same(v: Calls, s: Stack) {
    && |v| == |s.calls|
    && (forall i | 0 <= i < |v| :: SameCall(v[i], s.calls[i]))
    && (forall i | 0 <= i < |s.open| :: s.open[i] < |v| && s.calls[s.open[i]].1 == Pending)
    && (forall i, j | 0 <= i < j < |s.open| :: s.open[i] < s.open[j])
    && (forall k | 0 <= k < |v| :: s.calls[k].1 == Pending ==> k in s.open)
  }

  lemma {:induction false} LastOpenIs(v: Calls, n: nat)
    requires n <= |v|
    ensures LastOpen(v, n) > 0 ==> v[LastOpen(v, n) - 1].1 == 0.0
    ensures forall k | LastOpen(v, n) <= k < n :: v[k].1 != 0.0
  {
    if n > 0 && v[n - 1].1 != 0.0 {
      LastOpenIs(v, n - 1);
    }
  }

  /** The search from the back finds the top of the stack. */
  lemma TopIsLastOpen(v: Calls, s: Stack)
    requires Same(v, s)
    ensures LastOpen(v, |v|) == if s.open == [] then 0 else s.open[|s.open| - 1] + 1
  {
    LastOpenIs(v, |v|);
    var n := LastOpen(v, |v|);
    if n > 0 {
      assert s.calls[n - 1].1 == Pending;
      var i :| 0 <= i < |s.open| && s.open[i] == n - 1;
    }
    if s.open != [] {
      assert s.calls[s.open[|s.open| - 1]].1 == Pending;
    }
  }

  lemma StartSame(v: Calls, s: Stack, t: real)
    requires Same(v, s)
    ensures Same(StartCall(v, t), StackStep(s, Start(t)))
  {
    var v', s' := StartCall(v, t), StackStep(s, Start(t));
    forall i | 0 <= i < |v'|
      ensures v'[i].0 == s'.calls[i].0
      ensures i < |v| ==> v'[i] == v[i] && s'.calls[i] == s.calls[i]
      ensures s'.calls[i].1 == Pending ==> i in s'.open
    {
      if i < |v| {
        if s.calls[i].1 == Pending {
          assert i in s.open;
          var k :| 0 <= k < |s.open| && s.open[k] == i;
          assert s'.open[k] == i;
        }
      } else {
        assert s'.open[|s.open|] == i;
      }
    }
  }

  lemma FinishSame(v: Calls, s: Stack, t: real)
    requires Same(v, s) && t != 0.0
    ensures Same(EndCall(v, t), StackStep(s, Finish(t)))
  {
    hide LastOpen;
    TopIsLastOpen(v, s);
    if s.open != [] {
      PopSame(v, s, t);
    }
  }

  lemma PopSame(v: Calls, s: Stack, t: real)
    requires Same(v, s) && t != 0.0 && s.open != []
    ensures var top := s.open[|s.open| - 1];
            top < |v| && Same(v[top := (v[top].0, t)], StackStep(s, Finish(t)))
  {
    hide SameCall;
    var n := |s.open| - 1;
    var top := s.open[n];
    assert SameCall(v[top], s.calls[top]);
    var v', s' := v[top := (v[top].0, t)], StackStep(s, Finish(t));
    assert SameCall(v'[top], s'.calls[top]) by {
      Marked(v[top], s.calls[top], t);
    }
    forall k | 0 <= k < |v'| && s'.calls[k].1 == Pending ensures k in s'.open {
      assert k != top && s.calls[k].1 == Pending;
      assert k in s.open;
      var i :| 0 <= i < |s.open| && s.open[i] == k;
      assert s'.open[i] == k;
    }
    forall i | 0 <= i < |s'.open| ensures s'.open[i] != top && s'.open[i] == s.open[i] {
    }
  }

  lemma Marked(x: (real, real), y: (real, End), t: real)
    requires SameCall(x, y) && t != 0.0
    ensures SameCall((x.0, t), (y.0, At(t)))
  {
  }

  lemma StepSame(v: Calls, s: Stack, c: Call)
    requires Same(v, s) && (c.Finish? ==> c.t != 0.0)
    ensures Same(CallStep(v, c), StackStep(s, c))
  {
    hide Same, StackStep, StartCall, EndCall;
    match c
    case Start(t) => StartSame(v, s, t);
    case Finish(t) => FinishSame(v, s, t);
  }

  /** With end times that are not zero, marking ends in place refines a call stack: each end closes the
      innermost call in progress, and an end without one changes nothing. */
  lemma {:induction false} RefinesStack(calls: seq<Call>)
    requires forall i | 0 <= i < |calls| :: calls[i].Finish? ==> calls[i].t != 0.0
    ensures Same(CallRun(calls), StackRun(calls))
  {
    hide Same, StackStep, CallStep;
    if calls == [] {
      Empty();
    } else {
      RefinesStack(calls[..|calls| - 1]);
      StepSame(CallRun(calls[..|calls| - 1]), StackRun(calls[..|calls| - 1]), calls[|calls| - 1]);
    }
  }

  lemma Empty()
    ensures Same([], Stack([], []))
  {
  }

  /** An end at time zero is not seen as an end: the call stays open. An end closes a call if and only
      if one is open and the time is not zero. */
  lemma EndClosesIff(v: Calls, t: real)
    ensures EndCall(v, t) != v <==> LastOpen(v, |v|) > 0 && t != 0.0
  {
    LastOpenIs(v, |v|);
  }

  // ----- Intervals of completed calls -----

  predicate Closed(v: Calls, i: nat)
    requires i < |v|
  {
    v[i].1 != 0.0
  }

  /** Starts in order; a call that has ended did so before any later call that is still open began;
      two calls that have ended are nested or disjoint. */
  ghost predicate Laminar(v: Calls, now: real) {
    && (forall i | 0 <= i < |v| :: v[i].0 <= now && (Closed(v, i) ==> v[i].0 <= v[i].1 <= now))
    && (forall i, j | 0 <= i < j < |v| :: v[i].0 <= v[j].0)
    && (forall i, j | 0 <= i < j < |v| :: Closed(v, i) && !Closed(v, j) ==> v[i].1 <= v[j].0)
    && (forall i, j | 0 <= i < j < |v| :: Closed(v, i) && Closed(v, j) ==> v[i].1 <= v[j].0 || v[j].1 <= v[i].1)
  }

  lemma StartLaminar(v: Calls, now: real, t: real)
    requires Laminar(v, now) && now <= t
    ensures Laminar(StartCall(v, t), t)
  {
    var v' := StartCall(v, t);
    assert v'[|v|] == (t, 0.0);
    forall k | 0 <= k < |v| ensures v'[k] == v[k] && Closed(v', k) == Closed(v, k) {
    }
  }

  lemma FinishLaminar(v: Calls, now: real, t: real)
    requires Laminar(v, now) && now <= t && t != 0.0
    ensures Laminar(EndCall(v, t), t)
  {
    hide LastOpen;
    LastOpenIs(v, |v|);
    var n := LastOpen(v, |v|);
    if n > 0 {
      MarkLaminar(v, now, t, n - 1);
    }
  }

  /** Closing a call after which every call has ended. */
  lemma MarkLaminar(v: Calls, now: real, t: real, top: nat)
    requires Laminar(v, now) && now <= t && t != 0.0 && top < |v| && !Closed(v, top)
    requires forall k | top < k < |v| :: Closed(v, k)
    ensures Laminar(v[top := (v[top].0, t)], t)
  {
    var v' := v[top := (v[top].0, t)];
    forall k | 0 <= k < |v|
      ensures k != top ==> v'[k] == v[k] && Closed(v', k) == Closed(v, k)
      ensures v'[k].0 == v[k].0 && (Closed(v', k) ==> v'[k].0 <= v'[k].1 <= t)
    {
    }
    forall i, j | 0 <= i < j < |v'| && Closed(v', i)
      ensures Closed(v', j) ==> v'[i].1 <= v'[j].0 || v'[j].1 <= v'[i].1
      ensures !Closed(v', j) ==> v'[i].1 <= v'[j].0
    {
    }
  }

  lemma StepLaminar(v: Calls, now: real, c: Call)
    requires Laminar(v, now) && now <= c.t && (c.Finish? ==> c.t != 0.0)
    ensures Laminar(CallStep(v, c), c.t)
  {
    hide Laminar, StartCall, EndCall;
    match c
    case Start(t) => StartLaminar(v, now, t);
    case Finish(t) => FinishLaminar(v, now, t);
  }

  predicate Nondecreasing(calls: seq<Call>) {
    forall i, j | 0 <= i < j < |calls| :: calls[i].t <= calls[j].t
  }

  lemma {:induction false} RunLaminar(calls: seq<Call>, now: real)
    requires Nondecreasing(calls) && (forall i | 0 <= i < |calls| :: calls[i].Finish? ==> calls[i].t != 0.0)
    requires forall i | 0 <= i < |calls| :: calls[i].t <= now
    ensures Laminar(CallRun(calls), now)
  {
    hide CallStep, Laminar;
    if calls == [] {
      NothingLaminar(now);
    } else {
      var n := |calls| - 1;
      RunLaminar(calls[..n], calls[n].t);
      StepLaminar(CallRun(calls[..n]), calls[n].t, calls[n]);
      LaterLaminar(CallRun(calls), calls[n].t, now);
    }
  }

  lemma NothingLaminar(now: real)
    ensures Laminar([], now)
  {
  }

  lemma LaterLaminar(v: Calls, now: real, later: real)
    requires Laminar(v, now) && now <= later
    ensures Laminar(v, later)
  {
  }

  /** With nonzero, nondecreasing times any two completed calls of a key are nested or disjoint. */
  lemma CompletedNestOrDisjoint(calls: seq<Call>, i: nat, j: nat)
    requires Nondecreasing(calls) && (forall k | 0 <= k < |calls| :: calls[k].Finish? ==> calls[k].t != 0.0)
    requires i < j < |CallRun(calls)| && Closed(CallRun(calls), i) && Closed(CallRun(calls), j)
    ensures var (a, b) := (CallRun(calls)[i], CallRun(calls)[j]);
            a.0 <= a.1 && b.0 <= b.1 && (a.1 <= b.0 || (a.0 <= b.0 && b.1 <= a.1))
  {
    if calls != [] {
      RunLaminar(calls, calls[|calls| - 1].t);
    }
  }

  // ----- All keys together -----

  function LogStep(m: map<Key, Calls>, key: Key, c: Call): map<Key, Calls> {
    m[key := CallStep(CallsOf(m, key), c)]
  }

  function LogRun(log: seq<(Key, Call)>): map<Key, Calls> {
    if log == [] then map[]
    else LogStep(LogRun(log[..|log| - 1]), log[|log| - 1].0, log[|log| - 1].1)
  }

  /** The calls of one key. */
  function Project(log: seq<(Key, Call)>, key: Key): seq<Call> {
    if log == [] then []
    else
      var last := log[|log| - 1];
      Project(log[..|log| - 1], key) + if last.0 == key then [last.1] else []
  }

  /** Keys do not disturb each other: each list is what its own calls alone would make. */
  lemma {:induction false} KeysIndependent(log: seq<(Key, Call)>, key: Key)
    ensures CallsOf(LogRun(log), key) == CallRun(Project(log, key))
  {
    hide CallStep;
    if log != [] {
      var before, last := log[..|log| - 1], log[|log| - 1];
      KeysIndependent(before, key);
      if last.0 == key {
        var ps := Project(before, key);
        assert (ps + [last.1])[..|ps|] == ps;
      } else {
        assert Project(log, key) == Project(before, key);
      }
    }
  }
}
