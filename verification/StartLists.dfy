/** The outstanding device starts of the PL database: one mixed list per monitor id. */
module StartLists {
  import opened TraceTypes

  type Starts = map<nat, seq<DeviceEventInfo>>

  function ListOf(m: Starts, key: nat): seq<DeviceEventInfo> {
    if key in m then m[key] else []
  }

  function Mark(m: Starts, key: nat, info: DeviceEventInfo): Starts {
    m[key := ListOf(m, key) + [info]]
  }

  /** Looking a list up creates it when it is missing. */
  function Touch(m: Starts, key: nat): Starts {
    m[key := ListOf(m, key)]
  }

  /** Position of the oldest entry of a kind from i on; the length of the list when there is none. */
  function FirstFrom(list: seq<DeviceEventInfo>, kind: EventType, i: nat): (r: nat)
    requires i <= |list|
    ensures i <= r <= |list|
    ensures r < |list| ==> list[r].kind == kind
    decreases |list| - i
  {
    if i == |list| || list[i].kind == kind then i else FirstFrom(list, kind, i + 1)
  }

  function FirstIndex(list: seq<DeviceEventInfo>, kind: EventType): nat {
    FirstFrom(list, kind, 0)
  }

  function Found(m: Starts, key: nat, kind: EventType): DeviceEventInfo {
    var list := ListOf(m, key);
    var i := FirstIndex(list, kind);
    if i < |list| then list[i] else NO_START
  }

  function Drop(list: seq<DeviceEventInfo>, i: nat): seq<DeviceEventInfo>
    requires i < |list|
  {
    list[..i] + list[i + 1..]
  }

  function Take(m: Starts, key: nat, kind: EventType): Starts {
    var list := ListOf(m, key);
    var i := FirstIndex(list, kind);
    if i < |list| then m[key := Drop(list, i)] else m[key := list]
  }

  lemma TouchAbsorbed(m: Starts, key: nat, kind: EventType, info: DeviceEventInfo)
    ensures Found(Touch(m, key), key, kind) == Found(m, key, kind)
    ensures Take(Touch(m, key), key, kind) == Take(m, key, kind)
    ensures Mark(Touch(m, key), key, info) == Mark(m, key, info)
  {
    assert ListOf(Touch(m, key), key) == ListOf(m, key);
  }

  /** The PL database's table of outstanding starts, updated in place. */
  class PLDB {
    var startEvents: Starts
    var events: seq<Event>  // in the order they were added; the original sorts them by timestamp

    constructor ()
      ensures startEvents == map[] && events == []
    {
      startEvents := map[];
      events := [];
    }

    method AddEvent(event: Event)
      modifies this`events
      ensures events == old(events) + [event]
    {
      events := events + [event];
    }

    method MarkStart(monitorId: nat, info: DeviceEventInfo)
      modifies this`startEvents
      ensures startEvents == Mark(old(startEvents), monitorId, info)
    {
      startEvents := startEvents[monitorId := ListOf(startEvents, monitorId) + [info]];
    }

    method FindMatchingStart(monitorId: nat, kind: EventType) returns (eventInfo: DeviceEventInfo)
      modifies this`startEvents
      ensures eventInfo == Found(old(startEvents), monitorId, kind)
      ensures startEvents == Take(old(startEvents), monitorId, kind)
    {
      eventInfo := NO_START;
      // Indexing the table creates the list when it is missing.
      var list := ListOf(startEvents, monitorId);
      startEvents := startEvents[monitorId := list];
      var i := 0;
      while i < |list|
        invariant i <= |list|
        invariant FirstIndex(list, kind) == FirstFrom(list, kind, i)
      {
        if list[i].kind == kind {
          eventInfo := list[i];
          startEvents := startEvents[monitorId := Drop(list, i)];
          return;
        }
        i := i + 1;
      }
    }

    method HasMatchingStart(monitorId: nat, kind: EventType) returns (has: bool)
      modifies this`startEvents
      ensures has <==> Queue(old(startEvents), monitorId, kind) != []
      ensures startEvents == Touch(old(startEvents), monitorId)
    {
      var list := ListOf(startEvents, monitorId);
      startEvents := startEvents[monitorId := list];
      QueueHead(list, kind);
      var i := 0;
      while i < |list|
        invariant i <= |list|
        invariant FirstIndex(list, kind) == FirstFrom(list, kind, i)
      {
        if list[i].kind == kind {
          return true;
        }
        i := i + 1;
      }
      return false;
    }
  }

  // ----- The lists refine one first-in first-out queue per monitor and kind -----

  /** The entries of one kind, oldest first. */
  function OfKind(list: seq<DeviceEventInfo>, kind: EventType): seq<DeviceEventInfo> {
    if list == [] then []
    else if list[0].kind == kind then [list[0]] + OfKind(list[1..], kind)
    else OfKind(list[1..], kind)
  }

  function Queue(m: Starts, key: nat, kind: EventType): seq<DeviceEventInfo> {
    OfKind(ListOf(m, key), kind)
  }

  lemma {:induction false} OfKindConcat(a: seq<DeviceEventInfo>, b: seq<DeviceEventInfo>, kind: EventType)
    ensures OfKind(a + b, kind) == OfKind(a, kind) + OfKind(b, kind)
  {
    if a == [] {
      assert a + b == b;
    } else {
      assert (a + b)[1..] == a[1..] + b;
      OfKindConcat(a[1..], b, kind);
    }
  }

  lemma {:induction false} AllOfKind(list: seq<DeviceEventInfo>, kind: EventType, i: nat)
    requires i < |OfKind(list, kind)|
    ensures OfKind(list, kind)[i].kind == kind && OfKind(list, kind)[i] in list
  {
    var k := if list[0].kind == kind then 1 else 0;
    if i >= k {
      AllOfKind(list[1..], kind, i - k);
    }
  }

  /** Recording a start appends it to its own queue and to no other. */
  lemma MarkRefines(m: Starts, key: nat, info: DeviceEventInfo, key': nat, kind': EventType)
    ensures Queue(Mark(m, key, info), key', kind') ==
            if key' == key && kind' == info.kind then Queue(m, key', kind') + [info] else Queue(m, key', kind')
  {
    OfKindConcat(ListOf(m, key), [info], kind');
  }

  lemma {:induction false} NoneBefore(list: seq<DeviceEventInfo>, kind: EventType, i: nat)
    requires i <= FirstIndex(list, kind)
    requires FirstFrom(list, kind, i) == FirstIndex(list, kind)
    ensures OfKind(list[i..FirstIndex(list, kind)], kind) == []
    decreases |list| - i
  {
    var r := FirstIndex(list, kind);
    if i < r {
      NoneBefore(list, kind, i + 1);
      assert list[i..r][1..] == list[i + 1..r];
    }
  }

  /** An entry splits a list, and each of its queues, in three. */
  lemma OfKindAround(list: seq<DeviceEventInfo>, i: nat, kind: EventType)
    requires i < |list|
    ensures OfKind(list, kind) == OfKind(list[..i], kind) + OfKind([list[i]], kind) + OfKind(list[i + 1..], kind)
  {
    assert list == (list[..i] + [list[i]]) + list[i + 1..];
    OfKindConcat(list[..i] + [list[i]], list[i + 1..], kind);
    OfKindConcat(list[..i], [list[i]], kind);
  }

  /** The oldest entry of a kind heads its queue; dropping it leaves the other queues alone. */
  lemma DropFirst(list: seq<DeviceEventInfo>, kind: EventType, kind': EventType, i: nat)
    requires i == FirstIndex(list, kind) < |list|
    ensures kind' != kind ==> OfKind(Drop(list, i), kind') == OfKind(list, kind')
    ensures [list[i]] + OfKind(Drop(list, i), kind) == OfKind(list, kind)
  {
    NoneBefore(list, kind, 0);
    assert list[0..i] == list[..i];
    OfKindAround(list, i, kind);
    OfKindConcat(list[..i], list[i + 1..], kind);
    if kind' != kind {
      OfKindAround(list, i, kind');
      OfKindConcat(list[..i], list[i + 1..], kind');
      assert OfKind([list[i]], kind') == [];
    }
  }

  lemma QueueHead(list: seq<DeviceEventInfo>, kind: EventType)
    ensures FirstIndex(list, kind) == |list| <==> OfKind(list, kind) == []
    ensures FirstIndex(list, kind) < |list| ==> list[FirstIndex(list, kind)] == OfKind(list, kind)[0]
  {
    var i := FirstIndex(list, kind);
    if i == |list| {
      NoneBefore(list, kind, 0);
      assert list[0..i] == list;
    } else {
      DropFirst(list, kind, kind, i);
    }
  }

  /** A lookup answers with the head of its queue and removes it; every other queue stays as it was. */
  lemma TakeRefines(m: Starts, key: nat, kind: EventType, key': nat, kind': EventType)
    ensures Found(m, key, kind) == if Queue(m, key, kind) == [] then NO_START else Queue(m, key, kind)[0]
    ensures Queue(Take(m, key, kind), key', kind') ==
            if key' == key && kind' == kind && Queue(m, key', kind') != [] then Queue(m, key', kind')[1..]
            else Queue(m, key', kind')
  {
    var list := ListOf(m, key);
    QueueHead(list, kind);
    if FirstIndex(list, kind) < |list| {
      DropFirst(list, kind, kind', FirstIndex(list, kind));
    }
  }

  /** Looked-up kinds are real ones, so an UNKNOWN answer means exactly an empty queue. */
  lemma UnknownMeansEmpty(m: Starts, key: nat, kind: EventType)
    requires kind != UNKNOWN_EVENT
    ensures Found(m, key, kind).kind == UNKNOWN_EVENT <==> Queue(m, key, kind) == []
    ensures Queue(m, key, kind) != [] ==> Found(m, key, kind).kind == kind
  {
    TakeRefines(m, key, kind, key, kind);
    if Queue(m, key, kind) != [] {
      AllOfKind(ListOf(m, key), kind, 0);
    }
  }

  datatype Op =
    | MarkOp(key: nat, info: DeviceEventInfo)
    | FindOp(key: nat, kind: EventType)
    | HasOp(key: nat, kind: EventType)

  function Apply(m: Starts, op: Op): Starts {
    match op
    case MarkOp(key, info) => Mark(m, key, info)
    case FindOp(key, kind) => Take(m, key, kind)
    case HasOp(key, _) => Touch(m, key)
  }

  function Run(m: Starts, ops: seq<Op>): Starts {
    if ops == [] then m else Apply(Run(m, ops[..|ops| - 1]), ops[|ops| - 1])
  }

  /** One operation as a queue for (key, kind) that knows nothing of the other queues sees it. */
  function QueueStep(q: seq<DeviceEventInfo>, key: nat, kind: EventType, op: Op): seq<DeviceEventInfo> {
    match op
    case MarkOp(k, info) => if k == key && info.kind == kind then q + [info] else q
    case FindOp(k, t) => if k == key && t == kind && q != [] then q[1..] else q
    case HasOp(_, _) => q
  }

  function QueueRun(q: seq<DeviceEventInfo>, key: nat, kind: EventType, ops: seq<Op>): seq<DeviceEventInfo> {
    if ops == [] then q
    else QueueStep(QueueRun(q, key, kind, ops[..|ops| - 1]), key, kind, ops[|ops| - 1])
  }

  lemma ApplyRefines(m: Starts, op: Op, key: nat, kind: EventType)
    ensures Queue(Apply(m, op), key, kind) == QueueStep(Queue(m, key, kind), key, kind, op)
  {
    match op
    case MarkOp(k, info) => MarkRefines(m, k, info, key, kind);
    case FindOp(k, t) => TakeRefines(m, k, t, key, kind);
    case HasOp(k, t) =>
  }

  /** Over any sequence of operations the mixed lists behave as independent queues, and a lookup
      answers with the head of the queue it asks about. */
  lemma {:induction false} RunRefinesQueues(m: Starts, ops: seq<Op>, key: nat, kind: EventType)
    ensures Queue(Run(m, ops), key, kind) == QueueRun(Queue(m, key, kind), key, kind, ops)
    ensures QueueRun(Queue(m, key, kind), key, kind, ops) == [] ==> Found(Run(m, ops), key, kind) == NO_START
    ensures QueueRun(Queue(m, key, kind), key, kind, ops) != [] ==>
              Found(Run(m, ops), key, kind) == QueueRun(Queue(m, key, kind), key, kind, ops)[0]
  {
    if ops != [] {
      RunRefinesQueues(m, ops[..|ops| - 1], key, kind);
      ApplyRefines(Run(m, ops[..|ops| - 1]), ops[|ops| - 1], key, kind);
    }
    TakeRefines(Run(m, ops), key, kind, key, kind);
  }
}
