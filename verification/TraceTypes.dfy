/** The values the PL trace pipeline passes around: event kinds, logged events, outstanding
    starts, and the static tables (monitors, compute units) that the logger consults. */
module TraceTypes {

  /** The PL members of VTFEventType, and the marker a failed lookup returns. */
  datatype EventType =
    | KERNEL
    | KERNEL_STALL_EXT_MEM
    | KERNEL_STALL_DATAFLOW
    | KERNEL_STALL_PIPE
    | KERNEL_READ
    | KERNEL_WRITE
    | KERNEL_STREAM_READ
    | KERNEL_STREAM_READ_STALL
    | KERNEL_STREAM_READ_STARVE
    | KERNEL_STREAM_WRITE
    | KERNEL_STREAM_WRITE_STALL
    | KERNEL_STREAM_WRITE_STARVE
    | UNKNOWN_EVENT

  /** An outstanding start, as kept in the per-monitor lists of the PL database. */
  datatype DeviceEventInfo = DeviceEventInfo(kind: EventType, eventID: nat, hostTimestamp: real, deviceTimestamp: nat)

  /** What a lookup returns when there is no outstanding start of the requested kind. */
  const NO_START: DeviceEventInfo := DeviceEventInfo(UNKNOWN_EVENT, 0, 0.0, 0)

  /** What the logger means an event to be. The original keeps only a start id, 0 for a start, from
      which an end that found no start cannot be told. */
  datatype Role = Begin | End(startId: nat)
  {
    /** The start id as stored: 0 for a start. */
    const stored: nat := match this case Begin => 0 case End(id) => id
  }

  /** A logged device event. `memStrId` is 0 for all but memory accesses. */
  datatype Event = Event(id: nat, role: Role, timestamp: real, kind: EventType,
                         deviceTimestamp: nat, monitorId: nat, cuId: int, memStrId: nat)
  {
    const startId: nat := role.stored
  }

  predicate IsStall(kind: EventType) {
    kind == KERNEL_STALL_EXT_MEM || kind == KERNEL_STALL_DATAFLOW || kind == KERNEL_STALL_PIPE
  }

  // Trace-id ranges of the three kinds of monitors.
  const MAX_TRACE_ID_AIM: nat := 61
  const MIN_TRACE_ID_AM: nat := 64
  const MAX_TRACE_ID_AM: nat := 544
  const MIN_TRACE_ID_ASM: nat := 576
  const MAX_TRACE_ID_ASM: nat := 607

  datatype Monitor = Monitor(slotIndex: nat, cuIndex: int, memIndex: int, isStreamRead: bool)

  /** The static tables of one loaded configuration: monitors by slot, compute units with the slot
      of their accelerator monitor (-1 for none), and string-table ids of the known memories. */
  datatype Design = Design(
    am: map<nat, Monitor>, aim: map<nat, Monitor>, asm: map<nat, Monitor>,
    numAM: nat, numAIM: nat, numUserAIM: nat, numUserASM: nat, numUserASMWithTrace: nat,
    userAIMsWithTrace: seq<Monitor>,
    accelMon: map<int, int>,
    memoryTag: map<int, nat>,
    clockRateMHz: real,
    hwFlow: bool)
  {
    /** A monitor's slot indexes the arrays sized for its type; so does a CU's AM slot. An AM is only
        ever made for a known CU. */
    ghost predicate Valid() {
      && clockRateMHz > 0.0
      && (forall s | s in am :: s < numAM && am[s].cuIndex in accelMon)
      && (forall s | s in aim :: s < numUserAIM)
      && (forall s | s in asm :: s < numUserASM)
      && numUserASMWithTrace <= numUserASM
      && (forall c | c in accelMon :: -1 <= accelMon[c] < numAM)
    }

    /** Slot of the AM watching a CU; -1 when the CU is unknown or has none. */
    function AccelMonOf(cuId: int): (r: int)
      requires Valid()
      ensures -1 <= r < numAM
    {
      if cuId != -1 && cuId in accelMon then accelMon[cuId] else -1
    }

    function MemStrId(mon: Monitor): nat {
      if mon.memIndex != -1 && mon.memIndex in memoryTag then memoryTag[mon.memIndex] else 0
    }

    /** Half a trace clock cycle, in milliseconds. */
    function HalfCycleMs(): (h: real)
      requires Valid()
      ensures h > 0.0
    {
      (0.5 / clockRateMHz) / 1000.0
    }
  }
}
