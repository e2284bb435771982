/** The dynamic database as the device logger uses it: it issues event ids, starting at 1, and
    forwards device events and device starts to the PL database. */
module Database {
  import opened TraceTypes
  import opened StartLists

  class VPDynamicDatabase {
    var eventId: nat
    const plDb: PLDB

    constructor ()
      ensures eventId == 1 && fresh(plDb)
      ensures plDb.startEvents == map[] && plDb.events == []
    {
      eventId := 1;
      plDb := new PLDB();
    }

    /** Stamp the event with the next id and store it. */
    method AddEvent(event: Event) returns (stamped: Event)
      modifies this, plDb`events
      ensures stamped == event.(id := old(eventId))
      ensures eventId == old(eventId) + 1
      ensures plDb.events == old(plDb.events) + [stamped]
    {
      stamped := event.(id := eventId);
      eventId := eventId + 1;
      plDb.AddEvent(stamped);
    }

    method MarkDeviceEventStart(monitorId: nat, info: DeviceEventInfo)
      modifies plDb`startEvents
      ensures plDb.startEvents == Mark(old(plDb.startEvents), monitorId, info)
    {
      plDb.MarkStart(monitorId, info);
    }

    method MatchingDeviceEventStart(monitorId: nat, kind: EventType) returns (info: DeviceEventInfo)
      modifies plDb`startEvents
      ensures info == Found(old(plDb.startEvents), monitorId, kind)
      ensures plDb.startEvents == Take(old(plDb.startEvents), monitorId, kind)
    {
      info := plDb.FindMatchingStart(monitorId, kind);
    }

    method HasMatchingDeviceEventStart(monitorId: nat, kind: EventType) returns (has: bool)
      modifies plDb`startEvents
      ensures has <==> Queue(old(plDb.startEvents), monitorId, kind) != []
      ensures plDb.startEvents == Touch(old(plDb.startEvents), monitorId)
    {
      has := plDb.HasMatchingStart(monitorId, kind);
    }
  }
}
