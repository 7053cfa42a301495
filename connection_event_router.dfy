/**
 * `ConnectionEventRouter`: forwards the pipe data received on the global
 * event bus to the local event bus registered for the event's process id.
 *
 * A local bus is modelled by the list of events published on it.
 */
module ConnectionEventRouting {
  import opened Bytes
  import opened Wrappers

  /** Pipe data received from a game process; the process id is optional. */
  datatype PipeEvent = PipeEvent(data: string, source: string, processId: Option<uint32>)

  /** A connection's local event bus: what has been published on it. */
  class LocalEventBus {
    var published: seq<PipeEvent>

    constructor()
      ensures published == []
    {
      published := [];
    }

    /** `PublishAsync`: the event is delivered after the earlier ones. */
    method Publish(e: PipeEvent)
      modifies this
      ensures published == old(published) + [e]
    {
      published := published + [e];
    }
  }

  class ConnectionEventRouter {
    /** `_localEventBuses`: the bus of each registered process. */
    var buses: map<uint32, LocalEventBus>

    constructor()
      ensures buses == map[]
    {
      buses := map[];
    }

    /** The bus an event is routed to: the one registered for its process id, when it has one. */
    function Target(e: PipeEvent): (r: Option<LocalEventBus>)
      reads this
      ensures r.Some? <==> e.processId.Some? && e.processId.value in buses
      ensures r.Some? ==> r.value == buses[e.processId.value] && r.value in buses.Values
    {
      if e.processId.Some? && e.processId.value in buses then Some(buses[e.processId.value]) else None
    }

    /** `RegisterConnection`: the process's bus is set, replacing any earlier one. */
    method RegisterConnection(processId: uint32, bus: LocalEventBus)
      modifies this
      ensures buses == old(buses)[processId := bus]
      ensures forall e: PipeEvent | e.processId == Some(processId) :: Target(e) == Some(bus)
      ensures forall e: PipeEvent | e.processId != Some(processId) :: Target(e) == old(Target(e))
    {
      buses := buses[processId := bus];
    }

    /** `UnregisterConnection`: the process's bus is dropped; an unknown process changes nothing. */
    method UnregisterConnection(processId: uint32)
      modifies this
      ensures buses == old(buses) - {processId}
      ensures processId !in old(buses) ==> buses == old(buses)
      ensures forall e: PipeEvent | e.processId == Some(processId) :: Target(e).None?
      ensures forall e: PipeEvent | e.processId != Some(processId) :: Target(e) == old(Target(e))
    {
      buses := buses - {processId};
    }

    /**
     * `HandlePipeDataReceivedEvent`: an event with a registered process id is
     * published on that process's bus and on no other; any other event is
     * dropped.
     */
    method Route(e: PipeEvent) returns (routed: bool)
      modifies buses.Values
      ensures buses == old(buses)
      ensures routed <==> Target(e).Some?
      ensures routed ==> Target(e).value.published == old(Target(e).value.published) + [e]
      ensures forall b | b in buses.Values && (!routed || b != Target(e).value) :: b.published == old(b.published)
    {
      if e.processId.Some? && e.processId.value in buses {
        var bus := buses[e.processId.value];
        bus.Publish(e);
        return true;
      }
      return false;
    }
  }
}
