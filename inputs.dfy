/** The input bundle handed to a unit's run function: the data message consumed
    on each input port this cycle (zenoh-flow/src/types.rs:333-358). */
module Inputs {
  import opened Errors
  import opened Messages

  class Input<D> {
    /** Port identifier to message; at most one message per port. */
    var entries: map<string, DataMessage<D>>

    /** new (and default): an empty bundle. */
    constructor ()
      ensures entries == map[]
    {
      entries := map[];
    }

    /** The message held for a port, if any. */
    function Get(id: string): (r: Option<DataMessage<D>>)
      reads this
      ensures r.Some? <==> id in entries
      ensures r.Some? ==> r.value == entries[id]
    {
      if id in entries then Some(entries[id]) else None
    }

    /** Stores a message for a port, replacing and returning the one it held. */
    method Insert(id: string, data: DataMessage<D>) returns (previous: Option<DataMessage<D>>)
      modifies this
      ensures entries == old(entries)[id := data]
      ensures previous == old(Get(id))
      ensures Get(id) == Some(data)
      ensures forall other :: other != id ==> Get(other) == old(Get(other))
    {
      previous := Get(id);
      entries := entries[id := data];
    }
  }
}
