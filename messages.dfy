/** The transport-level messages the core consumes. Their definition lives in the
    runtime's message module, which is not part of this model; only what the
    token engine looks at is kept: a data message's timestamp and its opaque
    payload, and whether a message is control or data traffic. */
module Messages {

  /** A hybrid-logical-clock timestamp: a time reading and the identity of the
      clock that issued it. */
  datatype Timestamp = Timestamp(time: nat, clock: nat)

  /** Runtime-internal signalling; its contents are never inspected here. */
  datatype ControlMessage = ControlMessage(body: string)

  /** A data message: a timestamp and a payload of the unit's own type D. */
  datatype DataMessage<D> = DataMessage(timestamp: Timestamp, payload: D)

  datatype Message<D> = Control(control: ControlMessage) | Data(data: DataMessage<D>)
}
