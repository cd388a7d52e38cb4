/** The reference input and output rules a unit uses when it needs no gating
    logic of its own (zenoh-flow/src/types.rs:141-164, 383-404). Both ignore the
    unit's execution context, so the model leaves it out. */
module Rules {
  import opened Errors
  import Messages
  import opened Tokens

  /** What an output rule puts on an output port: a data value, or a control
      message. */
  datatype ComponentOutput<V> = Data(value: V) | Control(control: Messages.ControlMessage)

  /** The AND-barrier: every declared input has a ready token this cycle. */
  ghost predicate AllReady<D>(inputs: map<string, Token<D>>)
  {
    forall port :: port in inputs ==> IsReady(inputs[port])
  }

  /** The data values carried by a set of outputs, port by port; control outputs
      carry none. */
  function DataPayloads<V>(outputs: map<string, ComponentOutput<V>>): (values: map<string, V>)
    ensures values.Keys <= outputs.Keys
    ensures forall port :: port in outputs && outputs[port].Data? ==>
      port in values && values[port] == outputs[port].value
  {
    map port | port in outputs && outputs[port].Data? :: outputs[port].value
  }

  /** default_input_rule: looks at every port's token in turn and answers "not
      ready" at the first token that is not ready; "ready" when there is none,
      so an empty set of inputs is ready. It never fails and does not touch the
      tokens (the map is passed by value). */
  method DefaultInputRule<D>(inputs: map<string, Token<D>>) returns (r: Result<bool>)
    ensures r.Ok?
    ensures r.value <==> AllReady(inputs)
    ensures !r.value <==> exists port :: port in inputs && IsNotReady(inputs[port])
  {
    var unseen := inputs.Keys;
    while unseen != {}
      invariant unseen <= inputs.Keys
      invariant forall port :: port in inputs && port !in unseen ==> IsReady(inputs[port])
      decreases unseen
    {
      var port :| port in unseen;
      match inputs[port] {
        case Ready(_) =>
        case NotReady =>
          return Ok(false);
      }
      unseen := unseen - {port};
    }
    return Ok(true);
  }

  /** default_output_rule: wraps every produced value as a data output on the same
      port, one to one, without filtering; it always succeeds. */
  method DefaultOutputRule<V>(outputs: map<string, V>)
    returns (r: Result<map<string, ComponentOutput<V>>>)
    ensures r.Ok?
    ensures r.value.Keys == outputs.Keys
    ensures forall port :: port in outputs ==> r.value[port] == ComponentOutput.Data(outputs[port])
    ensures DataPayloads(r.value) == outputs
  {
    var results: map<string, ComponentOutput<V>> := map[];
    var pending := outputs.Keys;
    while pending != {}
      invariant pending <= outputs.Keys
      invariant results.Keys == outputs.Keys - pending
      invariant forall port :: port in results ==> results[port] == ComponentOutput.Data(outputs[port])
      decreases pending
    {
      var port :| port in pending;
      results := results[port := ComponentOutput.Data(outputs[port])];
      pending := pending - {port};
    }
    r := Ok(results);
  }
}
