# zenoh-flow readiness tokens and default rules, in Dafny

This project models the part of zenoh-flow that decides whether a dataflow unit
(a source, operator or sink) may run in a given cycle:

- the error kinds the core reports (`ZFError`) and the mapping of a failed
  non-blocking channel receive onto them (module `Errors`);
- the messages the runtime hands to the core, kept opaque except for what the
  token engine looks at: control versus data traffic, and a data message's
  timestamp and payload (module `Messages`);
- the per-port `Token`, which is either `NotReady` or `Ready` with a message and
  an action (`Consume`, `Drop`, `KeepRun`, `Keep`, `Wait`); its observers, the
  conversion from a message, and the four in-place setters `consume`, `drop`,
  `keep_run` and `keep` (module `Tokens`; the setters are methods of the class
  `TokenCell`, which holds a token the way a `&mut Token` does, and are specified
  by the function `SetAction`);
- the input bundle `ZFInput` handed to a unit's run function, a class over a map
  from port to data message (module `Inputs`);
- the default input rule, an AND-barrier over a map from port to token, and the
  default output rule, which wraps every produced value as a data output
  (module `Rules`).

Data payloads and output values are type parameters: the core never looks
inside them. The default rules take the unit's execution context but never use
it, so the model drops that parameter. The default input rule receives its map
through a mutable borrow and never writes to it; the model passes the map by
value, so "the tokens are left unchanged" holds by construction.

Beyond the single-call contracts, the model proves what a series of setter
calls does (`ApplySettersLastWins`): a token that is not ready is never changed,
and a ready token keeps its message and carries the action of the last call, so
the setters are idempotent and none of them can make a ready token report
`Wait`.

## Model

| member | source | states |
|---|---|---|
| Errors.FromTryRecvError | zenoh-flow/src/types.rs:68-75 | a disconnected channel becomes `Disconnected` and an empty one `Empty`; the result is always one of those two and maps back to the channel error it came from |
| Tokens.IsNotReady | zenoh-flow/src/types.rs:254-260 | `is_not_ready` is exactly the negation of `is_ready`, which `Tokens.IsReady` models as the `Ready` case |
| Tokens.GetTimestamp | zenoh-flow/src/types.rs:247-252 | a timestamp is returned iff the token is ready, and it is the timestamp of the token's message |
| Tokens.GetData | zenoh-flow/src/types.rs:302-307 | succeeds iff the token is ready, returning exactly the token's message, whose timestamp is the one `get_timestamp` reports; otherwise fails with `GenericError` |
| Tokens.GetAction | zenoh-flow/src/types.rs:309-314 | `Wait` for a token that is not ready, the stored action for a ready one; on a well-formed token `Wait` is returned exactly when the token is not ready |
| Tokens.Split | zenoh-flow/src/types.rs:316-321 | the message part is present iff `data` succeeds and equals its message; the action part is what `action` returns |
| Tokens.NewReady | zenoh-flow/src/types.rs:240-245 | the new token is ready and well formed, holds the given message, and its action is `Consume` |
| Tokens.FromMessage | zenoh-flow/src/types.rs:324-331 | a control message gives a token that is not ready; a data message gives a ready token holding that message with action `Consume`; the token is well formed |
| Tokens.SetAction | zenoh-flow/src/types.rs:262-300 | a setter succeeds iff the token is ready; on success the message is unchanged and the action is the one set; on failure the error is `GenericError` and the token is unchanged; the result never pairs a ready token with `Wait` |
| Tokens.ApplySettersLastWins | zenoh-flow/src/types.rs:262-300 | after any series of setter calls a token that was not ready is unchanged, and a ready token holds its original message with the action of the last call |
| Tokens.SetterIdempotent | zenoh-flow/src/types.rs:262-300 | calling a setter twice in a row leaves the same token as calling it once |
| Tokens.SettersKeepReadiness | zenoh-flow/src/types.rs:262-300 | no series of setter calls changes a token's readiness or its message, and after at least one call a ready token's action is never `Wait` |
| Tokens.TokenCell.Consume | zenoh-flow/src/types.rs:262-270 | the held token and the outcome are those `SetAction` gives for `Consume` on the previous token; the held token stays well formed |
| Tokens.TokenCell.Drop | zenoh-flow/src/types.rs:272-280 | the held token and the outcome are those `SetAction` gives for `Drop` on the previous token; the held token stays well formed |
| Tokens.TokenCell.KeepRun | zenoh-flow/src/types.rs:282-290 | the held token and the outcome are those `SetAction` gives for `KeepRun` on the previous token; the held token stays well formed |
| Tokens.TokenCell.Keep | zenoh-flow/src/types.rs:292-300 | the held token and the outcome are those `SetAction` gives for `Keep` on the previous token; the held token stays well formed |
| Inputs.Input.constructor | zenoh-flow/src/types.rs:336-345 | a new input bundle holds no message |
| Inputs.Input.Get | zenoh-flow/src/types.rs:351-353 | a message is returned iff the port has one, and it is that port's message |
| Inputs.Input.Insert | zenoh-flow/src/types.rs:347-349 | the port now maps to the inserted message, so `get` returns it; every other port is unchanged; the message the port held before, if any, is returned |
| Rules.DefaultInputRule | zenoh-flow/src/types.rs:395-404 | never fails; answers true iff every token in the map is ready (so true for an empty map), and false iff some token is not ready |
| Rules.DefaultOutputRule | zenoh-flow/src/types.rs:383-393 | never fails; the result has exactly the input's ports, each mapped to `Data` of its input value, so taking the data values back out gives the input |

## Left out

- The execution context `ZFContext` (zenoh-flow/src/types.rs:101-122) and its
  blocking and suspending locks: its only behaviour is mutual exclusion between
  concurrent callers, which a sequential model does not have.
- The serialisable `DataTrait`/`StateTrait` values, `as_any` downcasting and
  `EmptyState` (zenoh-flow/src/types.rs:126-137, 369-381): runtime reflection and
  serialisation by external libraries; payloads are type parameters here.
- `OperatorTrait`, `SourceTrait`, `SinkTrait`, `OperatorMode` and the closure and
  future type aliases (zenoh-flow/src/types.rs:139, 151-154, 157-213): interfaces
  with no logic of their own. `ZFComponentOutput` and the rule result aliases are
  modelled as `Rules.ComponentOutput` and `Result`.
- The conversions into `ZFError` from flume's `RecvError` and `SendError`, from
  I/O, transport and library-loading errors (zenoh-flow/src/types.rs:62-66,
  77-99): they only wrap a foreign error or format it into a string.
- `ZFInput::get_mut` and the iterator over `ZFInput` (zenoh-flow/src/types.rs:
  355-367): a mutable reference into the map and an iteration in hash order;
  replacing a port's message is covered by `Insert`, and the map itself is the
  public field `entries`.
- The periodic hybrid logical clock (zenoh-flow/src/utils/hlc.rs): it quantises
  time in floating point and wraps an external clock, neither of which is
  modelled; a timestamp keeps its time and clock identity, but the model never
  inspects either.
- The example operator zenoh-flow-examples/examples/frame-concat.rs: image codec
  calls and a foreign plugin registration.
- The runtime's message module is not part of this model: `ControlMessage` is an
  opaque value and a data message is just a timestamp and a payload.
