/** The per-port, per-cycle readiness token and its action
    (zenoh-flow/src/types.rs:215-331). */
module Tokens {
  import opened Errors
  import opened Messages

  /** What the runtime does with a ready token's message after the input rule. */
  datatype TokenAction =
    | Consume  // handed to run and removed from the pending inputs (the default)
    | Drop     // discarded
    | KeepRun  // handed to run and also kept for a later cycle
    | Keep     // kept for a later cycle, not handed to run
    | Wait     // reserved for tokens that are not ready

  /** The actions the four setters of a token can put on it: all but Wait. */
  type SettableAction = a: TokenAction | !a.Wait? witness Consume

  datatype ReadyToken<D> = ReadyToken(data: DataMessage<D>, action: TokenAction)

  datatype Token<D> = NotReady | Ready(ready: ReadyToken<D>)

  /** The token discipline: Wait is never the action of a ready token. */
  predicate WellFormed<D>(t: Token<D>)
  {
    t.Ready? ==> !t.ready.action.Wait?
  }

  predicate IsReady<D>(t: Token<D>)
  {
    t.Ready?
  }

  /** is_not_ready is the exact complement of is_ready. */
  function IsNotReady<D>(t: Token<D>): (b: bool)
    ensures b == !IsReady(t)
  {
    t.NotReady?
  }

  /** The arrival time of a ready token's message; nothing for a token that is
      not ready. */
  function GetTimestamp<D>(t: Token<D>): (r: Option<Timestamp>)
    ensures r.Some? <==> IsReady(t)
    ensures r.Some? ==> r.value == t.ready.data.timestamp
  {
    match t
    case NotReady => None
    case Ready(token) => Some(token.data.timestamp)
  }

  /** The message of a ready token; asking a token that is not ready fails with
      the generic error. */
  function GetData<D>(t: Token<D>): (r: Result<DataMessage<D>>)
    ensures r.Ok? <==> IsReady(t)
    ensures r.Ok? ==> r.value == t.ready.data
    ensures r.Err? ==> r.error == GenericError
    ensures r.Ok? ==> GetTimestamp(t) == Some(r.value.timestamp)
  {
    match t
    case Ready(token) => Ok(token.data)
    case _ => Err(GenericError)
  }

  /** The token's action: Wait for a token that is not ready, the stored action
      otherwise. On a well-formed token, Wait means exactly "not ready". */
  function GetAction<D>(t: Token<D>): (a: TokenAction)
    ensures IsNotReady(t) ==> a == Wait
    ensures IsReady(t) ==> a == t.ready.action
    ensures WellFormed(t) ==> (a == Wait <==> IsNotReady(t))
  {
    match t
    case Ready(token) => token.action
    case NotReady => Wait
  }

  /** Takes the token apart into its message, if any, and its action. */
  function Split<D>(t: Token<D>): (r: (Option<DataMessage<D>>, TokenAction))
    ensures r.0.Some? <==> GetData(t).Ok?
    ensures r.0.Some? ==> r.0.value == GetData(t).value
    ensures r.1 == GetAction(t)
  {
    match t
    case Ready(token) => (Some(token.data), token.action)
    case NotReady => (None, Wait)
  }

  /** A fresh ready token for a message: its action is the default, Consume. */
  function NewReady<D>(data: DataMessage<D>): (t: Token<D>)
    ensures IsReady(t) && WellFormed(t)
    ensures GetData(t) == Ok(data)
    ensures GetAction(t) == Consume
  {
    Ready(ReadyToken(data, Consume))
  }

  /** A message seen as a token: control traffic never satisfies a data input;
      a data message makes a fresh ready token that will be consumed. */
  function FromMessage<D>(m: Message<D>): (t: Token<D>)
    ensures IsNotReady(t) <==> m.Control?
    ensures m.Data? ==> GetData(t) == Ok(m.data) && GetAction(t) == Consume
    ensures WellFormed(t)
  {
    match m
    case Control(_) => NotReady
    case Data(message) => NewReady(message)
  }

  /** What each setter (consume, drop, keep_run, keep) does to a token: on a ready
      token it replaces the action and succeeds; on a token that is not ready it
      fails with the generic error and changes nothing. The result is the new
      token and the setter's outcome. */
  function SetAction<D>(t: Token<D>, a: SettableAction): (r: (Token<D>, Result<()>))
    ensures r.1.Ok? <==> IsReady(t)
    ensures r.1.Err? ==> r.1.error == GenericError && r.0 == t
    ensures IsReady(t) ==> IsReady(r.0) && GetData(r.0) == GetData(t) && GetAction(r.0) == a
    ensures WellFormed(r.0)
  {
    match t
    case Ready(token) => (Ready(token.(action := a)), Ok(()))
    case NotReady => (t, Err(GenericError))
  }

  /** The token after a series of setter calls, first to last. */
  function ApplySetters<D>(t: Token<D>, calls: seq<SettableAction>): Token<D>
    decreases |calls|
  {
    if calls == [] then t else ApplySetters(SetAction(t, calls[0]).0, calls[1..])
  }

  /** After any series of setter calls, a token that was not ready is unchanged,
      and a ready token keeps its message and carries the action of the last
      call. */
  lemma {:induction false} ApplySettersLastWins<D>(t: Token<D>, calls: seq<SettableAction>)
    ensures IsNotReady(t) || calls == [] ==> ApplySetters(t, calls) == t
    ensures IsReady(t) && calls != [] ==>
      ApplySetters(t, calls) == Ready(ReadyToken(t.ready.data, calls[|calls| - 1]))
    decreases |calls|
  {
    if calls != [] {
      var next := SetAction(t, calls[0]).0;
      ApplySettersLastWins(next, calls[1..]);
      if |calls| == 1 {
        assert calls[1..] == [];
      } else {
        assert calls[1..][|calls[1..]| - 1] == calls[|calls| - 1];
      }
    }
  }

  /** Calling the same setter twice in a row is the same as calling it once. */
  lemma SetterIdempotent<D>(t: Token<D>, calls: seq<SettableAction>, a: SettableAction)
    ensures ApplySetters(t, calls + [a, a]) == ApplySetters(t, calls + [a])
  {
    ApplySettersLastWins(t, calls + [a, a]);
    ApplySettersLastWins(t, calls + [a]);
  }

  /** No series of setter calls makes a ready token wait, nor a waiting token ready:
      readiness, the message and the well-formedness of a token survive them. */
  lemma SettersKeepReadiness<D>(t: Token<D>, calls: seq<SettableAction>)
    ensures IsReady(ApplySetters(t, calls)) == IsReady(t)
    ensures GetData(ApplySetters(t, calls)) == GetData(t)
    ensures IsReady(t) && calls != [] ==> GetAction(ApplySetters(t, calls)) != Wait
    ensures WellFormed(t) ==> WellFormed(ApplySetters(t, calls))
  {
    ApplySettersLastWins(t, calls);
  }

  /** A mutable slot holding one token, as the input rule sees each port's token
      through a mutable borrow. */
  class TokenCell<D> {
    var token: Token<D>

    /** The held token is well formed. This is not an invariant of the class: a
        ready token may be built with any action and stored here. It is what
        every setter call leaves behind. */
    ghost predicate Valid()
      reads this
    {
      WellFormed(token)
    }

    constructor (t: Token<D>)
      ensures token == t
    {
      token := t;
    }

    /** consume: mark a ready token's message as consumed by this cycle's run. */
    method Consume() returns (r: Result<()>)
      modifies this
      ensures (token, r) == SetAction(old(token), TokenAction.Consume)
      ensures Valid()
    {
      match token
      case Ready(ready) =>
        token := Ready(ready.(action := TokenAction.Consume));
        r := Ok(());
      case NotReady =>
        r := Err(GenericError);
    }

    /** drop: discard a ready token's message. */
    method Drop() returns (r: Result<()>)
      modifies this
      ensures (token, r) == SetAction(old(token), TokenAction.Drop)
      ensures Valid()
    {
      match token
      case Ready(ready) =>
        token := Ready(ready.(action := TokenAction.Drop));
        r := Ok(());
      case NotReady =>
        r := Err(GenericError);
    }

    /** keep_run: hand a ready token's message to run and keep it for later. */
    method KeepRun() returns (r: Result<()>)
      modifies this
      ensures (token, r) == SetAction(old(token), TokenAction.KeepRun)
      ensures Valid()
    {
      match token
      case Ready(ready) =>
        token := Ready(ready.(action := TokenAction.KeepRun));
        r := Ok(());
      case NotReady =>
        r := Err(GenericError);
    }

    /** keep: keep a ready token's message for later without running on it. */
    method Keep() returns (r: Result<()>)
      modifies this
      ensures (token, r) == SetAction(old(token), TokenAction.Keep)
      ensures Valid()
    {
      match token
      case Ready(ready) =>
        token := Ready(ready.(action := TokenAction.Keep));
        r := Ok(());
      case NotReady =>
        r := Err(GenericError);
    }
  }
}
