/**
  The shielding purge (lib/index.js:93-112) as a trace of observable events:
  a key purge is sent and its response handled; unless the caller waits, the
  caller's callback fires at once; after the delay a second key purge is sent
  and handled, and a waiting caller's callback receives its outcome. Timers
  are not modelled: the delay is recorded in the trace, not measured.
*/
module Shielding {
  import opened Wrappers
  import opened Js
  import opened Requests
  import opened Responses

  datatype Event<V> =
    | Sent(request: Request)             // a purge handed to the transport
    | Handled(reply: CallbackArgs<V>)    // its response normalised and passed on
    | Elapsed(delay: Value)              // the shielding timer fired
    | Called(args: CallbackArgs<V>)      // the caller's callback invoked
  {
    function Kind(): EventKind {
      match this
      case Sent(_) => SentKind
      case Handled(_) => HandledKind
      case Elapsed(_) => ElapsedKind
      case Called(_) => CalledKind
    }
  }

  datatype EventKind = SentKind | HandledKind | ElapsedKind | CalledKind

  /** How many events of one kind a trace holds. */
  function Count<V>(t: seq<Event<V>>, kind: EventKind): nat {
    if t == [] then 0 else (if t[0].Kind() == kind then 1 else 0) + Count(t[1..], kind)
  }

  lemma {:induction false} CountAppend<V>(a: seq<Event<V>>, b: seq<Event<V>>, kind: EventKind)
    ensures Count(a + b, kind) == Count(a, kind) + Count(b, kind)
  {
    if a == [] {
      assert a + b == b;
    } else {
      assert (a + b)[1..] == a[1..] + b;
      CountAppend(a[1..], b, kind);
    }
  }

  function Tally<V>(e: Event<V>, kind: EventKind): nat {
    if e.Kind() == kind then 1 else 0
  }

  lemma CountSmall<V>(x: Event<V>, y: Event<V>, z: Event<V>, kind: EventKind)
    ensures Count([x], kind) == Tally(x, kind)
    ensures Count([x, y], kind) == Tally(x, kind) + Tally(y, kind)
    ensures Count([x, y, z], kind) == Tally(x, kind) + Tally(y, kind) + Tally(z, kind)
  {
    assert [x][1..] == [] && [y][1..] == [] && [z][1..] == [];
    assert Count([z], kind) == Tally(z, kind);
    assert Count([y], kind) == Tally(y, kind);
    assert [y, z][1..] == [z];
    assert Count([y, z], kind) == Tally(y, kind) + Tally(z, kind);
    assert [x, y][1..] == [y];
    assert [x, y, z][1..] == [y, z];
  }

  /**
    Replays the purges of a trace; `busy` says whether a purge is in flight.
    `None` when a purge is sent while another is in flight, or a response is
    handled with none in flight; otherwise whether one is still in flight.
  */
  function Replay<V>(t: seq<Event<V>>, busy: bool): Option<bool> {
    if t == [] then Some(busy)
    else
      match t[0]
      case Sent(_) => if busy then None else Replay(t[1..], true)
      case Handled(_) => if busy then Replay(t[1..], false) else None
      case Elapsed(_) => Replay(t[1..], busy)
      case Called(_) => Replay(t[1..], busy)
  }

  lemma {:induction false} ReplayAppend<V>(a: seq<Event<V>>, b: seq<Event<V>>, busy: bool)
    ensures Replay(a + b, busy) == match Replay(a, busy) case None => None case Some(s) => Replay(b, s)
  {
    if a == [] {
      assert a + b == b;
    } else {
      assert (a + b)[1..] == a[1..] + b;
      match a[0]
      case Sent(_) => if !busy { ReplayAppend(a[1..], b, true); }
      case Handled(_) => if busy { ReplayAppend(a[1..], b, false); }
      case Elapsed(_) => ReplayAppend(a[1..], b, busy);
      case Called(_) => ReplayAppend(a[1..], b, busy);
    }
  }

  lemma ReplaySmall<V>(r: Request, h: CallbackArgs<V>, delay: Value, x: CallbackArgs<V>, busy: bool)
    ensures Replay([Sent(r), Handled(h)], false) == Some(false)
    ensures Replay([Elapsed(delay), Sent(r), Handled(h)], false) == Some(false)
    ensures Replay([Called(x)], busy) == Some(busy)
  {
    assert [Sent(r), Handled(h)][1..] == [Handled(h)];
    assert [Elapsed(delay), Sent(r), Handled(h)][1..] == [Sent(r), Handled(h)];
    assert [Handled(h)][1..] == [];
    assert Replay([Handled(h)], true) == Some(false);
    assert Replay([Sent(r), Handled(h)], false) == Some(false);
    assert [Called(x)][1..] == [];
  }

  /** Purges run one at a time, each sent only after the previous one was handled, and none is left pending. */
  predicate OneAtATime<V>(t: seq<Event<V>>) {
    Replay(t, false) == Some(false)
  }

  /** `options.shieldingDelay || this._options.shieldingDelay` */
  function ShieldingDelay(client: Props, caller: Props): Value {
    Or(Get(caller, "shieldingDelay"), Get(client, "shieldingDelay"))
  }

  /** `options.shieldingWait || this._options.shieldingWait`, as the `if` reads it. */
  predicate ShieldingWait(client: Props, caller: Props) {
    Truthy(Or(Get(caller, "shieldingWait"), Get(client, "shieldingWait")))
  }

  /**
    The events of the protocol in terms of its parts: the two requests, the
    two normalised replies, the delay and whether the caller waits.
  */
  function Protocol<V>(wait: bool, delay: Value, firstRequest: Request, firstReply: CallbackArgs<V>,
                       secondRequest: Request, secondReply: CallbackArgs<V>): seq<Event<V>>
  {
    [Sent(firstRequest), Handled(firstReply)]
    + (if wait then [] else [Called(NoArgs)])
    + [Elapsed(delay), Sent(secondRequest), Handled(secondReply)]
    + (if wait then [Called(secondReply)] else [])
  }

  /** The protocol's events, appended one step at a time as `shieldingKey` produces them. */
  lemma ProtocolInSteps<V>(wait: bool, delay: Value, r1: Request, h1: CallbackArgs<V>, r2: Request, h2: CallbackArgs<V>)
    ensures var start := [Sent(r1), Handled(h1)];
            var early := if wait then start else start + [Called(NoArgs)];
            var resent := early + [Elapsed(delay)] + [Sent(r2), Handled(h2)];
            (if wait then resent + [Called(h2)] else resent) == Protocol(wait, delay, r1, h1, r2, h2)
  {
  }

  /**
    The events of `shieldingKey(serviceId, key, options, callback)` given the
    two purges' transport outcomes. The second purge is built from the
    options object as the first `key` call left it.
  */
  function ShieldingTrace<V>(apiKey: string, client: Props, serviceId: string, key: string, caller: Props,
                             first: Outcome, second: Outcome, parse: string -> Option<V>): seq<Event<V>>
  {
    Protocol(ShieldingWait(client, caller), ShieldingDelay(client, caller),
             KeyRequest(apiKey, client, serviceId, key, caller), ResponseHandler(first, parse),
             KeyRequest(apiKey, client, serviceId, key, KeyOptions(apiKey, client, caller)), ResponseHandler(second, parse))
  }

  /** Exactly two purges are sent, the first and then the second request. */
  lemma ProtocolSendsTwo<V>(wait: bool, delay: Value, r1: Request, h1: CallbackArgs<V>, r2: Request, h2: CallbackArgs<V>)
    ensures var t := Protocol(wait, delay, r1, h1, r2, h2);
      && Count(t, SentKind) == 2
      && t[0] == Sent(r1)
      && forall i :: 0 < i < |t| && t[i].Sent? ==> t[i].request == r2
  {
    var t := Protocol(wait, delay, r1, h1, r2, h2);
    var a: seq<Event<V>> := [Sent(r1), Handled(h1)];
    var b: seq<Event<V>> := if wait then [] else [Called(NoArgs)];
    var c: seq<Event<V>> := [Elapsed(delay), Sent(r2), Handled(h2)];
    var d: seq<Event<V>> := if wait then [Called(h2)] else [];
    assert t == a + b + c + d;
    CountSmall(Sent(r1), Handled(h1), Called(NoArgs), SentKind);
    CountSmall(Elapsed(delay), Sent(r2), Handled(h2), SentKind);
    CountSmall(Called(h2), Called(h2), Called(h2), SentKind);
    CountAppend(a + b + c, d, SentKind);
    CountAppend(a + b, c, SentKind);
    CountAppend(a, b, SentKind);
  }

  /**
    The callback fires exactly once: with no arguments right after the first
    purge is handled and before the delay when the caller does not wait, or
    last, with the second reply, once both purges are handled when it does.
  */
  lemma ProtocolCallsBackOnce<V>(wait: bool, delay: Value, r1: Request, h1: CallbackArgs<V>, r2: Request, h2: CallbackArgs<V>)
    ensures var t := Protocol(wait, delay, r1, h1, r2, h2);
      && Count(t, CalledKind) == 1
      && (wait ==> t[|t| - 1] == Called(h2) && Count(t[..|t| - 1], HandledKind) == 2)
      && (!wait ==> exists i :: 0 <= i < |t| && t[i] == Called(NoArgs)
                      && Count(t[..i], HandledKind) == 1 && Count(t[..i], ElapsedKind) == 0)
  {
    var t := Protocol(wait, delay, r1, h1, r2, h2);
    var a: seq<Event<V>> := [Sent(r1), Handled(h1)];
    var b: seq<Event<V>> := if wait then [] else [Called(NoArgs)];
    var c: seq<Event<V>> := [Elapsed(delay), Sent(r2), Handled(h2)];
    var d: seq<Event<V>> := if wait then [Called(h2)] else [];
    assert t == a + b + c + d;
    CountSmall(Sent(r1), Handled(h1), Called(NoArgs), CalledKind);
    CountSmall(Elapsed(delay), Sent(r2), Handled(h2), CalledKind);
    CountSmall(Called(h2), Called(h2), Called(h2), CalledKind);
    CountAppend(a + b + c, d, CalledKind);
    CountAppend(a + b, c, CalledKind);
    CountAppend(a, b, CalledKind);
    CountSmall(Sent(r1), Handled(h1), Called(NoArgs), HandledKind);
    if wait {
      assert t[..|t| - 1] == a + b + c;
      CountSmall(Elapsed(delay), Sent(r2), Handled(h2), HandledKind);
      CountAppend(a + b, c, HandledKind);
      CountAppend(a, b, HandledKind);
    } else {
      assert t[2] == Called(NoArgs) && t[..2] == a;
      CountSmall(Sent(r1), Handled(h1), Called(NoArgs), ElapsedKind);
    }
  }

  /**
    The purges never overlap, and the delay starts only once the first purge
    has been handled and ends before the second is sent.
  */
  lemma ProtocolDelaysSecondPurge<V>(wait: bool, delay: Value, r1: Request, h1: CallbackArgs<V>, r2: Request, h2: CallbackArgs<V>)
    ensures var t := Protocol(wait, delay, r1, h1, r2, h2);
      && OneAtATime(t)
      && Count(t, ElapsedKind) == 1
      && exists i :: 0 <= i < |t| && t[i] == Elapsed(delay)
           && Count(t[..i], SentKind) == 1 && Count(t[..i], HandledKind) == 1
           && Count(t[i + 1..], SentKind) == 1
  {
    var t := Protocol(wait, delay, r1, h1, r2, h2);
    var a: seq<Event<V>> := [Sent(r1), Handled(h1)];
    var b: seq<Event<V>> := if wait then [] else [Called(NoArgs)];
    var c: seq<Event<V>> := [Elapsed(delay), Sent(r2), Handled(h2)];
    var d: seq<Event<V>> := if wait then [Called(h2)] else [];
    assert t == a + b + c + d;
    ReplaySmall(r1, h1, delay, NoArgs, false);
    ReplaySmall(r2, h2, delay, h2, false);
    ReplayAppend(a + b + c, d, false);
    ReplayAppend(a + b, c, false);
    ReplayAppend(a, b, false);
    CountSmall(Sent(r1), Handled(h1), Called(NoArgs), ElapsedKind);
    CountSmall(Elapsed(delay), Sent(r2), Handled(h2), ElapsedKind);
    CountSmall(Called(h2), Called(h2), Called(h2), ElapsedKind);
    CountAppend(a + b + c, d, ElapsedKind);
    CountAppend(a + b, c, ElapsedKind);
    CountAppend(a, b, ElapsedKind);
    var i := |a + b|;
    assert t[i] == Elapsed(delay);
    assert t[..i] == a + b;
    assert t[i + 1..] == [Sent(r2), Handled(h2)] + d;
    CountSmall(Sent(r1), Handled(h1), Called(NoArgs), SentKind);
    CountSmall(Sent(r1), Handled(h1), Called(NoArgs), HandledKind);
    CountSmall(Sent(r2), Handled(h2), Called(h2), SentKind);
    CountAppend(a, b, SentKind);
    CountAppend(a, b, HandledKind);
    CountAppend([Sent(r2), Handled(h2)], d, SentKind);
  }

  /** Both purges of a shielding purge send the very request `key` would send. */
  lemma ShieldingPurgesTwice<V>(apiKey: string, client: Props, serviceId: string, key: string, caller: Props,
                                first: Outcome, second: Outcome, parse: string -> Option<V>)
    ensures var t := ShieldingTrace(apiKey, client, serviceId, key, caller, first, second, parse);
      && Count(t, SentKind) == 2
      && forall i :: 0 <= i < |t| && t[i].Sent? ==> t[i].request == KeyRequest(apiKey, client, serviceId, key, caller)
  {
    KeyRequestRepeatable(apiKey, client, client, serviceId, key, caller);
    ProtocolSendsTwo(ShieldingWait(client, caller), ShieldingDelay(client, caller),
                     KeyRequest(apiKey, client, serviceId, key, caller), ResponseHandler(first, parse),
                     KeyRequest(apiKey, client, serviceId, key, KeyOptions(apiKey, client, caller)), ResponseHandler(second, parse));
  }

  /**
    The caller's callback fires exactly once: with no arguments before the
    delay when the effective `shieldingWait` is falsy, else last, with the
    normalised outcome of the second purge.
  */
  lemma ShieldingCallsBackOnce<V>(apiKey: string, client: Props, serviceId: string, key: string, caller: Props,
                                  first: Outcome, second: Outcome, parse: string -> Option<V>)
    ensures var t := ShieldingTrace(apiKey, client, serviceId, key, caller, first, second, parse);
      && Count(t, CalledKind) == 1
      && (ShieldingWait(client, caller) ==>
            t[|t| - 1] == Called(ResponseHandler(second, parse)) && Count(t[..|t| - 1], HandledKind) == 2)
      && (!ShieldingWait(client, caller) ==>
            exists i :: 0 <= i < |t| && t[i] == Called(NoArgs)
              && Count(t[..i], HandledKind) == 1 && Count(t[..i], ElapsedKind) == 0)
  {
    ProtocolCallsBackOnce(ShieldingWait(client, caller), ShieldingDelay(client, caller),
                          KeyRequest(apiKey, client, serviceId, key, caller), ResponseHandler(first, parse),
                          KeyRequest(apiKey, client, serviceId, key, KeyOptions(apiKey, client, caller)), ResponseHandler(second, parse));
  }

  /**
    The two purges never overlap, and the effective delay elapses after the
    first is handled and before the second is sent.
  */
  lemma ShieldingDelaysSecondPurge<V>(apiKey: string, client: Props, serviceId: string, key: string, caller: Props,
                                      first: Outcome, second: Outcome, parse: string -> Option<V>)
    ensures var t := ShieldingTrace(apiKey, client, serviceId, key, caller, first, second, parse);
      && OneAtATime(t)
      && Count(t, ElapsedKind) == 1
      && exists i :: 0 <= i < |t| && t[i] == Elapsed(ShieldingDelay(client, caller))
           && Count(t[..i], SentKind) == 1 && Count(t[..i], HandledKind) == 1
           && Count(t[i + 1..], SentKind) == 1
  {
    ProtocolDelaysSecondPurge(ShieldingWait(client, caller), ShieldingDelay(client, caller),
                              KeyRequest(apiKey, client, serviceId, key, caller), ResponseHandler(first, parse),
                              KeyRequest(apiKey, client, serviceId, key, KeyOptions(apiKey, client, caller)), ResponseHandler(second, parse));
  }

  /**
    `||` lets a truthy client default win: a call cannot switch waiting off
    with `shieldingWait: false`, nor ask for no delay with `shieldingDelay: 0`.
  */
  lemma CallCannotDisableShieldingDefaults(client: Props, caller: Props)
    ensures Truthy(Get(client, "shieldingWait")) ==> ShieldingWait(client, caller)
    ensures !Truthy(Get(caller, "shieldingDelay")) ==> ShieldingDelay(client, caller) == Get(client, "shieldingDelay")
    ensures Truthy(Get(caller, "shieldingDelay")) ==> ShieldingDelay(client, caller) == caller["shieldingDelay"]
  {
  }
}
