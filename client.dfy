/**
  The purge client `FastlyPurge` (lib/index.js:6-112). Each purge method
  merges into the caller's options object in place, builds its request and
  hands the transport's outcome to the response handler; the request is
  returned instead of being sent, and the outcome is an argument.
*/
module Client {
  import opened Wrappers
  import opened Js
  import opened Requests
  import opened Responses
  import opened Shielding

  /** The client defaults `{softPurge: false, shieldingWait: false, shieldingDelay: 4000}`. */
  const CLIENT_DEFAULTS: Literal :=
    [("softPurge", Bool(false)), ("shieldingWait", Bool(false)), ("shieldingDelay", Num(4000))]

  /** The own properties of an options argument; an omitted one is a fresh `{}`. */
  ghost function PropsOf(o: JsObject?): Props
    reads o
  {
    if o == null then map[] else o.props
  }

  /**
    The client's effective options: every key the caller gave is kept as
    given (an explicit `false` included), and `softPurge`, `shieldingWait` and
    `shieldingDelay` fall back to `false`, `false` and `4000` where missing.
  */
  lemma ClientDefaultsApplied(given: Props)
    ensures var effective := Defaulted(given, CLIENT_DEFAULTS);
      && effective.Keys == given.Keys + {"softPurge", "shieldingWait", "shieldingDelay"}
      && (forall k :: k in given ==> effective[k] == given[k])
      && effective["softPurge"] == (if "softPurge" in given then given["softPurge"] else Bool(false))
      && effective["shieldingWait"] == (if "shieldingWait" in given then given["shieldingWait"] else Bool(false))
      && effective["shieldingDelay"] == (if "shieldingDelay" in given then given["shieldingDelay"] else Num(4000))
  {
  }

  class FastlyPurge {
    const apiKey: string
    /** The options object given at construction, not a copy of it. */
    const options: JsObject

    constructor (apiKey: string, options: JsObject?)
      modifies options
      ensures this.apiKey == apiKey
      ensures options != null ==> this.options == options
      ensures options == null ==> fresh(this.options)
      ensures this.options.props == Defaulted(old(PropsOf(options)), CLIENT_DEFAULTS)
    {
      var o: JsObject;
      if options == null {
        o := new JsObject(map[]);
      } else {
        o := options;
      }
      Defaults(o, CLIENT_DEFAULTS);
      this.apiKey := apiKey;
      this.options := o;
    }

    /** `url(url, options, callback)` */
    method Url<V>(url: string, options: JsObject?, outcome: Outcome, parse: string -> Option<V>)
      returns (sent: Request, reply: CallbackArgs<V>)
      modifies options
      ensures sent == UrlRequest(old(this.options.props), url, old(PropsOf(options)))
      ensures options != null ==> options.props == UrlOptions(old(this.options.props), old(options.props))
      ensures reply == ResponseHandler(outcome, parse)
    {
      var o: JsObject;
      if options == null {
        o := new JsObject(map[]);
      } else {
        o := options;
      }
      Defaults(o, SoftPurgeDefault(this.options.props));
      sent := Request(PURGE, url, RequestHeaders(o.props));
      reply := ResponseHandler(outcome, parse);
    }

    /** `service(serviceId, options, callback)` */
    method Service<V>(serviceId: string, options: JsObject?, outcome: Outcome, parse: string -> Option<V>)
      returns (sent: Request, reply: CallbackArgs<V>)
      modifies options
      ensures sent == ServiceRequest(apiKey, serviceId, old(PropsOf(options)))
      ensures options != null ==> options.props == ServiceOptions(apiKey, old(options.props))
      ensures reply == ResponseHandler(outcome, parse)
    {
      var o: JsObject;
      if options == null {
        o := new JsObject(map[]);
      } else {
        o := options;
      }
      Extend(o, Credentials(apiKey));
      sent := Request(POST, FastlyUrl("/service/" + serviceId + "/purge_all"), RequestHeaders(o.props));
      reply := ResponseHandler(outcome, parse);
    }

    /** `key(serviceId, key, options, callback)` */
    method Key<V>(serviceId: string, key: string, options: JsObject?, outcome: Outcome, parse: string -> Option<V>)
      returns (sent: Request, reply: CallbackArgs<V>)
      modifies options
      ensures sent == KeyRequest(apiKey, old(this.options.props), serviceId, key, old(PropsOf(options)))
      ensures options != null ==> options.props == KeyOptions(apiKey, old(this.options.props), old(options.props))
      ensures reply == ResponseHandler(outcome, parse)
    {
      var o: JsObject;
      if options == null {
        o := new JsObject(map[]);
      } else {
        o := options;
      }
      Defaults(o, SoftPurgeDefault(this.options.props));
      Extend(o, Credentials(apiKey));
      sent := Request(POST, FastlyUrl("/service/" + serviceId + "/purge/" + key), RequestHeaders(o.props));
      reply := ResponseHandler(outcome, parse);
    }

    /**
      `shieldingKey(serviceId, key, options, callback)`: the two `key` calls
      share one options object; `callback` is swapped for a no-op before the
      second call unless the caller waits.
    */
    method ShieldingKey<V>(serviceId: string, key: string, options: JsObject?,
                           first: Outcome, second: Outcome, parse: string -> Option<V>)
      returns (trace: seq<Event<V>>)
      modifies options
      ensures trace == ShieldingTrace(apiKey, old(this.options.props), serviceId, key, old(PropsOf(options)), first, second, parse)
      ensures options != null ==> options.props == KeyOptions(apiKey, old(this.options.props), old(options.props))
    {
      var o: JsObject;
      if options == null {
        o := new JsObject(map[]);
      } else {
        o := options;
      }
      ghost var client := this.options.props;
      ghost var caller := o.props;
      var delay := Or(Get(o.props, "shieldingDelay"), Get(this.options.props, "shieldingDelay"));
      var shieldingWait := Or(Get(o.props, "shieldingWait"), Get(this.options.props, "shieldingWait"));
      var callback := CallerCallback;

      var sent, reply := Key(serviceId, key, o, first, parse);
      ghost var firstRequest, firstReply := sent, reply;
      trace := [Sent(sent), Handled(reply)];
      if !Truthy(shieldingWait) {
        trace := trace + [Called(NoArgs)];
      }

      trace := trace + [Elapsed(delay)];
      callback := if Truthy(shieldingWait) then callback else Noop;
      ghost var client' := this.options.props;
      ghost var merged := o.props;
      sent, reply := Key(serviceId, key, o, second, parse);
      trace := trace + [Sent(sent), Handled(reply)];
      if callback == CallerCallback {
        trace := trace + [Called(reply)];
      }

      assert merged == KeyOptions(apiKey, client, caller);
      assert sent == KeyRequest(apiKey, client, serviceId, key, merged) by {
        KeyRequestRepeatable(apiKey, client, client', serviceId, key, caller);
        KeyRequestRepeatable(apiKey, client, client, serviceId, key, caller);
      }
      assert o.props == merged by {
        KeyOptionsRepeatable(apiKey, client, client', caller);
      }
      ProtocolInSteps(Truthy(shieldingWait), delay, firstRequest, firstReply, sent, reply);
      assert trace == Protocol(ShieldingWait(client, caller), ShieldingDelay(client, caller),
                               firstRequest, firstReply, sent, reply);
    }
  }

  /** Who receives the second purge's outcome. */
  datatype Continuation = CallerCallback | Noop
}
