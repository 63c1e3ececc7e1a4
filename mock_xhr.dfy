/**
 * The mock request object that replaces the platform's XMLHttpRequest. It either
 * answers a request from a fixture or forwards it to a real transport, and it keeps
 * the events and properties callers of a real request object expect.
 *
 * The real transport is a record of fields plus the log of calls made on it; the
 * fixture registry, the timer and the dynamic-fixture runner are parameters.
 */
module MockXhr {
  import opened Wrappers
  import opened JsValues
  import opened Normalizer
  import opened Completion
  import opened Listeners

  /** The object `_xhr` that property reads and writes go to: the real transport, or
      the plain object that replaces it once a dynamic fixture has answered. Only the
      real transport has `open`, `send`, `abort` and `setRequestHeader`. */
  datatype Backing =
    | Real(fields: map<string, Value>)
    | Synthetic(fields: map<string, Value>)

  /** What the fixture registry made of a request, as `send` tests it. */
  datatype Verdict =
    | Absent
    | Redirect(settings: map<string, Value>)
    | Delay(ms: int)
    | Dynamic

  /** The tests of `send` on the registry's answer, in their order: no answer, then a
      function fixture, then a numeric one, then any other answer. */
  function Classify(found: Option<map<string, Value>>): (v: Verdict)
    ensures v.Absent? <==> found.None?
    ensures v.Dynamic? <==> found.Some? && Field(found.value, "fixture").Fn?
    ensures v.Delay? <==> found.Some? && Field(found.value, "fixture").Num?
    ensures v.Delay? ==> v.ms == Field(found.value, "fixture").n
    ensures v.Redirect? <==> found.Some? && !Field(found.value, "fixture").Fn? && !Field(found.value, "fixture").Num?
    ensures v.Redirect? ==> v.settings == found.value
  {
    match found
    case None => Absent
    case Some(fs) =>
      var f := Field(fs, "fixture");
      if f.Fn? then Dynamic else if f.Num? then Delay(f.n) else Redirect(fs)
  }

  /** The setter of the property proxy: it writes only when the value differs (`!==`). */
  function ProxySet(b: Backing, name: string, v: Value): (r: Backing)
    ensures r.Real? == b.Real?
    ensures Field(r.fields, name) == v
    ensures forall p :: p != name ==> Field(r.fields, p) == Field(b.fields, p)
    ensures Field(b.fields, name) == v ==> r == b
  {
    if Field(b.fields, name) != v then b.(fields := b.fields[name := v]) else b
  }

  /** `setRequestHeader` on the transport once per stored header, in insertion order. */
  function HeaderCalls(names: seq<string>, headers: map<string, string>): (calls: seq<Effect>)
    requires forall n :: n in names ==> n in headers
    ensures |calls| == |names|
    ensures forall k :: 0 <= k < |names| ==> calls[k] == SetRequestHeader(names[k], headers[names[k]])
  {
    seq(|names|, k requires 0 <= k < |names| => SetRequestHeader(names[k], headers[names[k]]))
  }

  lemma HeaderCallsSnoc(names: seq<string>, headers: map<string, string>, i: nat)
    requires forall n :: n in names ==> n in headers
    requires i < |names|
    ensures HeaderCalls(names[..i + 1], headers)
         == HeaderCalls(names[..i], headers) + [SetRequestHeader(names[i], headers[names[i]])]
  {
    assert forall n :: n in names[..i + 1] ==> n in names;
  }

  /** The calls of `makeRequest`: `open` with the transport's own type, url and async
      values, the stored headers, then `send` with the body given to `send`. */
  function RequestCalls(fields: map<string, Value>, names: seq<string>,
                        headers: map<string, string>, body: Value): (calls: seq<Effect>)
    requires forall n :: n in names ==> n in headers
    ensures |calls| == |names| + 2
    ensures calls[0] == Open(Field(fields, "type"), Field(fields, "url"), Field(fields, "async"))
    ensures calls[1..|calls| - 1] == HeaderCalls(names, headers)
    ensures calls[|calls| - 1] == Send(body)
  {
    [Open(Field(fields, "type"), Field(fields, "url"), Field(fields, "async"))]
    + HeaderCalls(names, headers) + [Send(body)]
  }

  /** The calls of `makeRequest` as its loop over the stored headers issues them. */
  method BuildRequestCalls(fields: map<string, Value>, names: seq<string>,
                           headers: map<string, string>, body: Value) returns (calls: seq<Effect>)
    requires forall n :: n in names ==> n in headers
    ensures calls == RequestCalls(fields, names, headers, body)
  {
    calls := [Open(Field(fields, "type"), Field(fields, "url"), Field(fields, "async"))];
    var i := 0;
    while i < |names|
      invariant 0 <= i <= |names|
      invariant calls == [Open(Field(fields, "type"), Field(fields, "url"), Field(fields, "async"))]
                         + HeaderCalls(names[..i], headers)
    {
      HeaderCallsSnoc(names, headers, i);
      calls := calls + [SetRequestHeader(names[i], headers[names[i]])];
      i := i + 1;
    }
    assert names[..i] == names;
    calls := calls + [Send(body)];
  }

  lemma Regroup(s: seq<Effect>, d: seq<Effect>, l: seq<Effect>, h: seq<Effect>)
    ensures (s + d) + (l + h) == s + (d + l + h)
  {
  }

  /** The transport calls of `abort`: with a timer id recorded, `open` with the async
      flag normalised and `send()` first; then `abort`. Each only when the backing
      object has that method, which the synthetic record never has. */
  function AbortCalls(b: Backing, timeoutId: Option<nat>): (calls: seq<Effect>)
    ensures b.Synthetic? ==> calls == []
    ensures b.Real? && timeoutId.None? ==> calls == [Abort]
    ensures b.Real? && timeoutId.Some? ==>
      calls == [Open(Field(b.fields, "type"), Field(b.fields, "url"), Bool(AsyncFlag(Field(b.fields, "async")))),
                Send(Undefined), Abort]
  {
    var reopen := if timeoutId.Some? && b.Real? then
      [Open(Field(b.fields, "type"), Field(b.fields, "url"), Bool(AsyncFlag(Field(b.fields, "async")))),
       Send(Undefined)]
    else [];
    reopen + (if b.Real? then [Abort] else [])
  }

  class Mock {
    /** `_xhr`. */
    var backing: Backing
    /** `_requestHeaders`: its keys in insertion order, and its values. */
    var headerNames: seq<string>
    var requestHeaders: map<string, string>
    /** `__events`. */
    var listeners: map<string, seq<ListenerId>>
    /** The on-event properties that hold a function (`onload`, ...), by event name. */
    var handlers: map<string, ListenerId>
    /** `timeoutId`; it is set by `send` and never cleared. */
    var timeoutId: Option<nat>
    /** The passthrough requests delay fixtures have scheduled and whose timers have
        neither fired nor been cleared: the body given to `send`, by timer id. */
    var delayed: map<nat, Value>
    /** The headers of a dynamic-fixture answer, once `getAllResponseHeaders` is replaced. */
    var responseHeaders: Option<seq<(string, string)>>
    var disableHeaderCheck: bool
    /** Every call made on the real transport and every callback fired, in order. */
    var log: seq<Effect>
    /** The event and property names found at start-up. */
    const eventNames: seq<string>
    const propNames: seq<string>

    /** The header names are distinct and are the keys of the header map, and the
        response headers are replaced exactly when the backing object is synthetic. */
    ghost predicate Valid()
      reads this`headerNames, this`requestHeaders, this`backing, this`responseHeaders
    {
      HeadersValid() && (backing.Synthetic? <==> responseHeaders.Some?)
    }

    ghost predicate HeadersValid()
      reads this`headerNames, this`requestHeaders
    {
      && (forall i, j :: 0 <= i < j < |headerNames| ==> headerNames[i] != headerNames[j])
      && (forall n :: n in requestHeaders <==> n in headerNames)
    }

    /** `new XMLHttpRequest()`: a fresh real transport with its own initial fields;
        `onload` is set to `null`, so no on-event property holds a function. */
    constructor (eventNames: seq<string>, propNames: seq<string>, transport: map<string, Value>)
      ensures Valid()
      ensures this.eventNames == eventNames && this.propNames == propNames
      ensures backing == Real(transport)
      ensures headerNames == [] && requestHeaders == map[]
      ensures listeners == map[] && handlers == map[]
      ensures timeoutId == None && delayed == map[] && responseHeaders == None
      ensures !disableHeaderCheck && log == []
    {
      this.eventNames := eventNames;
      this.propNames := propNames;
      backing := Real(transport);
      headerNames, requestHeaders := [], map[];
      listeners, handlers := map[], map[];
      timeoutId, delayed, responseHeaders := None, map[], None;
      disableHeaderCheck := false;
      log := [];
    }

    /** `mock["on" + ev] = fn`, or a falsy value when `fn` is None. */
    method SetHandler(ev: string, fn: Option<ListenerId>)
      modifies this`handlers
      ensures fn.Some? ==> handlers == old(handlers)[ev := fn.value]
      ensures fn.None? ==> handlers == old(handlers) - {ev}
    {
      if fn.Some? {
        handlers := handlers[ev := fn.value];
      } else {
        handlers := handlers - {ev};
      }
    }

    method SetRequestHeader(name: string, value: string)
      requires Valid()
      modifies this`headerNames, this`requestHeaders
      ensures Valid()
      ensures requestHeaders == old(requestHeaders)[name := value]
      ensures headerNames == if name in old(requestHeaders) then old(headerNames) else old(headerNames) + [name]
    {
      if name !in requestHeaders {
        headerNames := headerNames + [name];
      }
      requestHeaders := requestHeaders[name := value];
    }

    /** `open` only records the request on the backing object; the transport's own
        `open` is not called. */
    method Open(typ: Value, url: Value, isAsync: Value)
      modifies this`backing
      ensures backing.Real? == old(backing).Real?
      ensures backing.fields == old(backing).fields["type" := typ]["url" := url]["async" := Bool(AsyncFlag(isAsync))]
    {
      backing := backing.(fields := backing.fields["type" := typ]["url" := url]["async" := Bool(AsyncFlag(isAsync))]);
    }

    /** Before a dynamic answer the call goes to the transport, whose answer is
        `fromTransport`; after one, the replacement builds the header string. */
    method GetAllResponseHeaders(fromTransport: string) returns (r: string)
      modifies this`log
      ensures responseHeaders.Some? ==> r == HeaderString(responseHeaders.value) && log == old(log)
      ensures responseHeaders.None? ==> r == fromTransport && log == old(log) + [GetAllHeaders]
    {
      if responseHeaders.Some? {
        r := HeaderString(responseHeaders.value);
      } else {
        log := log + [GetAllHeaders];
        r := fromTransport;
      }
    }

    method AddEventListener(ev: string, fn: ListenerId)
      modifies this`listeners
      ensures listeners == old(listeners)[ev := Lookup(old(listeners), ev) + [fn]]
    {
      listeners := listeners[ev := Lookup(listeners, ev) + [fn]];
    }

    method RemoveEventListener(ev: string, fn: ListenerId)
      modifies this`listeners
      ensures listeners == old(listeners)[ev := Removed(Lookup(old(listeners), ev), fn)]
    {
      var evs := Lookup(listeners, ev);
      ghost var spec := Removed(evs, fn);
      var idx := IndexOf(evs, fn);
      if idx >= 0 {
        evs := evs[..idx] + evs[idx + 1..];
      }
      assert evs == spec;
      listeners := listeners[ev := evs];
    }

    method SetDisableHeaderCheck(val: Value)
      modifies this`disableHeaderCheck
      ensures disableHeaderCheck == Truthy(val)
    {
      disableHeaderCheck := Truthy(val);
    }

    /** `getResponseHeader` answers the empty string for every key. */
    method GetResponseHeader(key: string) returns (r: string)
      ensures r == ""
    {
      r := "";
    }

    /** `abort`, including the cancellation of the delayed request of the recorded
        timer id; the timers of earlier sends stay scheduled. */
    method Abort()
      modifies this`log, this`delayed
      ensures log == old(log) + AbortCalls(backing, timeoutId)
      ensures delayed == if timeoutId.Some? then old(delayed) - {timeoutId.value} else old(delayed)
    {
      if timeoutId.Some? {
        delayed := delayed - {timeoutId.value};
        if backing.Real? {
          var f := backing.fields;
          log := log + [Effect.Open(Field(f, "type"), Field(f, "url"), Bool(AsyncFlag(Field(f, "async"))))];
        }
        if backing.Real? {
          log := log + [Effect.Send(Undefined)];
        }
      }
      if backing.Real? {
        log := log + [Effect.Abort];
      }
    }

    /** `callEvents(ev)`: the listeners registered when it starts, in order. */
    method CallEvents(ev: string)
      modifies this`log
      ensures log == old(log) + ListenerCalls(listeners, ev)
    {
      var evs := Lookup(listeners, ev);
      var i := 0;
      while i < |evs|
        invariant 0 <= i <= |evs|
        invariant log == old(log) + ListenerCalls(listeners, ev)[..i]
      {
        log := log + [Listener(ev, evs[i])];
        i := i + 1;
      }
      assert ListenerCalls(listeners, ev)[..i] == ListenerCalls(listeners, ev);
    }

    /** The on-event property of `ev`, when it holds a function. */
    method FireHandler(ev: string)
      modifies this`log
      ensures log == old(log) + HandlerCall(handlers, ev)
    {
      if ev in handlers {
        log := log + [Handler(ev, handlers[ev])];
      }
    }

    /** The listeners of `ev`, then its on-event property. */
    method Fire(ev: string)
      modifies this`log
      ensures log == old(log) + (ListenerCalls(listeners, ev) + HandlerCall(handlers, ev))
    {
      CallEvents(ev);
      FireHandler(ev);
    }

    /** The forwarding handler installed on the real transport for each known event:
        the listeners first, then the on-event property. Other events have no handler. */
    method TransportEvent(ev: string)
      modifies this`log
      ensures log == old(log) + if ev in eventNames then ListenerCalls(listeners, ev) + HandlerCall(handlers, ev) else []
    {
      if ev in eventNames {
        Fire(ev);
      }
    }

    /** `makeRequest`: open the transport, set the stored headers, send the body. */
    method MakeRequest(body: Value)
      requires Valid() && backing.Real?
      modifies this`log
      ensures log == old(log) + RequestCalls(backing.fields, headerNames, requestHeaders, body)
    {
      var calls := BuildRequestCalls(backing.fields, headerNames, requestHeaders, body);
      log := log + calls;
    }

    /** `send` reads the type through the proxy and lower-cases it, so the stored type
        must be a string, and so must the URL when its query string is split off. */
    predicate CanNormalize(body: Value)
      reads this
    {
      && Field(backing.fields, "type").Str?
      && (StripsQuery(MethodName(Field(backing.fields, "type").s), body) ==> Field(backing.fields, "url").Str?)
    }

    /** The settings record `send` derives from the stored request and the body. */
    function RequestSettings(c: Codecs, body: Value): (s: Settings)
      reads this
      requires CanNormalize(body)
      ensures s.verb == MethodName(Field(backing.fields, "type").s)
      ensures s.headers == requestHeaders && s.isAsync == Field(backing.fields, "async")
      ensures StripsQuery(s.verb, body) ==> s.url == Str(PathOf(Field(backing.fields, "url").s))
      ensures !StripsQuery(s.verb, body) ==> s.url == Field(backing.fields, "url")
    {
      Normalize(c, Field(backing.fields, "type").s, Field(backing.fields, "url"), body,
                requestHeaders, Field(backing.fields, "async"))
    }

    /** `send` completes without a JavaScript error: the request normalises, and a
        request made at once goes to a real transport. */
    predicate CanSend(c: Codecs, body: Value, resolve: Settings -> Option<map<string, Value>>)
      reads this
    {
      && CanNormalize(body)
      && (backing.Real? || Classify(resolve(RequestSettings(c, body))).Dynamic?
                        || Classify(resolve(RequestSettings(c, body))).Delay?)
    }

    /** `send(body)`. The registry answers `resolve(settings)`; a delay fixture's timer
        gets id `timer`, and a dynamic fixture's runner returns `dynamicTimer`. Neither is
        the id of a pending delayed request: `setTimeout` never reuses a pending id. */
    method Send(c: Codecs, body: Value, resolve: Settings -> Option<map<string, Value>>,
                timer: nat, dynamicTimer: Option<nat>) returns (settings: Settings)
      requires Valid() && CanSend(c, body, resolve)
      requires timer !in delayed
      requires dynamicTimer.Some? ==> dynamicTimer.value !in delayed
      modifies this`backing, this`timeoutId, this`delayed, this`log
      ensures Valid()
      ensures settings == old(RequestSettings(c, body))
      ensures Classify(resolve(settings)) == Dynamic ==>
        && timeoutId == dynamicTimer
        && backing == old(backing) && delayed == old(delayed) && log == old(log)
      ensures Classify(resolve(settings)).Delay? ==>
        && timeoutId == Some(timer) && delayed == old(delayed)[timer := body]
        && backing == old(backing) && log == old(log)
      ensures Classify(resolve(settings)).Redirect? ==>
        backing == Real(old(backing).fields + Classify(resolve(settings)).settings)
      ensures Classify(resolve(settings)) == Absent ==> backing == old(backing)
      ensures Classify(resolve(settings)) == Absent || Classify(resolve(settings)).Redirect? ==>
        && timeoutId == old(timeoutId) && delayed == old(delayed)
        && log == old(log) + RequestCalls(backing.fields, headerNames, requestHeaders, body)
    {
      settings := RequestSettings(c, body);
      Dispatch(Classify(resolve(settings)), body, timer, dynamicTimer);
    }

    /** The branches of `send` once the registry has answered. */
    method Dispatch(verdict: Verdict, body: Value, timer: nat, dynamicTimer: Option<nat>)
      requires Valid() && (backing.Real? || verdict.Dynamic? || verdict.Delay?)
      requires timer !in delayed
      requires dynamicTimer.Some? ==> dynamicTimer.value !in delayed
      modifies this`backing, this`timeoutId, this`delayed, this`log
      ensures Valid()
      ensures verdict == Dynamic ==>
        && timeoutId == dynamicTimer
        && backing == old(backing) && delayed == old(delayed) && log == old(log)
      ensures verdict.Delay? ==>
        && timeoutId == Some(timer) && delayed == old(delayed)[timer := body]
        && backing == old(backing) && log == old(log)
      ensures verdict.Redirect? ==> backing == Real(old(backing).fields + verdict.settings)
      ensures verdict == Absent ==> backing == old(backing)
      ensures verdict == Absent || verdict.Redirect? ==>
        && timeoutId == old(timeoutId) && delayed == old(delayed)
        && log == old(log) + RequestCalls(backing.fields, headerNames, requestHeaders, body)
    {
      match verdict
      case Dynamic =>
        timeoutId := dynamicTimer;
      case Delay(_) =>
        timeoutId := Some(timer);
        delayed := delayed[timer := body];
      case Redirect(fs) =>
        backing := Real(backing.fields + fs);
        assert Valid();
        MakeRequest(body);
      case Absent =>
        MakeRequest(body);
    }

    /** The timer of a delay fixture fires: `makeRequest` runs with the body given to
        `send`. The recorded timer id stays. */
    method FireDelayed(timer: nat)
      requires Valid() && timer in delayed && backing.Real?
      modifies this`log, this`delayed
      ensures delayed == old(delayed) - {timer}
      ensures log == old(log) + RequestCalls(backing.fields, headerNames, requestHeaders, old(delayed)[timer])
    {
      var body := delayed[timer];
      delayed := delayed - {timer};
      MakeRequest(body);
    }

    /** The completion callback handed to a dynamic fixture. */
    method Complete(c: Codecs, status: int, body: Value, headers: seq<(string, string)>, statusText: Value)
      requires Valid()
      modifies this`backing, this`responseHeaders, this`log
      ensures Valid()
      ensures backing == Synthetic(SyntheticFields(c, status, body, statusText))
      ensures responseHeaders == Some(headers)
      ensures log == old(log) + CompletionCallbacks(listeners, handlers)
    {
      backing := Synthetic(SyntheticFields(c, status, body, statusText));
      responseHeaders := Some(headers);
      FireCompletion();
    }

    /** The callbacks the completion fires, in their order. */
    method FireCompletion()
      modifies this`log
      ensures log == old(log) + CompletionCallbacks(listeners, handlers)
    {
      ghost var start := log;
      FireHandler("readystatechange");
      ghost var done := HandlerCall(handlers, "readystatechange");
      Fire("progress");
      Regroup(start, done, ListenerCalls(listeners, "progress"), HandlerCall(handlers, "progress"));
      done := done + ListenerCalls(listeners, "progress") + HandlerCall(handlers, "progress");
      Fire("load");
      Regroup(start, done, ListenerCalls(listeners, "load"), HandlerCall(handlers, "load"));
      done := done + ListenerCalls(listeners, "load") + HandlerCall(handlers, "load");
      Fire("loadend");
      Regroup(start, done, ListenerCalls(listeners, "loadend"), HandlerCall(handlers, "loadend"));
    }

    /** The getter of the property proxy. */
    method GetProperty(name: string) returns (v: Value)
      requires name in propNames
      ensures v == Field(backing.fields, name)
    {
      v := Field(backing.fields, name);
    }

    /** The setter of the property proxy. */
    method SetProperty(name: string, v: Value)
      requires name in propNames
      modifies this`backing
      ensures backing == ProxySet(old(backing), name, v)
    {
      if Field(backing.fields, name) != v {
        backing := backing.(fields := backing.fields[name := v]);
      }
    }
  }
}
