/**
 * Four uses of the mock request object, written as clients: what a caller observes
 * follows from the contracts of the class alone.
 */
module Scenarios {
  import opened Wrappers
  import opened JsValues
  import opened Text
  import opened Normalizer
  import opened Completion
  import opened Listeners
  import opened Discovery
  import opened MockXhr

  lemma GetIsCanonical()
    ensures MethodName("GET") == "get"
  {
    assert Lower("GET") == [LowerChar('G')] + Lower("ET");
    assert Lower("ET") == [LowerChar('E')] + Lower("T");
  }

  lemma PostIsCanonical()
    ensures MethodName("POST") == "post"
  {
    assert Lower("POST") == [LowerChar('P')] + Lower("OST");
    assert Lower("OST") == [LowerChar('O')] + Lower("ST");
    assert Lower("ST") == [LowerChar('S')] + Lower("T");
  }

  /** A GET sent to a delay fixture and aborted before the timer fires: the delayed
      request is cancelled, and the transport is opened and sent to just before it is
      aborted. */
  method DelayedThenAbort(c: Codecs, url: string, ms: int, timer: nat)
    returns (calls: seq<Effect>, cancelled: bool)
    ensures calls == [Effect.Open(Str("GET"), Str(url), Bool(true)), Effect.Send(Undefined), Effect.Abort]
    ensures cancelled
  {
    var x := new Mock(BaselineEvents, BaselineProps, map[]);
    x.Open(Str("GET"), Str(url), Undefined);
    GetIsCanonical();
    var resolve := (s: Settings) => Some(map["fixture" := Num(ms)]);
    assert Classify(resolve(x.RequestSettings(c, Undefined))) == Delay(ms);
    var _ := x.Send(c, Undefined, resolve, timer, None);
    assert x.log == [] && x.timeoutId == Some(timer);
    x.Abort();
    calls, cancelled := x.log, timer !in x.delayed;
  }

  /** A POST of the same request object sent twice, with bodies "a" and "b", and
      answered by a delay fixture both times; the timers get ids 1 and 2. */
  method TwoDelayedPosts(c: Codecs, url: string, ms: int) returns (x: Mock)
    ensures fresh(x) && x.Valid() && x.backing.Real?
    ensures Field(x.backing.fields, "type") == Str("POST") && Field(x.backing.fields, "url") == Str(url)
    ensures Field(x.backing.fields, "async") == Bool(true)
    ensures x.headerNames == [] && x.requestHeaders == map[]
    ensures x.timeoutId == Some(2) && x.delayed == map[1 := Str("a"), 2 := Str("b")]
    ensures x.log == []
  {
    x := new Mock(BaselineEvents, BaselineProps, map[]);
    x.Open(Str("POST"), Str(url), Undefined);
    PostIsCanonical();
    var resolve := (s: Settings) => Some(map["fixture" := Num(ms)]);
    assert Classify(resolve(x.RequestSettings(c, Str("a")))) == Delay(ms);
    var _ := x.Send(c, Str("a"), resolve, 1, None);
    assert Classify(resolve(x.RequestSettings(c, Str("b")))) == Delay(ms);
    var _ := x.Send(c, Str("b"), resolve, 2, None);
  }

  /** Two delayed POSTs, then `abort`: only the timer of the later send is cleared, so
      the earlier one still fires and sends its own body. */
  method TwoDelaysThenAbort(c: Codecs, url: string, ms: int)
    returns (pending: map<nat, Value>, calls: seq<Effect>)
    ensures pending == map[1 := Str("a")]
    ensures calls == [Effect.Open(Str("POST"), Str(url), Bool(true)), Effect.Send(Undefined), Effect.Abort,
                      Effect.Open(Str("POST"), Str(url), Bool(true)), Effect.Send(Str("a"))]
  {
    var x := TwoDelayedPosts(c, url, ms);
    x.Abort();
    pending := x.delayed;
    assert pending == map[1 := Str("a")];
    x.FireDelayed(1);
    ghost var request := RequestCalls(x.backing.fields, [], map[], Str("a"));
    assert request == [Effect.Open(Str("POST"), Str(url), Bool(true)), Effect.Send(Str("a"))];
    calls := x.log;
  }

  /** With a `load` and a `loadend` listener and no on-event property, a completion
      calls exactly those two listeners, in that order. */
  lemma LoadListenersOnly(l: map<string, seq<ListenerId>>)
    requires l == map["load" := [1], "loadend" := [2]]
    ensures CompletionCallbacks(l, map[]) == [Listener("load", 1), Listener("loadend", 2)]
  {
    assert Lookup(l, "progress") == [];
    assert ListenerCalls(l, "load") == [Listener("load", 1)];
    assert ListenerCalls(l, "loadend") == [Listener("loadend", 2)];
  }

  /** A fresh request opened for a POST, with a `load` and a `loadend` listener. */
  method ListeningPost(url: Value) returns (x: Mock)
    ensures fresh(x) && x.Valid() && x.propNames == BaselineProps
    ensures Field(x.backing.fields, "type") == Str("POST")
    ensures x.listeners == map["load" := [1], "loadend" := [2]]
    ensures x.handlers == map[] && x.delayed == map[] && x.log == []
  {
    x := new Mock(BaselineEvents, BaselineProps, map[]);
    x.Open(Str("POST"), url, Undefined);
    x.AddEventListener("load", 1);
    assert x.listeners == map["load" := [1]] by {
      assert Lookup(map[], "load") + [1] == [1];
    }
    x.AddEventListener("loadend", 2);
    assert "loadend" !in map["load" := [1]];
    assert Lookup(map["load" := [1]], "loadend") + [2] == [2];
  }

  /** A POST with a `load` and a `loadend` listener, answered by a dynamic fixture: the
      backing object becomes the synthetic record, and only those two listeners fire. */
  method CompletedPost(c: Codecs, url: Value, body: Value, status: int, answer: Value)
    returns (x: Mock)
    ensures fresh(x) && x.Valid() && x.propNames == BaselineProps
    ensures x.backing == Synthetic(SyntheticFields(c, status, answer, Undefined))
    ensures x.log == [Listener("load", 1), Listener("loadend", 2)]
  {
    x := ListeningPost(url);
    ghost var l := x.listeners;
    PostIsCanonical();
    var resolve := (s: Settings) => Some(map["fixture" := Fn(0)]);
    assert Classify(resolve(x.RequestSettings(c, body))) == Dynamic;
    var _ := x.Send(c, body, resolve, 0, Some(3));
    assert x.log == [] && x.listeners == l && x.handlers == map[];
    x.Complete(c, status, answer, [], Undefined);
    LoadListenersOnly(l);
    assert [] + CompletionCallbacks(l, map[]) == CompletionCallbacks(l, map[]);
  }

  /** The status, status text and response text are among the baseline properties. */
  lemma CompletionPropsListed()
    ensures "status" in BaselineProps && "statusText" in BaselineProps
    ensures "responseText" in BaselineProps
  {
    assert BaselineProps[8] == "status" && BaselineProps[9] == "statusText";
    assert BaselineProps[4] == "responseText";
  }

  /** A POST answered by a dynamic fixture: the backing object reports the status, the
      status text defaults to "OK" on success, the response text is the stringified
      body, the `load` and `loadend` listeners fire in that order, the transport is never
      used, and a later `abort` calls nothing. */
  method DynamicCompletion(c: Codecs, url: Value, body: Value, status: int, answer: Value)
    returns (readStatus: Value, statusText: Value, responseText: Value, calls: seq<Effect>)
    requires IsSuccess(status)
    ensures readStatus == Num(status) && statusText == Str("OK")
    ensures responseText == ResponseText(c, answer)
    ensures calls == [Listener("load", 1), Listener("loadend", 2)]
  {
    var x := CompletedPost(c, url, body, status, answer);
    CompletionPropsListed();
    readStatus := x.GetProperty("status");
    statusText := x.GetProperty("statusText");
    responseText := x.GetProperty("responseText");
    x.Abort();
    calls := x.log;
  }

  /** The path of a URL whose path has no `?` is exactly that path. */
  lemma PathBeforeQuery(path: string, query: string)
    requires '?' !in path
    ensures PathOf(path + "?" + query) == path
  {
    var url := path + "?" + query;
    SplitFirst(url, '?');
    var p := PathOf(url);
    assert url[|path|] == '?';
    assert p == url[..|p|] && path == url[..|path|];
  }

  /** A fresh request object opened for a GET of `path` with a query string. */
  method OpenedGet(path: string, query: string) returns (x: Mock)
    ensures fresh(x) && x.Valid() && x.backing.Real?
    ensures x.backing.fields == map["type" := Str("GET"), "url" := Str(path + "?" + query), "async" := Bool(true)]
    ensures x.headerNames == [] && x.requestHeaders == map[] && x.log == []
    ensures x.delayed == map[]
  {
    x := new Mock(BaselineEvents, BaselineProps, map[]);
    x.Open(Str("GET"), Str(path + "?" + query), Undefined);
  }

  /** A GET with a query string and no body, answered by a static fixture that names
      another URL: the registry sees the path without the query, and the transport is
      opened on the fixture's URL and sent the original (absent) body. */
  method RedirectedGet(c: Codecs, path: string, query: string, target: Value)
    returns (matched: Value, calls: seq<Effect>)
    requires '?' !in path
    ensures matched == Str(path)
    ensures calls == [Effect.Open(Str("GET"), target, Bool(true)), Effect.Send(Undefined)]
  {
    var x := OpenedGet(path, query);
    GetIsCanonical();
    PathBeforeQuery(path, query);
    var fixture := map["url" := target];
    var resolve := (s: Settings) => if s.url == Str(path) then Some(fixture) else None;
    ghost var before := x.backing.fields;
    assert x.RequestSettings(c, Undefined).url == Str(path);
    assert Classify(resolve(x.RequestSettings(c, Undefined))) == Redirect(fixture);
    var settings := x.Send(c, Undefined, resolve, 0, None);
    ghost var after := x.backing.fields;
    assert after == before + fixture;
    assert Field(after, "type") == Str("GET") && Field(after, "url") == target && Field(after, "async") == Bool(true);
    assert x.log == [] + RequestCalls(after, [], map[], Undefined);
    matched := settings.url;
    calls := x.log;
  }
}
