/**
 * The listener registry of the mock request object (a list of listeners per event
 * name) and the sequences of callbacks it fires.
 */
module Listeners {
  import opened JsValues

  /** A listener function, by identity. */
  type ListenerId = nat

  /** What the mock request object does to the outside world, in order: calls on the
      real transport, and calls of the caller's callbacks. */
  datatype Effect =
    | Open(verb: Value, url: Value, isAsync: Value)
    | SetRequestHeader(name: string, value: string)
    | Send(body: Value)
    | Abort
    | GetAllHeaders
    | Listener(event: string, id: ListenerId)
    | Handler(event: string, id: ListenerId)

  /** `this.__events[ev] || []`. */
  function Lookup(listeners: map<string, seq<ListenerId>>, ev: string): seq<ListenerId> {
    if ev in listeners then listeners[ev] else []
  }

  /** `evs.indexOf(fn)`: the first position of `fn`, or -1. */
  function IndexOf(s: seq<ListenerId>, fn: ListenerId): (i: int)
    ensures -1 <= i < |s|
    ensures i == -1 <==> fn !in s
    ensures 0 <= i ==> s[i] == fn && fn !in s[..i]
  {
    if s == [] then -1
    else if s[0] == fn then 0
    else
      var j := IndexOf(s[1..], fn);
      if j == -1 then -1
      else
        assert s[..j + 1] == [s[0]] + s[1..][..j];
        j + 1
  }

  /** The list after `removeEventListener`: the first occurrence of `fn` spliced out. */
  function Removed(s: seq<ListenerId>, fn: ListenerId): (r: seq<ListenerId>)
    ensures fn !in s ==> r == s
    ensures fn in s ==> |r| == |s| - 1
    ensures forall x :: x in r ==> x in s
  {
    var i := IndexOf(s, fn);
    if i >= 0 then s[..i] + s[i + 1..] else s
  }

  /** Removal takes out exactly one occurrence of a present listener, keeps the order of
      the rest and leaves a list without the listener as it was. */
  lemma RemovedTakesOneOccurrence(s: seq<ListenerId>, fn: ListenerId)
    ensures fn !in s ==> Removed(s, fn) == s
    ensures fn in s ==>
      var i := IndexOf(s, fn);
      && s == Removed(s, fn)[..i] + [fn] + Removed(s, fn)[i..]
      && multiset(Removed(s, fn)) == multiset(s) - multiset{fn}
  {
    if fn in s {
      var i := IndexOf(s, fn);
      var a, b := s[..i], s[i + 1..];
      assert Removed(s, fn) == a + b;
      SpliceParts(s, i, a, b);
    }
  }

  /** Cutting out position `i` leaves the parts around it, and one occurrence of
      `s[i]` fewer. */
  lemma SpliceParts(s: seq<ListenerId>, i: nat, a: seq<ListenerId>, b: seq<ListenerId>)
    requires i < |s| && a == s[..i] && b == s[i + 1..]
    ensures (a + b)[..i] == a && (a + b)[i..] == b
    ensures s == a + [s[i]] + b
    ensures multiset(a + b) == multiset(s) - multiset{s[i]}
  {
    assert s == a + [s[i]] + b;
  }

  /** Adding a listener and removing it again gives back the old list when it was not
      registered; when it was, the earlier registration is the one removed. */
  lemma {:induction false} RemoveAfterAdd(s: seq<ListenerId>, fn: ListenerId)
    ensures fn !in s ==> Removed(s + [fn], fn) == s
    ensures fn in s ==> Removed(s + [fn], fn) == Removed(s, fn) + [fn]
  {
    var t := s + [fn];
    var i := IndexOf(t, fn);
    if fn !in s {
      assert t[..|s|] == s;
      assert fn !in t[..|s|];
      assert i == |s|;
    } else {
      var k := IndexOf(s, fn);
      assert t[..k] == s[..k];
      assert t[k] == fn;
      assert t[k + 1..] == s[k + 1..] + [fn];
    }
  }

  /** `callEvents(ev)`: each registered listener of `ev`, in registration order. */
  function ListenerCalls(listeners: map<string, seq<ListenerId>>, ev: string): (calls: seq<Effect>)
    ensures |calls| == |Lookup(listeners, ev)|
    ensures forall k :: 0 <= k < |calls| ==> calls[k] == Listener(ev, Lookup(listeners, ev)[k])
  {
    var evs := Lookup(listeners, ev);
    seq(|evs|, k requires 0 <= k < |evs| => Listener(ev, evs[k]))
  }

  /** `if (this["on" + ev]) this["on" + ev](...)`: the on-event property, when set. */
  function HandlerCall(handlers: map<string, ListenerId>, ev: string): (calls: seq<Effect>)
    ensures |calls| <= 1
    ensures calls != [] <==> ev in handlers
    ensures calls != [] ==> calls[0] == Handler(ev, handlers[ev])
  {
    if ev in handlers then [Handler(ev, handlers[ev])] else []
  }

  /** The callbacks of a dynamic-fixture completion, in the order they are fired. */
  function CompletionCallbacks(listeners: map<string, seq<ListenerId>>,
                               handlers: map<string, ListenerId>): (calls: seq<Effect>)
    ensures |calls| == |HandlerCall(handlers, "readystatechange")|
                       + |Lookup(listeners, "progress")| + |HandlerCall(handlers, "progress")|
                       + |Lookup(listeners, "load")| + |HandlerCall(handlers, "load")|
                       + |Lookup(listeners, "loadend")| + |HandlerCall(handlers, "loadend")|
  {
    HandlerCall(handlers, "readystatechange")
    + ListenerCalls(listeners, "progress") + HandlerCall(handlers, "progress")
    + ListenerCalls(listeners, "load") + HandlerCall(handlers, "load")
    + ListenerCalls(listeners, "loadend") + HandlerCall(handlers, "loadend")
  }

  /** The place of a callback of event `ev` in the completion order, listeners before
      the on-event property; 7 for any callback the completion never fires. */
  function StageOf(isHandler: bool, ev: string): nat {
    if isHandler && ev == "readystatechange" then 0
    else if ev == "progress" then (if isHandler then 2 else 1)
    else if ev == "load" then (if isHandler then 4 else 3)
    else if ev == "loadend" then (if isHandler then 6 else 5)
    else 7
  }

  function Stage(e: Effect): nat {
    match e
    case Listener(ev, _) => StageOf(false, ev)
    case Handler(ev, _) => StageOf(true, ev)
    case _ => 7
  }

  /** Each callback is at the same or a later stage than the one before it, and at the
      same stage only when both are listeners. */
  predicate Ordered(s: seq<Effect>) {
    forall i :: 0 < i < |s| ==> Precedes(s[i - 1], s[i])
  }

  predicate Precedes(a: Effect, b: Effect) {
    Stage(a) < Stage(b) || (Stage(a) == Stage(b) && a.Listener? && b.Listener?)
  }

  /** Order between neighbours extends to any two callbacks of the sequence. */
  lemma {:induction false} OrderedPairs(s: seq<Effect>, i: nat, j: nat)
    requires Ordered(s) && i < j < |s|
    ensures Precedes(s[i], s[j])
    decreases j - i
  {
    if i + 1 < j {
      OrderedPairs(s, i, j - 1);
      assert Precedes(s[j - 1], s[j]);
    }
  }

  /** The last callback of `s`, if any, is at a stage below `k`. */
  predicate EndsBelow(s: seq<Effect>, k: nat) {
    |s| > 0 ==> Stage(s[|s| - 1]) < k
  }

  predicate AllAt(t: seq<Effect>, k: nat) {
    forall i :: 0 <= i < |t| ==> Stage(t[i]) == k
  }

  /** A block of callbacks that may follow any earlier stage: all at one stage, and a
      single callback or listeners only. */
  predicate Block(t: seq<Effect>, k: nat) {
    AllAt(t, k) && (|t| <= 1 || forall i :: 0 <= i < |t| ==> t[i].Listener?)
  }

  /** Appending a block of callbacks of one later stage keeps the order. */
  lemma OrderedExtend(s: seq<Effect>, t: seq<Effect>, k: nat)
    requires Ordered(s) && EndsBelow(s, k) && Block(t, k)
    ensures Ordered(s + t) && EndsBelow(s + t, k + 1)
  {
  }

  lemma ListenerBlock(listeners: map<string, seq<ListenerId>>, ev: string)
    ensures Block(ListenerCalls(listeners, ev), StageOf(false, ev))
  {
  }

  lemma HandlerBlock(handlers: map<string, ListenerId>, ev: string)
    ensures Block(HandlerCall(handlers, ev), StageOf(true, ev))
  {
  }

  /** Seven blocks of stages 0 to 6, one after the other, are in completion order. */
  lemma {:induction false} BlocksOrdered(b0: seq<Effect>, b1: seq<Effect>, b2: seq<Effect>, b3: seq<Effect>,
                                         b4: seq<Effect>, b5: seq<Effect>, b6: seq<Effect>)
    requires Block(b0, 0) && Block(b1, 1) && Block(b2, 2) && Block(b3, 3)
    requires Block(b4, 4) && Block(b5, 5) && Block(b6, 6)
    ensures var cs := b0 + b1 + b2 + b3 + b4 + b5 + b6;
      Ordered(cs) && EndsBelow(cs, 7)
  {
    var s0: seq<Effect> := [];
    OrderedExtend(s0, b0, 0);
    var s1 := s0 + b0;
    OrderedExtend(s1, b1, 1);
    var s2 := s1 + b1;
    OrderedExtend(s2, b2, 2);
    var s3 := s2 + b2;
    OrderedExtend(s3, b3, 3);
    var s4 := s3 + b3;
    OrderedExtend(s4, b4, 4);
    var s5 := s4 + b4;
    OrderedExtend(s5, b5, 5);
    var s6 := s5 + b5;
    OrderedExtend(s6, b6, 6);
    assert s0 + b0 == b0;
  }

  /** A dynamic completion fires `onreadystatechange`, then the `progress` listeners and
      `onprogress`, then `load` and `onload`, then `loadend` and `onloadend`, and never a
      `readystatechange` listener nor any other callback. */
  lemma {:induction false} CompletionOrder(listeners: map<string, seq<ListenerId>>,
                                           handlers: map<string, ListenerId>)
    ensures var cs := CompletionCallbacks(listeners, handlers);
      && Ordered(cs)
      && (forall i :: 0 <= i < |cs| ==> Stage(cs[i]) < 7)
  {
    HandlerBlock(handlers, "readystatechange");
    ListenerBlock(listeners, "progress");
    HandlerBlock(handlers, "progress");
    ListenerBlock(listeners, "load");
    HandlerBlock(handlers, "load");
    ListenerBlock(listeners, "loadend");
    HandlerBlock(handlers, "loadend");
    BlocksOrdered(HandlerCall(handlers, "readystatechange"),
                  ListenerCalls(listeners, "progress"), HandlerCall(handlers, "progress"),
                  ListenerCalls(listeners, "load"), HandlerCall(handlers, "load"),
                  ListenerCalls(listeners, "loadend"), HandlerCall(handlers, "loadend"));
    var cs := CompletionCallbacks(listeners, handlers);
    forall i | 0 <= i < |cs| ensures Stage(cs[i]) < 7 {
      if i < |cs| - 1 {
        OrderedPairs(cs, i, |cs| - 1);
      }
    }
  }

  /** In an ordered sequence of callbacks no on-event property is called twice. */
  lemma OrderedHandlersOnce(cs: seq<Effect>)
    requires Ordered(cs)
    ensures forall i, j :: 0 <= i < j < |cs| && cs[i].Handler? && cs[j].Handler? ==>
      cs[i].event != cs[j].event
  {
    forall i, j | 0 <= i < j < |cs| && cs[i].Handler? && cs[j].Handler?
      ensures cs[i].event != cs[j].event
    {
      OrderedPairs(cs, i, j);
    }
  }

  /** A dynamic completion calls each on-event property at most once, and every
      registered `progress`, `load` and `loadend` listener once per registration. */
  lemma CompletionCardinality(listeners: map<string, seq<ListenerId>>,
                              handlers: map<string, ListenerId>)
    ensures var cs := CompletionCallbacks(listeners, handlers);
      && (forall i, j :: 0 <= i < j < |cs| && cs[i].Handler? && cs[j].Handler? ==>
            cs[i].event != cs[j].event)
      && |cs| == |HandlerCall(handlers, "readystatechange")|
           + |Lookup(listeners, "progress")| + |HandlerCall(handlers, "progress")|
           + |Lookup(listeners, "load")| + |HandlerCall(handlers, "load")|
           + |Lookup(listeners, "loadend")| + |HandlerCall(handlers, "loadend")|
  {
    CompletionOrder(listeners, handlers);
    OrderedHandlersOnce(CompletionCallbacks(listeners, handlers));
  }
}
