/**
 * The start-up discovery of the event and property names the mock request object
 * forwards: the members of a template transport object are merged into two baseline
 * lists, without duplicates.
 */
module Discovery {

  /** A member found on the template transport: its name, and whether it is a function. */
  datatype Member = Member(name: string, isFunction: bool)

  const BaselineProps: seq<string> := [
    "type", "url", "async", "response", "responseText", "responseType",
    "responseXML", "responseURL", "status", "statusText", "readyState"
  ]

  const BaselineEvents: seq<string> :=
    ["abort", "error", "load", "loadend", "loadstart", "progress", "readystatechange"]

  /** `prop.indexOf("on") === 0`. */
  predicate IsOnName(name: string) {
    |name| >= 2 && name[..2] == "on"
  }

  predicate Distinct(s: seq<string>) {
    forall i, j :: 0 <= i < j < |s| ==> s[i] != s[j]
  }

  /** The lists after visiting one member: an `on…` member adds its event name unless it
      is known; any other member that is not a function adds itself unless known. */
  function Step(events: seq<string>, props: seq<string>, m: Member): (r: (seq<string>, seq<string>))
    ensures events <= r.0 && props <= r.1
    ensures |r.0| + |r.1| <= |events| + |props| + 1
    ensures |r.0| > |events| ==> r.0[|events|] !in events
    ensures |r.1| > |props| ==> r.1[|props|] !in props
  {
    if IsOnName(m.name) then
      (if m.name[2..] in events then events else events + [m.name[2..]], props)
    else if m.name !in props && !m.isFunction then
      (events, props + [m.name])
    else
      (events, props)
  }

  /** The lists after visiting `members` in order. */
  function Discovered(events: seq<string>, props: seq<string>, members: seq<Member>): (r: (seq<string>, seq<string>))
    ensures events <= r.0 && props <= r.1
    ensures |r.0| + |r.1| <= |events| + |props| + |members|
    decreases |members|
  {
    if members == [] then (events, props)
    else
      var (e, p) := Step(events, props, members[0]);
      Discovered(e, p, members[1..])
  }

  /** The discovery loop over the template's members, as the source runs it. */
  method Discover(members: seq<Member>) returns (events: seq<string>, props: seq<string>)
    ensures (events, props) == Discovered(BaselineEvents, BaselineProps, members)
  {
    events, props := BaselineEvents, BaselineProps;
    var i := 0;
    while i < |members|
      invariant 0 <= i <= |members|
      invariant Discovered(events, props, members[i..]) == Discovered(BaselineEvents, BaselineProps, members)
    {
      var name := members[i].name;
      if IsOnName(name) {
        if name[2..] !in events {
          events := events + [name[2..]];
        }
      } else if name !in props && !members[i].isFunction {
        props := props + [name];
      }
      assert members[i..][1..] == members[i + 1..];
      i := i + 1;
    }
    assert members[i..] == [];
  }

  /** The baseline lists are kept as prefixes and no name is listed twice. */
  lemma {:induction false} DiscoveredExtends(events: seq<string>, props: seq<string>, members: seq<Member>)
    requires Distinct(events) && Distinct(props)
    ensures var (e, p) := Discovered(events, props, members);
      events <= e && props <= p && Distinct(e) && Distinct(p)
    decreases |members|
  {
    if members != [] {
      var (e, p) := Step(events, props, members[0]);
      DiscoveredExtends(e, p, members[1..]);
    }
  }

  /** A name is an event name exactly when it is a baseline event or some member is
      called `on` followed by it; a name is a property name exactly when it is a baseline
      property or the name of some member that neither starts with `on` nor is a function. */
  lemma {:induction false} DiscoveredNames(events: seq<string>, props: seq<string>, members: seq<Member>, x: string)
    ensures var (e, p) := Discovered(events, props, members);
      && (x in e <==> x in events || exists k :: 0 <= k < |members| && IsOnName(members[k].name) && members[k].name[2..] == x)
      && (x in p <==> x in props || exists k :: 0 <= k < |members| && !IsOnName(members[k].name) && !members[k].isFunction && members[k].name == x)
    decreases |members|
  {
    if members != [] {
      var (e, p) := Step(events, props, members[0]);
      DiscoveredNames(e, p, members[1..], x);
      forall k | 0 < k < |members| ensures members[k] == members[1..][k - 1] { }
    }
  }

  lemma BaselinesDistinct()
    ensures Distinct(BaselineEvents) && Distinct(BaselineProps)
  {
  }
}
