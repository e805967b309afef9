/** Runs of the event hub: broadcasts, connections and deliveries in any order, and
    what every connection has received after them. */
module EventRuns {
  import opened PortalEvents

  datatype Act =
    | Publish(kind: string, data: string, now: int)
    | Connect(last: nat)
    | ReplayOne(listener: nat)
    | Receive(listener: nat)
    | Beat(listener: nat, now: int)
    | Leave(listener: nat)

  predicate NoBeats(acts: seq<Act>) { forall a <- acts :: a.Publish? ==> a.kind != HEARTBEAT }

  /** What was published, in order. */
  function Published(acts: seq<Act>): seq<(string, int, string)> {
    if acts == [] then []
    else Published(acts[..|acts| - 1])
         + if acts[|acts| - 1].Publish? then [(acts[|acts| - 1].kind, acts[|acts| - 1].now, acts[|acts| - 1].data)] else []
  }

  lemma PublishedMore(acts: seq<Act>, a: Act)
    ensures Published(acts + [a]) == if a.Publish? then Published(acts) + [(a.kind, a.now, a.data)] else Published(acts)
  {
    assert (acts + [a])[..|acts|] == acts;
  }

  /** The contents of the broadcasts are those. */
  predicate SameContents(broadcasts: seq<Event>, contents: seq<(string, int, string)>) {
    |broadcasts| == |contents| && forall i :: 0 <= i < |broadcasts| ==> (broadcasts[i].kind, broadcasts[i].time, broadcasts[i].data) == contents[i]
  }

  /** How many connections were made: listeners are numbered in that order. */
  function Connects(acts: seq<Act>): nat {
    if acts == [] then 0 else Connects(acts[..|acts| - 1]) + if acts[|acts| - 1].Connect? then 1 else 0
  }

  lemma ConnectsMore(acts: seq<Act>, a: Act)
    ensures Connects(acts + [a]) == Connects(acts) + if a.Connect? then 1 else 0
  {
    assert (acts + [a])[..|acts|] == acts;
  }

  function OpenAfter(open: set<nat>, connects: nat, a: Act): set<nat> {
    match a
    case Connect(_) => open + {connects}
    case Leave(l) => open - {l}
    case _ => open
  }

  /** The listeners that have connected and not left since. */
  function Open(acts: seq<Act>): set<nat> {
    if acts == [] then {}
    else
      var before := acts[..|acts| - 1];
      OpenAfter(Open(before), Connects(before), acts[|acts| - 1])
  }

  lemma OpenMore(acts: seq<Act>, a: Act)
    ensures Open(acts + [a]) == OpenAfter(Open(acts), Connects(acts), a)
  {
    assert (acts + [a])[..|acts|] == acts;
  }

  /** The connection that made this listener, and how much had been published by then. */
  ghost predicate Connected(acts: seq<Act>, l: nat, last: nat, joined: nat) {
    exists k :: 0 <= k < |acts| && acts[k] == Connect(last) && Connects(acts[..k]) == l && joined == |Published(acts[..k])|
  }

  lemma ConnectedLasts(acts: seq<Act>, a: Act, l: nat, last: nat, joined: nat)
    requires Connected(acts, l, last, joined)
    ensures Connected(acts + [a], l, last, joined)
  {
    hide Published, Connects;
    var k :| 0 <= k < |acts| && acts[k] == Connect(last) && Connects(acts[..k]) == l && joined == |Published(acts[..k])|;
    assert (acts + [a])[k] == acts[k] && (acts + [a])[..k] == acts[..k];
  }

  lemma {:induction false} ConnectsGrow(acts: seq<Act>, j: nat, k: nat)
    requires j <= k <= |acts|
    ensures Connects(acts[..j]) <= Connects(acts[..k])
  {
    if j < k {
      ConnectsGrow(acts, j, k - 1);
      assert acts[..k] == acts[..k - 1] + [acts[k - 1]];
      ConnectsMore(acts[..k - 1], acts[k - 1]);
    }
  }

  /** A listener has one connection. */
  lemma ConnectedOnce(acts: seq<Act>, l: nat, last: nat, joined: nat, last': nat, joined': nat)
    requires Connected(acts, l, last, joined) && Connected(acts, l, last', joined')
    ensures last == last' && joined == joined'
  {
    hide Published, Connects;
    var j :| 0 <= j < |acts| && acts[j] == Connect(last) && Connects(acts[..j]) == l && joined == |Published(acts[..j])|;
    var k :| 0 <= k < |acts| && acts[k] == Connect(last') && Connects(acts[..k]) == l && joined' == |Published(acts[..k])|;
    var first, second := if j < k then j else k, if j < k then k else j;
    if first < second {
      ConnectsGrow(acts, first + 1, second);
      assert acts[..first + 1] == acts[..first] + [acts[first]];
      ConnectsMore(acts[..first], acts[first]);
    }
  }

  ghost predicate Told(acts: seq<Act>, hub: EventHub)
    reads hub
  {
    && SameContents(hub.broadcasts, Published(acts)) && hub.nextListener == Connects(acts) && hub.listeners.Keys == Open(acts)
    && hub.listeners.Keys <= hub.joined.Keys
    && forall l :: l in hub.listeners ==> Connected(acts, l, hub.listeners[l].last, hub.joined[l])
  }

  lemma AllStayConnected(acts: seq<Act>, a: Act, listeners: map<nat, Listener>, joined: map<nat, nat>)
    requires listeners.Keys <= joined.Keys && forall l :: l in listeners ==> Connected(acts, l, listeners[l].last, joined[l])
    ensures forall l :: l in listeners ==> Connected(acts + [a], l, listeners[l].last, joined[l])
  {
    hide Connected;
    forall l | l in listeners ensures Connected(acts + [a], l, listeners[l].last, joined[l]) {
      ConnectedLasts(acts, a, l, listeners[l].last, joined[l]);
    }
  }

  /** One act. A connection that is gone, or not at this point, does nothing. */
  method Step(hub: EventHub, a: Act, ghost past: seq<Act>)
    requires hub.Valid() && Told(past, hub) && (a.Publish? ==> a.kind != HEARTBEAT)
    modifies hub
    ensures hub.Valid() && Told(past + [a], hub)
  {
    hide EventHub.Log, Faithful, Published, Connected, Pipeline, Connects, Open, SameContents;
    PublishedMore(past, a);
    ConnectsMore(past, a);
    OpenMore(past, a);
    AllStayConnected(past, a, hub.listeners, hub.joined);
    match a {
      case Publish(kind, data, now) =>
        ContentsMore(hub.broadcasts, Event(hub.nextEventID + 1, kind, now, data), Published(past));
        hub.Broadcast(kind, data, now);
      case Connect(last) =>
        JoinedNow(past, a);
        SameLength(hub.broadcasts, Published(past));
        var _ := hub.Subscribe(last);
      case ReplayOne(l) =>
        if l in hub.listeners && hub.listeners[l].replay != [] {
          hub.ReplayNext(l);
        }
      case Receive(l) =>
        if l in hub.listeners && hub.listeners[l].replay == [] && hub.listeners[l].channel != [] {
          hub.Deliver(l);
        }
      case Beat(l, now) =>
        if l in hub.listeners && hub.listeners[l].replay == [] {
          hub.Heartbeat(l, now);
        }
      case Leave(l) =>
        if l in hub.listeners {
          hub.Disconnect(l);
        }
    }
  }

  lemma SameLength(broadcasts: seq<Event>, contents: seq<(string, int, string)>)
    requires SameContents(broadcasts, contents)
    ensures |broadcasts| == |contents|
  {
  }

  lemma ContentsMore(broadcasts: seq<Event>, e: Event, contents: seq<(string, int, string)>)
    requires SameContents(broadcasts, contents)
    ensures SameContents(broadcasts + [e], contents + [(e.kind, e.time, e.data)])
  {
  }

  lemma JoinedNow(past: seq<Act>, a: Act)
    requires a.Connect?
    ensures Connected(past + [a], Connects(past), a.last, |Published(past)|)
  {
    hide Published, Connects;
    assert (past + [a])[|past|] == a && (past + [a])[..|past|] == past;
  }

  /** The connection has received, in order and but for heartbeats, a first part of
      the retained events it had not seen when it was made and of every later one; all of it when idle. */
  ghost predicate ServedInOrder(acts: seq<Act>, broadcasts: seq<Event>, number: nat, l: Listener, complete: bool) {
    exists joined: nat :: joined <= |broadcasts| && Connected(acts, number, l.last, joined)
      && var received := WithoutHeartbeats(l.stream);
         && Increasing(received) && (forall e <- received :: e in broadcasts)
         && (complete ==> received <= Owed(broadcasts, joined, l.last))
         && (complete && l.replay == [] && l.channel == [] ==> received == Owed(broadcasts, joined, l.last))
  }

  lemma EveryoneIsServed(hub: EventHub, acts: seq<Act>)
    requires hub.Valid() && Told(acts, hub)
    ensures forall l :: l in hub.listeners ==> ServedInOrder(acts, hub.broadcasts, l, hub.listeners[l], l !in hub.overflowed)
  {
    hide EventHub.Log, Published, Connected, Owed, WithoutHeartbeats, Increasing, SameContents;
    forall l | l in hub.listeners ensures ServedInOrder(acts, hub.broadcasts, l, hub.listeners[l], l !in hub.overflowed) {
      StreamIsFaithful(hub, l);
      assert Connected(acts, l, hub.listeners[l].last, hub.joined[l]);
    }
  }

  method Start() returns (hub: EventHub)
    ensures fresh(hub) && hub.Valid() && Told([], hub)
  {
    hub := new EventHub();
    assert hub.listeners.Keys == {};
  }

  /** After any acts in any order: the hub has broadcast what was published, keeps the
      last 128 events, has a listener for exactly the connections that are still open, and
      has served each of them faithfully from the moment it was made, unless the
      connection's channel was full when an event was offered. */
  method Serve(acts: seq<Act>) returns (hub: EventHub)
    requires NoBeats(acts)
    ensures fresh(hub) && SameContents(hub.broadcasts, Published(acts)) && Increasing(hub.broadcasts)
    ensures hub.events == if |hub.broadcasts| <= 128 then hub.broadcasts else hub.broadcasts[|hub.broadcasts| - 128..]
    ensures hub.listeners.Keys == Open(acts)
    ensures forall l :: l in hub.listeners ==> ServedInOrder(acts, hub.broadcasts, l, hub.listeners[l], l !in hub.overflowed)
  {
    hide Faithful, Published, Connected, Connects, Open, ServedInOrder, Increasing;
    hub := Start();
    var n := 0;
    while n < |acts|
      invariant 0 <= n <= |acts| && fresh(hub) && hub.Valid() && Told(acts[..n], hub)
    {
      assert acts[..n + 1] == acts[..n] + [acts[n]];
      Step(hub, acts[n], acts[..n]);
      n := n + 1;
    }
    assert acts[..n] == acts;
    EveryoneIsServed(hub, acts);
  }
}
