/** The portal's bounded event log with replay and live fan-out to event-stream
    listeners (server-sent events, section 9.2 of the WHATWG HTML Standard). */
module PortalEvents {

  const RETAINED := 128
  const CHANNEL_CAPACITY := 16
  const HEARTBEAT := "heartbeat"

  datatype Event = Event(id: nat, kind: string, time: int, data: string)

  /** One connection: what it must still replay, what is queued for it, and
      every event already written to its stream. */
  datatype Listener = Listener(last: nat, replay: seq<Event>, channel: seq<Event>, stream: seq<Event>)

  function LastN(s: seq<Event>, n: nat): (r: seq<Event>)
    ensures |r| == if |s| < n then |s| else n
  {
    if |s| <= n then s else s[|s| - n..]
  }

  /** The events a reconnecting client has not seen yet. */
  function After(s: seq<Event>, last: nat): seq<Event> {
    if s == [] then [] else (if s[0].id > last then [s[0]] else []) + After(s[1..], last)
  }

  function WithoutHeartbeats(s: seq<Event>): seq<Event> {
    if s == [] then []
    else WithoutHeartbeats(s[..|s| - 1]) + (if s[|s| - 1].kind == HEARTBEAT then [] else [s[|s| - 1]])
  }

  predicate Increasing(s: seq<Event>) {
    forall i, j :: 0 <= i < j < |s| ==> s[i].id < s[j].id
  }

  /** Everything a listener that joined after `joined` broadcasts is owed. */
  function Owed(broadcasts: seq<Event>, joined: nat, last: nat): seq<Event>
    requires joined <= |broadcasts|
  {
    After(LastN(broadcasts[..joined], RETAINED), last) + broadcasts[joined..]
  }

  /** What the listener has received, in order, followed by what it still will. */
  function Pipeline(l: Listener): seq<Event> {
    WithoutHeartbeats(l.stream) + After(l.replay, l.last) + l.channel
  }

  ghost predicate Faithful(l: Listener, broadcasts: seq<Event>, joined: nat, complete: bool) {
    && joined <= |broadcasts|
    && |l.channel| <= CHANNEL_CAPACITY
    && (complete ==> Pipeline(l) == Owed(broadcasts, joined, l.last))
    && Increasing(Pipeline(l))
    && (forall i :: 0 <= i < |Pipeline(l)| ==> Pipeline(l)[i] in broadcasts)
  }

  class EventHub {
    var events: seq<Event>
    var nextEventID: nat
    var listeners: map<nat, Listener>
    var nextListener: nat

    ghost var broadcasts: seq<Event>    // every event ever broadcast
    ghost var joined: map<nat, nat>     // how many of them preceded each subscription
    ghost var overflowed: set<nat>      // listeners whose channel was ever full at a broadcast

    ghost predicate Log()
      reads `events, `broadcasts, `nextEventID
    {
      && events == LastN(broadcasts, RETAINED)
      && Increasing(broadcasts)
      && (forall i :: 0 <= i < |broadcasts| ==> broadcasts[i].id <= nextEventID && broadcasts[i].kind != HEARTBEAT)
    }

    ghost predicate Valid()
      reads this
    {
      && Log()
      && (forall l :: l in listeners ==> l < nextListener)
      && listeners.Keys <= joined.Keys
      && forall l :: l in listeners ==> Faithful(listeners[l], broadcasts, joined[l], l !in overflowed)
    }

    constructor ()
      ensures Valid() && events == [] && broadcasts == [] && listeners == map[] && overflowed == {} && nextListener == 0
    {
      events, nextEventID, listeners, nextListener := [], 0, map[], 0;
      broadcasts, joined, overflowed := [], map[], {};
    }

    /** Appends to the bounded log and offers the event to every listener. */
    method Broadcast(kind: string, data: string, now: int)
      requires Valid() && kind != HEARTBEAT
      modifies this
      ensures Valid()
      ensures broadcasts == old(broadcasts) + [Event(nextEventID, kind, now, data)] && nextEventID == old(nextEventID) + 1
      ensures joined == old(joined) && overflowed == old(overflowed) + Full(old(listeners)) && nextListener == old(nextListener)
      ensures listeners == AllOffered(old(listeners), Event(nextEventID, kind, now, data))
      ensures forall l :: l in old(listeners) ==>
                if |old(listeners)[l].channel| < 16
                then listeners[l] == old(listeners)[l].(channel := old(listeners)[l].channel + [Event(nextEventID, kind, now, data)])
                     && (l in overflowed <==> l in old(overflowed))
                else listeners[l] == old(listeners)[l] && l in overflowed
    {
      hide Log, Faithful, AllOffered, Full;
      var event := Retain(kind, data, now);
      OffersKeepFaith(listeners, old(broadcasts), joined, overflowed, event);
      FanOut(event);
      EveryoneOffered(old(listeners), event);
    }

    /** The next ID, and the bounded log with the event at its end. */
    method Retain(kind: string, data: string, now: int) returns (event: Event)
      requires Log() && kind != HEARTBEAT
      modifies `events, `broadcasts, `nextEventID
      ensures Log() && event == Event(nextEventID, kind, now, data) && nextEventID == old(nextEventID) + 1
      ensures broadcasts == old(broadcasts) + [event] && forall i :: 0 <= i < |old(broadcasts)| ==> old(broadcasts)[i].id < event.id
    {
      hide Increasing;
      nextEventID := nextEventID + 1;
      event := Event(nextEventID, kind, now, data);
      events := events + [event];
      if |events| > RETAINED {
        events := events[|events| - RETAINED..];
      }
      LogGrows(broadcasts, event);
      broadcasts := broadcasts + [event];
    }

    /** Sends to each channel in turn without ever blocking: a full channel misses the event. */
    method FanOut(event: Event)
      requires forall l :: l in listeners ==> |listeners[l].channel| <= CHANNEL_CAPACITY
      modifies this`listeners, this`overflowed
      ensures listeners == AllOffered(old(listeners), event) && overflowed == old(overflowed) + Full(old(listeners))
    {
      hide Offered, AllOffered, Full;
      ghost var before, full := listeners, Full(listeners);
      FullMeans(before, event);
      var waiting := listeners.Keys;
      while waiting != {}
        invariant waiting <= listeners.Keys == before.Keys
        invariant forall l :: l in before ==> listeners[l] == if l in waiting then before[l] else Offered(before[l], event)
        invariant overflowed == old(overflowed) + (full - waiting)
        decreases |waiting|
      {
        var l :| l in waiting;
        OfferedMeans(before[l], event);
        if |listeners[l].channel| < CHANNEL_CAPACITY {
          listeners := listeners[l := listeners[l].(channel := listeners[l].channel + [event])];
        } else {
          overflowed := overflowed + {l};
        }
        waiting := waiting - {l};
      }
    }

    /** Registers a listener and copies the retained log, in one critical section. */
    method Subscribe(last: nat) returns (l: nat)
      requires Valid()
      modifies this
      ensures Valid() && l == old(nextListener) && nextListener == l + 1 && l !in old(listeners)
      ensures listeners == old(listeners)[l := Listener(last, old(events), [], [])]
      ensures joined == old(joined)[l := |old(broadcasts)|] && broadcasts == old(broadcasts)
      ensures overflowed == old(overflowed) - {l} && events == old(events) && nextEventID == old(nextEventID)
    {
      hide Faithful;
      l := nextListener;
      nextListener := nextListener + 1;
      FreshIsFaithful(broadcasts, last);
      listeners := listeners[l := Listener(last, events, [], [])];
      joined := joined[l := |broadcasts|];
      overflowed := overflowed - {l};
    }

    /** Writes the replayed events the client has not seen, one by one. */
    method Replay(l: nat)
      requires Valid() && l in listeners
      modifies this`listeners
      ensures Valid() && listeners.Keys == old(listeners).Keys
      ensures listeners == old(listeners)[l := listeners[l]] && listeners[l].replay == []
      ensures Pipeline(listeners[l]) == Pipeline(old(listeners)[l]) && listeners[l].channel == old(listeners)[l].channel
      ensures listeners[l].last == old(listeners)[l].last
    {
      hide Faithful, WithoutHeartbeats, Log;
      while listeners[l].replay != []
        invariant Valid() && l in listeners && listeners == old(listeners)[l := listeners[l]]
        invariant Pipeline(listeners[l]) == Pipeline(old(listeners)[l]) && listeners[l].channel == old(listeners)[l].channel
        invariant listeners[l].last == old(listeners)[l].last
        decreases |listeners[l].replay|
      {
        ReplayNext(l);
      }
    }

    /** Passes over the next replayed event, or writes it when the client has not seen it. */
    method ReplayNext(l: nat)
      requires Valid() && l in listeners && listeners[l].replay != []
      modifies this`listeners
      ensures Valid() && l in listeners && Pipeline(listeners[l]) == Pipeline(old(listeners)[l])
      ensures var current := old(listeners)[l]; var event := current.replay[0];
              listeners == old(listeners)[l := current.(replay := current.replay[1..],
                                                        stream := if event.id > current.last then current.stream + [event] else current.stream)]
    {
      hide Faithful, WithoutHeartbeats;
      var current := listeners[l];
      var event := current.replay[0];
      var stream := if event.id > current.last then current.stream + [event] else current.stream;
      ReplayStep(current, broadcasts, joined[l], l !in overflowed);
      listeners := listeners[l := current.(replay := current.replay[1..], stream := stream)];
    }

    /** Receives one queued event and writes it. */
    method Deliver(l: nat)
      requires Valid() && l in listeners && listeners[l].replay == [] && listeners[l].channel != []
      modifies this`listeners
      ensures Valid()
      ensures listeners == old(listeners)[l := old(listeners)[l].(channel := old(listeners)[l].channel[1..],
                                               stream := old(listeners)[l].stream + [old(listeners)[l].channel[0]])]
    {
      hide Faithful, WithoutHeartbeats;
      var current := listeners[l];
      DeliverStep(current, broadcasts, joined[l], l !in overflowed);
      listeners := listeners[l := current.(channel := current.channel[1..], stream := current.stream + [current.channel[0]])];
    }

    /** Writes a heartbeat, which takes an event ID but is not retained. */
    method Heartbeat(l: nat, now: int)
      requires Valid() && l in listeners && listeners[l].replay == []
      modifies this`listeners, this`nextEventID
      ensures Valid() && nextEventID == old(nextEventID) + 1
      ensures listeners == old(listeners)[l := old(listeners)[l].(stream := old(listeners)[l].stream + [Event(nextEventID, "heartbeat", now, "")])]
    {
      hide Faithful, WithoutHeartbeats;
      nextEventID := nextEventID + 1;
      var current := listeners[l];
      HeartbeatStep(current, Event(nextEventID, HEARTBEAT, now, ""), broadcasts, joined[l], l !in overflowed);
      listeners := listeners[l := current.(stream := current.stream + [Event(nextEventID, HEARTBEAT, now, "")])];
    }

    method Disconnect(l: nat)
      requires Valid() && l in listeners
      modifies this`listeners
      ensures Valid() && listeners == old(listeners) - {l}
    {
      hide Faithful;
      listeners := listeners - {l};
    }
  }

  function Offered(l: Listener, event: Event): Listener {
    if |l.channel| < CHANNEL_CAPACITY then l.(channel := l.channel + [event]) else l
  }

  function AllOffered(listeners: map<nat, Listener>, event: Event): map<nat, Listener> {
    map l | l in listeners :: Offered(listeners[l], event)
  }

  function Full(listeners: map<nat, Listener>): set<nat> {
    set l | l in listeners && |listeners[l].channel| == CHANNEL_CAPACITY
  }

  /** An offer to every listener keeps faith with each. */
  lemma OffersKeepFaith(listeners: map<nat, Listener>, broadcasts: seq<Event>, joined: map<nat, nat>, overflowed: set<nat>, event: Event)
    requires forall i :: 0 <= i < |broadcasts| ==> broadcasts[i].id < event.id
    requires listeners.Keys <= joined.Keys && forall l :: l in listeners ==> Faithful(listeners[l], broadcasts, joined[l], l !in overflowed)
    ensures AllOffered(listeners, event).Keys == listeners.Keys
    ensures forall l :: l in listeners ==> |listeners[l].channel| <= CHANNEL_CAPACITY
    ensures forall l :: l in listeners ==>
              Faithful(AllOffered(listeners, event)[l], broadcasts + [event], joined[l], l !in overflowed + Full(listeners))
  {
    hide Faithful, Increasing, Pipeline, Owed, Offered;
    forall l | l in listeners
      ensures Faithful(Offered(listeners[l], event), broadcasts + [event], joined[l], l !in overflowed + Full(listeners))
      ensures |listeners[l].channel| <= CHANNEL_CAPACITY
    {
      QueueIsBounded(listeners[l], broadcasts, joined[l], l !in overflowed);
      OfferKeepsFaith(listeners[l], broadcasts, event, joined[l], l !in overflowed);
    }
  }

  lemma OfferedMeans(l: Listener, event: Event)
    ensures Offered(l, event) == if |l.channel| < CHANNEL_CAPACITY then l.(channel := l.channel + [event]) else l
  {
  }

  /** A listener with room among its 16 places gets the event; any other one misses it. */
  lemma EveryoneOffered(listeners: map<nat, Listener>, event: Event)
    requires forall l :: l in listeners ==> |listeners[l].channel| <= CHANNEL_CAPACITY
    ensures forall l :: l in listeners ==> (l in Full(listeners) <==> |listeners[l].channel| >= 16)
    ensures forall l :: l in listeners ==>
              AllOffered(listeners, event)[l] == if |listeners[l].channel| < 16 then listeners[l].(channel := listeners[l].channel + [event]) else listeners[l]
  {
  }

  lemma FullMeans(listeners: map<nat, Listener>, event: Event)
    requires forall l :: l in listeners ==> |listeners[l].channel| <= CHANNEL_CAPACITY
    ensures forall l :: l in Full(listeners) <==> l in listeners && |listeners[l].channel| >= CHANNEL_CAPACITY
    ensures AllOffered(listeners, event).Keys == listeners.Keys && forall l :: l in listeners ==> AllOffered(listeners, event)[l] == Offered(listeners[l], event)
  {
  }

  lemma QueueIsBounded(l: Listener, broadcasts: seq<Event>, joined: nat, complete: bool)
    requires Faithful(l, broadcasts, joined, complete)
    ensures |l.channel| <= CHANNEL_CAPACITY
  {
  }

  lemma LogGrows(broadcasts: seq<Event>, event: Event)
    requires Increasing(broadcasts) && forall i :: 0 <= i < |broadcasts| ==> broadcasts[i].id < event.id
    ensures Increasing(broadcasts + [event])
    ensures var grown := LastN(broadcasts, RETAINED) + [event];
            LastN(broadcasts + [event], RETAINED) == if |grown| > RETAINED then grown[|grown| - RETAINED..] else grown
  {
  }

  lemma OfferKeepsFaith(l: Listener, broadcasts: seq<Event>, event: Event, joined: nat, complete: bool)
    requires Faithful(l, broadcasts, joined, complete)
    requires forall i :: 0 <= i < |broadcasts| ==> broadcasts[i].id < event.id
    ensures Faithful(Offered(l, event), broadcasts + [event], joined, complete && |l.channel| < CHANNEL_CAPACITY)
  {
    hide After, WithoutHeartbeats, LastN;
    var after := broadcasts + [event];
    assert after[..joined] == broadcasts[..joined] && after[joined..] == broadcasts[joined..] + [event];
    var p := Pipeline(l);
    assert forall i :: 0 <= i < |p| ==> p[i] in broadcasts && p[i].id < event.id;
    if |l.channel| < CHANNEL_CAPACITY {
      assert Pipeline(Offered(l, event)) == p + [event];
      if complete { assert Owed(after, joined, l.last) == Owed(broadcasts, joined, l.last) + [event]; }
    }
  }

  lemma {:induction false} AllUnseen(s: seq<Event>, last: nat)
    requires forall i :: 0 <= i < |s| ==> s[i].id > last
    ensures After(s, last) == s
  {
    if s != [] {
      AllUnseen(s[1..], last);
      assert s == [s[0]] + s[1..];
    }
  }

  lemma SeenIsSkipped(s: seq<Event>, last: nat)
    requires s != [] && Increasing(s) && s[0].id <= last
    ensures After(s, last) == After(s[1..], last) && Increasing(s[1..])
  {
  }

  /** In ID order, the unseen events are the last ones. */
  lemma {:induction false} AfterIsSuffix(s: seq<Event>, last: nat) returns (k: nat)
    requires Increasing(s)
    ensures k <= |s| && After(s, last) == s[k..]
    ensures (forall i :: 0 <= i < k ==> s[i].id <= last) && (forall i :: k <= i < |s| ==> s[i].id > last)
  {
    hide After;
    if s == [] || s[0].id > last {
      k := 0;
      AllUnseen(s, last);
    } else {
      hide Increasing;
      var rest := s[1..];
      SeenIsSkipped(s, last);
      var j := AfterIsSuffix(rest, last);
      k := j + 1;
      forall i | 0 <= i < |s| ensures if i < k then s[i].id <= last else s[i].id > last {
        if i > 0 {
          assert s[i] == rest[i - 1];
        }
      }
    }
  }

  lemma AfterIsFiltered(s: seq<Event>, last: nat)
    requires Increasing(s)
    ensures Increasing(After(s, last)) && forall e :: e in After(s, last) <==> e in s && e.id > last
  {
    hide After;
    var k := AfterIsSuffix(s, last);
    var tail := s[k..];
    assert forall i :: 0 <= i < |tail| ==> tail[i] == s[k + i];
    forall e | e in s && e.id > last ensures e in tail {
      var i :| 0 <= i < |s| && s[i] == e;
      assert tail[i - k] == e;
    }
  }

  lemma FreshIsFaithful(broadcasts: seq<Event>, last: nat)
    requires Increasing(broadcasts)
    ensures Faithful(Listener(last, LastN(broadcasts, RETAINED), [], []), broadcasts, |broadcasts|, true)
  {
    hide After;
    var retained := LastN(broadcasts, RETAINED);
    RetainedIncreasing(broadcasts);
    AfterIsFiltered(retained, last);
    var l := Listener(last, retained, [], []);
    assert broadcasts[..|broadcasts|] == broadcasts;
    var unseen := After(retained, last);
    assert Pipeline(l) == unseen;
    assert Owed(broadcasts, |broadcasts|, last) == unseen;
    forall i | 0 <= i < |unseen| ensures unseen[i] in broadcasts { assert unseen[i] in retained; }
  }

  lemma RetainedIncreasing(broadcasts: seq<Event>)
    requires Increasing(broadcasts)
    ensures Increasing(LastN(broadcasts, RETAINED))
    ensures forall e :: e in LastN(broadcasts, RETAINED) ==> e in broadcasts
  {
  }

  lemma StreamSnoc(s: seq<Event>, event: Event)
    ensures WithoutHeartbeats(s + [event]) == WithoutHeartbeats(s) + (if event.kind == HEARTBEAT then [] else [event])
  {
    assert (s + [event])[..|s|] == s;
  }

  lemma ReplayStep(l: Listener, broadcasts: seq<Event>, joined: nat, complete: bool)
    requires Faithful(l, broadcasts, joined, complete) && l.replay != []
    requires forall i :: 0 <= i < |broadcasts| ==> broadcasts[i].kind != HEARTBEAT
    ensures var event := l.replay[0];
            var next := l.(replay := l.replay[1..], stream := if event.id > l.last then l.stream + [event] else l.stream);
            Faithful(next, broadcasts, joined, complete) && Pipeline(next) == Pipeline(l)
  {
    hide WithoutHeartbeats, Increasing, Owed;
    var event := l.replay[0];
    StreamSnoc(l.stream, event);
    var next := l.(replay := l.replay[1..], stream := if event.id > l.last then l.stream + [event] else l.stream);
    if event.id > l.last {
      assert Pipeline(l)[|WithoutHeartbeats(l.stream)|] == event;
      assert event in broadcasts && event.kind != HEARTBEAT;
    }
    assert Pipeline(next) == Pipeline(l);
  }

  lemma DeliverStep(l: Listener, broadcasts: seq<Event>, joined: nat, complete: bool)
    requires Faithful(l, broadcasts, joined, complete) && l.replay == [] && l.channel != []
    requires forall i :: 0 <= i < |broadcasts| ==> broadcasts[i].kind != HEARTBEAT
    ensures var next := l.(channel := l.channel[1..], stream := l.stream + [l.channel[0]]);
            Faithful(next, broadcasts, joined, complete) && Pipeline(next) == Pipeline(l)
  {
    hide WithoutHeartbeats, Increasing, Owed;
    var event := l.channel[0];
    StreamSnoc(l.stream, event);
    assert Pipeline(l)[|WithoutHeartbeats(l.stream)|] == event;
    assert event in broadcasts && event.kind != HEARTBEAT;
    assert Pipeline(l.(channel := l.channel[1..], stream := l.stream + [event])) == Pipeline(l);
  }

  lemma HeartbeatStep(l: Listener, beat: Event, broadcasts: seq<Event>, joined: nat, complete: bool)
    requires Faithful(l, broadcasts, joined, complete) && beat.kind == HEARTBEAT
    ensures var next := l.(stream := l.stream + [beat]);
            Faithful(next, broadcasts, joined, complete) && Pipeline(next) == Pipeline(l)
  {
    hide WithoutHeartbeats, Increasing, Owed;
    StreamSnoc(l.stream, beat);
    assert Pipeline(l.(stream := l.stream + [beat])) == Pipeline(l);
  }

  // ---------------------------------------------------------------- main results

  /** In every state of the hub, what a connected listener has received (heartbeats
      aside) is in strictly increasing ID order and, unless its channel was ever
      full, is an initial part of what it is owed; once idle it is all of it. */
  lemma StreamIsFaithful(hub: EventHub, l: nat)
    requires hub.Valid() && l in hub.listeners
    ensures var listener := hub.listeners[l]; var received := WithoutHeartbeats(listener.stream);
            && Increasing(received)
            && (forall e :: e in received ==> e in hub.broadcasts)
            && (l !in hub.overflowed ==>
                 && received <= Owed(hub.broadcasts, hub.joined[l], listener.last)
                 && (listener.replay == [] && listener.channel == [] ==>
                      received == Owed(hub.broadcasts, hub.joined[l], listener.last)))
  {
    hide WithoutHeartbeats, Owed;
    var listener := hub.listeners[l];
    assert Faithful(listener, hub.broadcasts, hub.joined[l], l !in hub.overflowed);
    var received := WithoutHeartbeats(listener.stream);
    var p := Pipeline(listener);
    assert p == received + After(listener.replay, listener.last) + listener.channel;
    assert forall i :: 0 <= i < |received| ==> received[i] == p[i];
    if listener.replay == [] && listener.channel == [] { assert p == received; }
  }

  /** What is owed: the unseen part of the last 128 events, then every later one, in ID order. */
  lemma OwedIsExact(broadcasts: seq<Event>, joined: nat, last: nat)
    requires joined <= |broadcasts| && Increasing(broadcasts)
    ensures Increasing(Owed(broadcasts, joined, last))
    ensures forall i :: 0 <= i < |broadcasts| ==>
      (broadcasts[i] in Owed(broadcasts, joined, last) <==> i >= joined || (i >= joined - 128 && broadcasts[i].id > last))
  {
    hide After, Increasing, LastN;
    var retained := LastN(broadcasts[..joined], RETAINED);
    var from := joined - |retained|;
    RetainedSlice(broadcasts, joined);
    AfterIsFiltered(retained, last);
    var unseen := After(retained, last);
    forall e | e in unseen ensures e in broadcasts[from..joined] { }
    Appended(broadcasts, from, joined, unseen);
    forall i | 0 <= i < |broadcasts|
      ensures broadcasts[i] in Owed(broadcasts, joined, last) <==> i >= joined || (i >= joined - RETAINED && broadcasts[i].id > last)
    {
      MemberIndex(broadcasts, from, joined, i);
    }
  }

  lemma RetainedSlice(broadcasts: seq<Event>, joined: nat)
    requires joined <= |broadcasts| && Increasing(broadcasts)
    ensures var retained := LastN(broadcasts[..joined], RETAINED);
            Increasing(retained) && retained == broadcasts[joined - |retained|..joined]
  {
  }

  lemma Appended(s: seq<Event>, from: nat, upTo: nat, unseen: seq<Event>)
    requires from <= upTo <= |s| && Increasing(s) && Increasing(unseen)
    requires forall e :: e in unseen ==> e in s[from..upTo]
    ensures Increasing(unseen + s[upTo..])
  {
    forall i, j | 0 <= i < |unseen| && upTo <= j < |s| ensures unseen[i].id < s[j].id {
      assert unseen[i] in s[from..upTo];
      var k :| 0 <= k < upTo - from && s[from..upTo][k] == unseen[i];
    }
  }

  /** With increasing IDs an event sits in a slice exactly when its index does. */
  lemma MemberIndex(s: seq<Event>, from: nat, upTo: nat, i: nat)
    requires Increasing(s) && from <= upTo <= |s| && i < |s|
    ensures s[i] in s[from..upTo] <==> from <= i < upTo
    ensures s[i] in s[upTo..] <==> upTo <= i
  {
    if from <= i < upTo { assert s[from..upTo][i - from] == s[i]; }
    if upTo <= i { assert s[upTo..][i - upTo] == s[i]; }
  }
}
