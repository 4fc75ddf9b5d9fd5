/** The wakeup buses as mutable objects, tied to the protocol: the registry, its buses and their events show
    the `buses` and the session flags of `StreamProtocol.Sys`. */
module EventBuses {
  import opened EventLog
  import opened StreamProtocol

  /** `asyncio.Event` */
  class AsyncEvent {
    var isSet: bool
    /** The session it belongs to. */
    ghost const owner: nat

    constructor (ghost owner: nat)
      ensures !isSet && this.owner == owner
    {
      isSet := false;
      this.owner := owner;
    }
  }

  function RemoveFirst<T(==)>(s: seq<T>, e: T): seq<T> {
    if s == [] then [] else if s[0] == e then s[1..] else [s[0]] + RemoveFirst(s[1..], e)
  }

  lemma {:induction false} RemoveFirstAt<T>(s: seq<T>, e: T, i: nat)
    requires i < |s| && s[i] == e && e !in s[..i]
    ensures RemoveFirst(s, e) == s[..i] + s[i + 1..]
    decreases i
  {
    if i > 0 {
      assert s[0] == s[..i][0];
      assert s[1..][..i - 1] == s[..i][1..];
      RemoveFirstAt(s[1..], e, i - 1);
    }
  }

  lemma {:induction false} RemoveFirstAbsent<T>(s: seq<T>, e: T)
    requires e !in s
    ensures RemoveFirst(s, e) == s
    decreases |s|
  {
    if s != [] { RemoveFirstAbsent(s[1..], e); }
  }

  class TaskEventBus {
    var subscribers: seq<AsyncEvent>
    ghost const number: nat

    /** Subscribers are distinct objects. */
    ghost predicate Valid()
      reads this
    {
      forall i, j :: 0 <= i < j < |subscribers| ==> subscribers[i] != subscribers[j]
    }

    constructor (ghost number: nat)
      ensures Valid() && subscribers == [] && this.number == number
    {
      subscribers := [];
      this.number := number;
    }

    method Subscribe(ghost owner: nat) returns (ev: AsyncEvent)
      requires Valid()
      modifies this
      ensures Valid() && fresh(ev) && !ev.isSet && ev.owner == owner && subscribers == old(subscribers) + [ev]
    {
      ev := new AsyncEvent(owner);
      subscribers := subscribers + [ev];
    }

    /** Remove the subscriber; unknown ones are ignored. */
    method Unsubscribe(ev: AsyncEvent)
      requires Valid()
      modifies this
      ensures Valid() && subscribers == RemoveFirst(old(subscribers), ev)
      ensures forall e :: e in subscribers <==> e in old(subscribers) && e != ev
    {
      var i := 0;
      while i < |subscribers| && subscribers[i] != ev
        invariant i <= |subscribers| && ev !in subscribers[..i] && subscribers == old(subscribers)
      {
        i := i + 1;
      }
      if i < |subscribers| {
        RemoveFirstAt(subscribers, ev, i);
        subscribers := subscribers[..i] + subscribers[i + 1..];
      } else {
        assert subscribers[..i] == subscribers;
        RemoveFirstAbsent(subscribers, ev);
      }
    }

    /** Wake everybody; nobody else is touched. */
    method Notify()
      modifies subscribers
      ensures forall ev :: ev in subscribers ==> ev.isSet
    {
      for i := 0 to |subscribers|
        invariant forall j :: 0 <= j < i ==> subscribers[j].isSet
      {
        subscribers[i].isSet := true;
      }
    }
  }

  // ----- the registry as a value -----

  /** Bus numbers of the registry, the number of buses ever made, and for each session the bus it joined, its
      flag, and whether it still listens. */
  datatype Wiring = Wiring(numbers: map<TaskId, nat>, made: nat, joined: map<nat, nat>, flags: map<nat, bool>,
                           listening: set<nat>)

  /** The protocol state that the objects are in. */
  predicate Shows(w: Wiring, s: Sys) {
    && w.numbers == s.buses && w.made == s.busCount
    && w.joined.Keys == s.sessions.Keys && w.flags.Keys == s.sessions.Keys
    && forall x :: x in s.sessions ==>
         && s.sessions[x].bus == w.joined[x]
         && s.sessions[x].flag == w.flags[x]
         && (x in w.listening <==> !s.sessions[x].phase.Closed?)
  }

  function NumberOf(w: Wiring, t: TaskId): nat { if t in w.numbers then w.numbers[t] else w.made }

  function WithBus(w: Wiring, t: TaskId): Wiring {
    if t in w.numbers then w else w.(numbers := w.numbers[t := w.made], made := w.made + 1)
  }

  function Joined(w: Wiring, bus: nat, x: nat): Wiring {
    w.(joined := w.joined[x := bus], flags := w.flags[x := false], listening := w.listening + {x})
  }

  function WithSubscriber(w: Wiring, t: TaskId, x: nat): Wiring { Joined(WithBus(w, t), NumberOf(w, t), x) }

  predicate Hears(w: Wiring, t: TaskId, x: nat) {
    t in w.numbers && x in w.listening && x in w.joined && w.joined[x] == w.numbers[t]
  }

  function WithNotify(w: Wiring, t: TaskId): Wiring {
    w.(flags := map x | x in w.flags :: w.flags[x] || Hears(w, t, x))
  }

  lemma SubscribeShows(w: Wiring, s: Sys, t: TaskId, x: nat, cursor: int, closing: bool)
    requires Shows(w, s) && x !in s.sessions
    ensures Shows(WithSubscriber(w, t, x), Subscribe(s, x, t, cursor, closing))
  {
  }

  lemma NotifyShows(w: Wiring, s: Sys, t: TaskId)
    requires Shows(w, s)
    ensures Shows(WithNotify(w, t), s.(sessions := Notified(s, t)))
  {
  }

  lemma DiscardShows(w: Wiring, s: Sys, t: TaskId)
    requires Shows(w, s)
    ensures Shows(w.(numbers := w.numbers - {t}), Do'(s, DiscardBus(t)))
  {
  }

  /** Session `x` ends, in whatever way. */
  lemma UnsubscribeShows(w: Wiring, s: Sys, x: nat, ended: S.Session)
    requires Shows(w, s) && x in s.sessions
    requires ended.phase.Closed? && ended.bus == s.sessions[x].bus && ended.flag == s.sessions[x].flag
    ensures Shows(w.(listening := w.listening - {x}), s.(sessions := s.sessions[x := ended]))
  {
  }

  lemma ClearShows(w: Wiring, s: Sys, x: nat)
    requires Shows(w, s) && Can(s, Server(x, S.Wake))
    ensures Shows(w.(flags := w.flags[x := false]), Do'(s, Server(x, S.Wake)))
  {
  }

  // ----- the registry as an object -----

  class BusRegistry {
    /** The dictionary `_buses`. */
    var buses: map<TaskId, TaskEventBus>
    /** Every bus ever made, by its number. */
    ghost var made: seq<TaskEventBus>
    /** The numbers of the registered buses. */
    ghost var numbers: map<TaskId, nat>
    /** The event of each session, and the number of the bus it joined. */
    ghost var events: map<nat, AsyncEvent>
    ghost var joined: map<nat, nat>
    /** The sessions that still listen. */
    ghost var listening: set<nat>

    ghost predicate Numbered()
      reads this
    {
      && (forall i :: 0 <= i < |made| ==> made[i].number == i)
      && numbers.Keys == buses.Keys
      && (forall t :: t in buses ==> numbers[t] < |made| && made[numbers[t]] == buses[t])
      && events.Keys == joined.Keys
      && (forall x :: x in joined ==> joined[x] < |made|)
      && (forall x :: x in events ==> events[x].owner == x)
    }

    ghost predicate Valid()
      reads this, made
    {
      && Numbered()
      && (forall i :: 0 <= i < |made| ==> made[i].Valid())
      && listening <= events.Keys
      && (forall x :: x in listening ==> events[x] in made[joined[x]].subscribers)
      && (forall i, ev :: 0 <= i < |made| && ev in made[i].subscribers ==> Heard(i, ev))
    }

    /** `ev` is the event of a session that listens to bus `i`. */
    ghost predicate Heard(i: nat, ev: AsyncEvent)
      reads this
    {
      ev.owner in listening && ev.owner in events && events[ev.owner] == ev
      && ev.owner in joined && joined[ev.owner] == i
    }

    ghost function Flags(): map<nat, bool>
      reads this, events.Values
    {
      map x | x in events :: events[x].isSet
    }

    ghost function View(): Wiring
      reads this, events.Values
    {
      Wiring(numbers, |made|, joined, Flags(), listening)
    }

    constructor ()
      ensures Valid() && View() == Wiring(map[], 0, map[], map[], {})
    {
      buses, made, numbers, events, joined, listening := map[], [], map[], map[], map[], {};
    }

    /** The registered bus, or a new one without subscribers. */
    method GetBus(t: TaskId) returns (bus: TaskEventBus)
      requires Valid()
      modifies this
      ensures Valid() && View() == WithBus(old(View()), t)
      ensures t in buses && buses[t] == bus && events == old(events) && bus == made[numbers[t]]
      ensures if t in old(buses) then bus == old(buses)[t] && made == old(made) else fresh(bus) && made == old(made) + [bus]
    {
      if t in buses {
        bus := buses[t];
      } else {
        bus := AddBus(t);
      }
    }

    method AddBus(t: TaskId) returns (bus: TaskEventBus)
      requires Valid() && t !in buses
      modifies this
      ensures Valid() && View() == WithBus(old(View()), t)
      ensures fresh(bus) && buses == old(buses)[t := bus] && events == old(events)
      ensures made == old(made) + [bus] && numbers[t] == |old(made)|
    {
      bus := new TaskEventBus(|made|);
      numbers := numbers[t := |made|];
      made := made + [bus];
      buses := buses[t := bus];
      assert Flags() == old(Flags());
    }

    /** `get_bus` and `subscribe`, as the stream of session `x` opens. */
    method Subscribe(t: TaskId, ghost x: nat) returns (bus: TaskEventBus, ev: AsyncEvent)
      requires Valid() && x !in events
      modifies this, made
      ensures Valid() && View() == WithSubscriber(old(View()), t, x)
      ensures fresh(ev) && events == old(events)[x := ev] && bus == made[joined[x]]
    {
      bus := GetBus(t);
      ev := Join(bus, x);
    }

    /** A new listener on a known bus. */
    method Join(bus: TaskEventBus, ghost x: nat) returns (ev: AsyncEvent)
      requires Valid() && x !in events && bus in made
      modifies this`events, this`joined, this`listening, bus
      ensures Valid() && View() == Joined(old(View()), bus.number, x)
      ensures fresh(ev) && events == old(events)[x := ev]
    {
      ev := Enlist(bus, x);
      assert Flags() == old(Flags())[x := false];
    }

    method Enlist(bus: TaskEventBus, ghost x: nat) returns (ev: AsyncEvent)
      requires Valid() && x !in events && bus in made
      modifies this`events, this`joined, this`listening, bus
      ensures Valid() && fresh(ev) && !ev.isSet && events == old(events)[x := ev]
      ensures joined == old(joined)[x := bus.number] && listening == old(listening) + {x}
    {
      ev := bus.Subscribe(x);
      events := events[x := ev];
      joined := joined[x := bus.number];
      listening := listening + {x};
      assert made[bus.number] == bus && Numbered();
      assert forall i :: 0 <= i < |made| && i != bus.number ==> made[i] != bus;
      forall i, e | 0 <= i < |made| && e in made[i].subscribers
        ensures Heard(i, e)
      {
        assert e == ev || old(Heard(i, e));
      }
      forall y | y in listening
        ensures events[y] in made[joined[y]].subscribers
      {
        assert y == x || old(events[y] in made[joined[y]].subscribers);
      }
    }

    /** Wakes the subscribers of the registered bus and no others, and creates no bus. */
    method Notify(t: TaskId)
      requires Valid()
      modifies if t in buses then (set ev | ev in buses[t].subscribers) else {}
      ensures Valid() && View() == WithNotify(old(View()), t)
    {
      if t in buses {
        buses[t].Notify();
      }
      forall x | x in events
        ensures events[x].isSet == (old(events[x].isSet) || Hears(old(View()), t, x))
      {
        if t in buses && events[x] in buses[t].subscribers { assert Heard(numbers[t], events[x]); }
      }
      assert Flags() == WithNotify(old(View()), t).flags;
    }

    /** Later notifies of `t` no longer reach the bus; its subscribers stay on it, with their flags. */
    method Discard(t: TaskId)
      requires Valid()
      modifies this
      ensures Valid() && View() == old(View()).(numbers := old(View()).numbers - {t})
    {
      buses := buses - {t};
      numbers := numbers - {t};
    }

    /** The stream of session `x` gives up its subscription. */
    method Unsubscribe(bus: TaskEventBus, ev: AsyncEvent, ghost x: nat)
      requires Valid() && x in events && ev == events[x] && bus == made[joined[x]]
      modifies this`listening, bus
      ensures Valid() && View() == old(View()).(listening := old(View()).listening - {x})
    {
      bus.Unsubscribe(ev);
      listening := listening - {x};
    }

    /** The parked session has been woken and clears its flag. */
    method Clear(ev: AsyncEvent, ghost x: nat)
      requires Valid() && x in events && ev == events[x]
      modifies ev
      ensures Valid() && View() == old(View()).(flags := old(View()).flags[x := false])
    {
      ev.isSet := false;
    }
  }
}
