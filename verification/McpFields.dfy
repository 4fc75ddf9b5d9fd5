/** Field aggregation over tool calls: starts are held until their finish arrives, in a bounded buffer. */
module McpFields {
  import opened Common

  type Id = string
  type Key = (string, string)

  /** `None` stands for an absent or non-string entry of the payload. */
  datatype Event =
    | Started(id: Option<string>, tool: Option<string>, args: set<string>)
    | Finished(id: Option<string>, fields: set<string>)
    | Other

  datatype Pending = Pending(tool: string, args: set<string>)

  datatype Agg = Agg(count: nat, inputs: set<string>, outputs: set<string>)

  const EMPTY := Agg(0, {}, {})

  /** A start and finish that met. */
  datatype Call = Call(tool: string, args: set<string>, fields: set<string>)

  /** `order` is the insertion order of `pending`; `calls` are the processed ids with what was matched. */
  datatype State = State(order: seq<Id>, pending: map<Id, Pending>, calls: map<Id, Call>, aggs: map<Key, Agg>)

  const INITIAL := State([], map[], map[], map[])

  /** `limit` is `max_pending_calls`; `mcp` is the first group of the name pattern. */
  datatype Config = Config(limit: int, mcp: string -> Option<string>)

  predicate Usable(id: Option<string>) { id.Some? && id.value != "" }

  /** The id an event is about, if it is looked at at all. */
  function IdOf(e: Event): Option<Id> {
    match e
    case Started(id, tool, _) => if Usable(id) && tool.Some? then id else None
    case Finished(id, _) => if Usable(id) then id else None
    case Other => None
  }

  function KeyOf(c: Config, tool: string): Option<Key> {
    var m := c.mcp(tool);
    if m.None? then None else Some((m.value, tool))
  }

  // ---------- one event ----------

  predicate Evicts(c: Config, s: State) { |s.order| >= c.limit && |s.order| > 0 }

  function DropFirst(s: State): State
    requires s.order != []
  {
    s.(order := s.order[1..], pending := s.pending - {s.order[0]})
  }

  function Put(s: State, id: Id, p: Pending): State {
    s.(order := if id in s.pending then s.order else s.order + [id], pending := s.pending[id := p])
  }

  function Stash(c: Config, s: State, id: Id, p: Pending): State {
    Put(if Evicts(c, s) then DropFirst(s) else s, id, p)
  }

  function Without(order: seq<Id>, id: Id): seq<Id> {
    if order == [] then []
    else if order[0] == id then order[1..]
    else [order[0]] + Without(order[1..], id)
  }

  function Added(aggs: map<Key, Agg>, key: Key, call: Call): map<Key, Agg> {
    var a := if key in aggs then aggs[key] else EMPTY;
    aggs[key := Agg(a.count + 1, a.inputs + call.args, a.outputs + call.fields)]
  }

  function Finish(c: Config, s: State, id: Id, fields: set<string>): State {
    if id in s.calls || id !in s.pending then s
    else
      var p := s.pending[id];
      var call := Call(p.tool, p.args, fields);
      var key := KeyOf(c, p.tool);
      State(Without(s.order, id), s.pending - {id}, s.calls[id := call],
            if key.Some? then Added(s.aggs, key.value, call) else s.aggs)
  }

  function Step(c: Config, s: State, e: Event): State {
    var id := IdOf(e);
    if id.None? then s
    else if e.Started? then Stash(c, s, id.value, Pending(e.tool.value, e.args))
    else Finish(c, s, id.value, e.fields)
  }

  function Run(c: Config, events: seq<Event>): State {
    if events == [] then INITIAL else Step(c, Run(c, events[..|events| - 1]), events[|events| - 1])
  }

  // ---------- what the aggregates mean ----------

  function Members(c: Config, calls: map<Id, Call>, key: Key): set<Id> {
    set id | id in calls && KeyOf(c, calls[id].tool) == Some(key)
  }

  function Inputs(c: Config, calls: map<Id, Call>, key: Key): set<string> {
    set id, f | id in Members(c, calls, key) && f in calls[id].args :: f
  }

  function Outputs(c: Config, calls: map<Id, Call>, key: Key): set<string> {
    set id, f | id in Members(c, calls, key) && f in calls[id].fields :: f
  }

  /** Counts and unions over the matched calls, key by key. */
  ghost predicate Summarises(c: Config, calls: map<Id, Call>, aggs: map<Key, Agg>) {
    && (forall key :: key in aggs <==> Members(c, calls, key) != {})
    && (forall key :: key in aggs ==>
          aggs[key] == Agg(|Members(c, calls, key)|, Inputs(c, calls, key), Outputs(c, calls, key)))
  }

  function Counts(aggs: map<Key, Agg>): map<Key, nat> { map key | key in aggs :: aggs[key].count }

  /** Processed ids whose tool name matched the pattern. */
  function Matched(c: Config, calls: map<Id, Call>): set<Id> {
    set id | id in calls && KeyOf(c, calls[id].tool).Some?
  }

  ghost predicate BufferOk(c: Config, s: State) {
    && Orders(s.order, s.pending.Keys)
    && |s.order| <= Max(1, c.limit)
  }

  ghost predicate Inv(c: Config, s: State) {
    && BufferOk(c, s)
    && Summarises(c, s.calls, s.aggs)
    && Sum(Counts(s.aggs)) == |Matched(c, s.calls)|
  }

  lemma {:induction false} WithoutRemoves(order: seq<Id>, id: Id)
    requires Distinct(order) && id in order
    ensures Distinct(Without(order, id)) && |Without(order, id)| == |order| - 1
    ensures forall x :: x in Without(order, id) <==> x in order && x != id
  {
    var rest := order[1..];
    assert order == [order[0]] + rest;
    assert order[0] !in rest;
    if order[0] != id {
      WithoutRemoves(rest, id);
      assert order[0] !in Without(rest, id);
    }
  }

  /** The order list names exactly the pending ids, once each. */
  ghost predicate Orders(order: seq<Id>, ids: set<Id>) {
    Distinct(order) && forall id :: id in order <==> id in ids
  }

  lemma DropKeepsOrder(order: seq<Id>, ids: set<Id>)
    requires Orders(order, ids) && order != []
    ensures Orders(order[1..], ids - {order[0]})
  {
    assert order == [order[0]] + order[1..];
  }

  lemma PutKeepsOrder(order: seq<Id>, ids: set<Id>, id: Id)
    requires Orders(order, ids)
    ensures Orders(if id in ids then order else order + [id], ids + {id})
  {
  }

  lemma StashKeepsBuffer(c: Config, s: State, id: Id, p: Pending)
    requires BufferOk(c, s)
    ensures BufferOk(c, Stash(c, s, id, p))
  {
    var s1 := if Evicts(c, s) then DropFirst(s) else s;
    if Evicts(c, s) { DropKeepsOrder(s.order, s.pending.Keys); }
    PutKeepsOrder(s1.order, s1.pending.Keys, id);
    assert Stash(c, s, id, p).pending.Keys == s1.pending.Keys + {id};
  }

  lemma FinishKeepsBuffer(c: Config, s: State, id: Id, fields: set<string>)
    requires BufferOk(c, s)
    ensures BufferOk(c, Finish(c, s, id, fields))
  {
    if id in s.pending && id !in s.calls { WithoutRemoves(s.order, id); }
  }

  lemma NewMember(c: Config, calls: map<Id, Call>, id: Id, call: Call, key: Key)
    requires id !in calls
    ensures Members(c, calls[id := call], key) ==
            Members(c, calls, key) + if KeyOf(c, call.tool) == Some(key) then {id} else {}
  {
  }

  lemma NewInputs(c: Config, calls: map<Id, Call>, id: Id, call: Call, key: Key)
    requires id !in calls
    ensures Inputs(c, calls[id := call], key) ==
            Inputs(c, calls, key) + if KeyOf(c, call.tool) == Some(key) then call.args else {}
  {
    var calls' := calls[id := call];
    NewMember(c, calls, id, call, key);
    forall f
      ensures f in Inputs(c, calls', key) <==>
              f in Inputs(c, calls, key) || (KeyOf(c, call.tool) == Some(key) && f in call.args)
    {
      if KeyOf(c, call.tool) == Some(key) && f in call.args {
        assert id in Members(c, calls', key) && f in calls'[id].args;
      }
      if f in Inputs(c, calls, key) {
        var j :| j in Members(c, calls, key) && f in calls[j].args;
        assert j in Members(c, calls', key) && f in calls'[j].args;
      }
    }
  }

  lemma NewOutputs(c: Config, calls: map<Id, Call>, id: Id, call: Call, key: Key)
    requires id !in calls
    ensures Outputs(c, calls[id := call], key) ==
            Outputs(c, calls, key) + if KeyOf(c, call.tool) == Some(key) then call.fields else {}
  {
    var calls' := calls[id := call];
    NewMember(c, calls, id, call, key);
    forall f
      ensures f in Outputs(c, calls', key) <==>
              f in Outputs(c, calls, key) || (KeyOf(c, call.tool) == Some(key) && f in call.fields)
    {
      if KeyOf(c, call.tool) == Some(key) && f in call.fields {
        assert id in Members(c, calls', key) && f in calls'[id].fields;
      }
      if f in Outputs(c, calls, key) {
        var j :| j in Members(c, calls, key) && f in calls[j].fields;
        assert j in Members(c, calls', key) && f in calls'[j].fields;
      }
    }
  }

  function Entry(c: Config, calls: map<Id, Call>, key: Key): Agg {
    Agg(|Members(c, calls, key)|, Inputs(c, calls, key), Outputs(c, calls, key))
  }

  /** A new matched call changes the entry of its own key and no other. */
  lemma NewCall(c: Config, calls: map<Id, Call>, id: Id, call: Call, key: Key)
    requires id !in calls
    ensures Entry(c, calls[id := call], key) ==
            var a := Entry(c, calls, key);
            if KeyOf(c, call.tool) == Some(key) then Agg(a.count + 1, a.inputs + call.args, a.outputs + call.fields)
            else a
  {
    NewMember(c, calls, id, call, key);
    NewInputs(c, calls, id, call, key);
    NewOutputs(c, calls, id, call, key);
  }

  lemma NoMembers(c: Config, calls: map<Id, Call>, key: Key)
    requires Members(c, calls, key) == {}
    ensures Entry(c, calls, key) == EMPTY
  {
    assert Inputs(c, calls, key) == {} && Outputs(c, calls, key) == {};
  }

  function AggsAfter(c: Config, aggs: map<Key, Agg>, call: Call): map<Key, Agg> {
    var key := KeyOf(c, call.tool);
    if key.Some? then Added(aggs, key.value, call) else aggs
  }

  lemma NewCallSummarised(c: Config, calls: map<Id, Call>, aggs: map<Key, Agg>, id: Id, call: Call)
    requires Summarises(c, calls, aggs) && id !in calls
    ensures Summarises(c, calls[id := call], AggsAfter(c, aggs, call))
  {
    var aggs' := AggsAfter(c, aggs, call);
    forall key
      ensures key in aggs' <==> Members(c, calls[id := call], key) != {}
      ensures key in aggs' ==> aggs'[key] == Entry(c, calls[id := call], key)
    {
      NewMember(c, calls, id, call, key);
      NewCall(c, calls, id, call, key);
      if key !in aggs { NoMembers(c, calls, key); }
    }
  }

  lemma NewMatched(c: Config, calls: map<Id, Call>, id: Id, call: Call)
    requires id !in calls
    ensures |Matched(c, calls[id := call])| == |Matched(c, calls)| + if KeyOf(c, call.tool).Some? then 1 else 0
  {
    var more: set<Id> := if KeyOf(c, call.tool).Some? then {id} else {};
    assert Matched(c, calls[id := call]) == Matched(c, calls) + more;
  }

  lemma NewCallCounted(c: Config, calls: map<Id, Call>, aggs: map<Key, Agg>, id: Id, call: Call)
    requires Sum(Counts(aggs)) == |Matched(c, calls)| && id !in calls
    ensures Sum(Counts(AggsAfter(c, aggs, call))) == |Matched(c, calls[id := call])|
  {
    NewMatched(c, calls, id, call);
    var key := KeyOf(c, call.tool);
    if key.Some? {
      var n := (if key.value in aggs then aggs[key.value].count else 0) + 1;
      assert Counts(AggsAfter(c, aggs, call)) == Counts(aggs)[key.value := n];
      SumUpdate(Counts(aggs), key.value, n);
    }
  }

  lemma StepKeeps(c: Config, s: State, e: Event)
    requires Inv(c, s)
    ensures Inv(c, Step(c, s, e))
  {
    var id := IdOf(e);
    if id.Some? {
      if e.Started? {
        StashKeepsBuffer(c, s, id.value, Pending(e.tool.value, e.args));
      } else {
        FinishKeepsBuffer(c, s, id.value, e.fields);
        if id.value !in s.calls && id.value in s.pending {
          var p := s.pending[id.value];
          var call := Call(p.tool, p.args, e.fields);
          NewCallSummarised(c, s.calls, s.aggs, id.value, call);
          NewCallCounted(c, s.calls, s.aggs, id.value, call);
        }
      }
    }
  }

  /** Over every event sequence, evictions or not: the aggregates are the counts and unions over the matched
      calls, the call counts add up to the processed ids whose tool matched, and the buffer stays bounded. */
  lemma {:induction false} RunKeeps(c: Config, events: seq<Event>)
    ensures var s := Run(c, events);
            && Summarises(c, s.calls, s.aggs)
            && Sum(Counts(s.aggs)) == |Matched(c, s.calls)|
            && BufferOk(c, s)
            && |s.pending| <= Max(1, c.limit)
  {
    if events == [] {
      assert forall key :: Members(c, INITIAL.calls, key) == {};
      assert Counts(INITIAL.aggs) == map[] && Matched(c, INITIAL.calls) == {};
    } else {
      RunKeeps(c, events[..|events| - 1]);
      StepKeeps(c, Run(c, events[..|events| - 1]), events[|events| - 1]);
    }
    SameSize(Run(c, events).order, Run(c, events).pending.Keys);
  }

  /** What the keys and counts of the aggregates are about: a tool, the group that the name pattern finds in it,
      and the calls of that tool. */
  lemma KeysMean(c: Config, events: seq<Event>, group: string, tool: string)
    ensures var s := Run(c, events);
            && ((group, tool) in s.aggs <==> c.mcp(tool) == Some(group) && CallsOf(s.calls, tool) != {})
            && ((group, tool) in s.aggs ==> s.aggs[(group, tool)].count == |CallsOf(s.calls, tool)|)
  {
    RunKeeps(c, events);
    MembersOfTool(c, Run(c, events).calls, group, tool);
  }

  lemma MembersOfTool(c: Config, calls: map<Id, Call>, group: string, tool: string)
    ensures Members(c, calls, (group, tool)) == if c.mcp(tool) == Some(group) then CallsOf(calls, tool) else {}
  {
  }

  /** The processed ids of calls of one tool. */
  function CallsOf(calls: map<Id, Call>, tool: string): set<Id> { set id | id in calls && calls[id].tool == tool }

  lemma {:induction false} SameSize(order: seq<Id>, ids: set<Id>)
    requires Orders(order, ids)
    ensures |ids| == |order|
  {
    if order == [] {
      assert ids == {};
    } else {
      var rest := order[1..];
      assert order == [order[0]] + rest;
      SameSize(rest, ids - {order[0]});
    }
  }

  /** Events without a usable id, and starts without a tool, are ignored. */
  lemma UnusableIgnored(c: Config, s: State, e: Event)
    requires match e
             case Started(id, tool, _) => id == None || id == Some("") || tool == None
             case Finished(id, _) => id == None || id == Some("")
             case Other => true
    ensures Step(c, s, e) == s
  {
  }

  /** Repeating a finish is a no-op. */
  lemma FinishTwice(c: Config, s: State, e: Event, again: Event)
    requires e.Finished? && again.Finished? && again.id == e.id
    ensures Step(c, Step(c, s, e), again) == Step(c, s, e)
  {
  }

  // ---------- which call is forgotten ----------

  /** When each pending call arrived. */
  type Arrivals = map<Id, nat>

  predicate Oldest(m: Arrivals, id: Id) { id in m && forall j :: j in m ==> m[id] <= m[j] }

  lemma {:induction false} OldestExists(m: Arrivals) returns (id: Id)
    requires m != map[]
    ensures Oldest(m, id)
  {
    id :| id in m;
    var first, rest := id, m - {id};
    if rest != map[] {
      var other := OldestExists(rest);
      if m[other] < m[id] { id := other; }
    }
    forall j | j in m
      ensures m[id] <= m[j]
    {
      assert j == first || j in rest;
    }
  }

  /** First in, first out: a start that finds the buffer full drops the call that arrived first; a repeated start
      of a call that is still pending keeps its arrival. */
  ghost function Kept(c: Config, events: seq<Event>): Arrivals {
    if events == [] then map[]
    else
      var before, last := events[..|events| - 1], events[|events| - 1];
      var m := Kept(c, before);
      var id := IdOf(last);
      if id.None? then m
      else if last.Started? then
        var m1 := if |m| >= c.limit && m != map[] then WithoutOldest(m) else m;
        Arrived(m1, id.value, |before|)
      else if id.value in Run(c, before).calls then m
      else m - {id.value}
  }

  ghost function WithoutOldest(m: Arrivals): Arrivals
    requires m != map[]
  {
    SomeOldest(m);
    var id :| Oldest(m, id);
    m - {id}
  }

  lemma SomeOldest(m: Arrivals)
    requires m != map[]
    ensures exists id :: Oldest(m, id)
  {
    var id := OldestExists(m);
  }

  /** The order list is the order of arrival. */
  ghost predicate InArrivalOrder(order: seq<Id>, m: Arrivals, now: nat) {
    && Orders(order, m.Keys)
    && (forall i, j :: 0 <= i < j < |order| ==> m[order[i]] < m[order[j]])
    && (forall id :: id in m ==> m[id] < now)
  }

  lemma DropOldest(order: seq<Id>, m: Arrivals, now: nat)
    requires InArrivalOrder(order, m, now) && m != map[]
    ensures order != [] && InArrivalOrder(order[1..], WithoutOldest(m), now)
    ensures WithoutOldest(m) == m - {order[0]}
  {
    var id :| id in m;
    assert id in order;
    var o := OldestExists(m);
    forall x | Oldest(m, x)
      ensures x == order[0]
    {
      var k :| 0 <= k < |order| && order[k] == x;
      assert m[order[k]] <= m[order[0]];
      assert k == 0;
    }
    DropKeepsOrder(order, m.Keys);
    assert WithoutOldest(m) == m - {order[0]};
    assert (m - {order[0]}).Keys == m.Keys - {order[0]};
  }

  lemma {:induction false} WithoutKeepsArrivals(order: seq<Id>, m: Arrivals, id: Id)
    requires Distinct(order) && id in order && forall x :: x in order ==> x in m
    requires forall i, j :: 0 <= i < j < |order| ==> m[order[i]] < m[order[j]]
    ensures forall x :: x in Without(order, id) ==> x in order
    ensures forall i, j :: 0 <= i < j < |Without(order, id)| ==> m[Without(order, id)[i]] < m[Without(order, id)[j]]
  {
    var rest := order[1..];
    assert order == [order[0]] + rest;
    if order[0] != id {
      WithoutKeepsArrivals(rest, m, id);
      AfterFirst(order, m);
      FirstBefore(order[0], Without(rest, id), m);
    }
  }

  lemma AfterFirst(order: seq<Id>, m: Arrivals)
    requires order != [] && forall x :: x in order ==> x in m
    requires forall i, j :: 0 <= i < j < |order| ==> m[order[i]] < m[order[j]]
    ensures forall x :: x in order[1..] ==> m[order[0]] < m[x]
  {
  }

  lemma FirstBefore(first: Id, rest: seq<Id>, m: Arrivals)
    requires first in m && forall x :: x in rest ==> x in m && m[first] < m[x]
    requires forall i, j :: 0 <= i < j < |rest| ==> m[rest[i]] < m[rest[j]]
    ensures var order := [first] + rest;
            forall i, j :: 0 <= i < j < |order| ==> m[order[i]] < m[order[j]]
  {
  }

  /** The reference buffer is full when the recorder's is. */
  lemma FullAlike(c: Config, s: State, m: Arrivals, now: nat)
    requires InArrivalOrder(s.order, m, now)
    ensures Evicts(c, s) <==> |m| >= c.limit && m != map[]
  {
    SameSize(s.order, m.Keys);
    assert |m| == |s.order|;
  }

  function Arrived(m: Arrivals, id: Id, now: nat): Arrivals { if id in m then m else m[id := now] }

  lemma PutInOrder(order: seq<Id>, m: Arrivals, id: Id, now: nat)
    requires InArrivalOrder(order, m, now)
    ensures InArrivalOrder(if id in m then order else order + [id], Arrived(m, id, now), now + 1)
  {
    PutKeepsOrder(order, m.Keys, id);
    assert Arrived(m, id, now).Keys == m.Keys + {id};
  }

  lemma StashInOrder(c: Config, s: State, id: Id, p: Pending, m: Arrivals, now: nat)
    requires InArrivalOrder(s.order, m, now) && m.Keys == s.pending.Keys
    ensures var m1 := if |m| >= c.limit && m != map[] then WithoutOldest(m) else m;
            && InArrivalOrder(Stash(c, s, id, p).order, Arrived(m1, id, now), now + 1)
            && Arrived(m1, id, now).Keys == Stash(c, s, id, p).pending.Keys
  {
    FullAlike(c, s, m, now);
    if Evicts(c, s) {
      DropOldest(s.order, m, now);
      PutArrives(DropFirst(s), id, p, WithoutOldest(m), now);
    } else {
      PutArrives(s, id, p, m, now);
    }
  }

  lemma PutArrives(s: State, id: Id, p: Pending, m: Arrivals, now: nat)
    requires InArrivalOrder(s.order, m, now) && m.Keys == s.pending.Keys
    ensures InArrivalOrder(Put(s, id, p).order, Arrived(m, id, now), now + 1)
    ensures Arrived(m, id, now).Keys == Put(s, id, p).pending.Keys
  {
    assert id in s.pending <==> id in m;
    PutInOrder(s.order, m, id, now);
    PutKeys(s.pending, m, id, p, now);
  }

  lemma PutKeys(pending: map<Id, Pending>, m: Arrivals, id: Id, p: Pending, now: nat)
    requires m.Keys == pending.Keys
    ensures Arrived(m, id, now).Keys == pending[id := p].Keys
  {
  }

  lemma RemoveInOrder(order: seq<Id>, m: Arrivals, id: Id, now: nat)
    requires InArrivalOrder(order, m, now) && id in m
    ensures InArrivalOrder(Without(order, id), m - {id}, now + 1)
  {
    WithoutRemoves(order, id);
    WithoutKeepsArrivals(order, m, id);
    assert (m - {id}).Keys == m.Keys - {id};
  }

  lemma FinishInOrder(c: Config, s: State, id: Id, fields: set<string>, m: Arrivals, now: nat)
    requires InArrivalOrder(s.order, m, now) && m.Keys == s.pending.Keys
    ensures var m' := if id in s.calls then m else m - {id};
            InArrivalOrder(Finish(c, s, id, fields).order, m', now + 1) && m'.Keys == Finish(c, s, id, fields).pending.Keys
  {
    if id !in s.calls && id in m {
      RemoveInOrder(s.order, m, id, now);
      assert (m - {id}).Keys == (s.pending - {id}).Keys;
    } else if id !in s.calls {
      assert m - {id} == m;
    }
  }

  /** In every run the pending calls are those that the first-in-first-out buffer keeps, in order of arrival. */
  lemma {:induction false} ForgetsOldest(c: Config, events: seq<Event>)
    ensures InArrivalOrder(Run(c, events).order, Kept(c, events), |events|)
    ensures Run(c, events).pending.Keys == Kept(c, events).Keys
  {
    if events != [] {
      var before, last := events[..|events| - 1], events[|events| - 1];
      ForgetsOldest(c, before);
      var s, m := Run(c, before), Kept(c, before);
      var id := IdOf(last);
      if id.Some? {
        if last.Started? {
          StashInOrder(c, s, id.value, Pending(last.tool.value, last.args), m, |before|);
        } else {
          FinishInOrder(c, s, id.value, last.fields, m, |before|);
        }
      }
    }
  }

  // ---------- independence of the order ----------

  /** One id followed on its own, with an unbounded buffer. */
  datatype Lone = Lone(pending: Option<Pending>, call: Option<Call>)

  function LoneStep(l: Lone, e: Event): Lone {
    match e
    case Started(_, tool, args) =>
      if tool.None? then l else l.(pending := Some(Pending(tool.value, args)))
    case Finished(_, fields) =>
      if l.call.Some? || l.pending.None? then l
      else Lone(None, Some(Call(l.pending.value.tool, l.pending.value.args, fields)))
    case Other => l
  }

  function Follow(events: seq<Event>): Lone {
    if events == [] then Lone(None, None) else LoneStep(Follow(events[..|events| - 1]), events[|events| - 1])
  }

  /** The events about one id, in order. */
  function About(events: seq<Event>, id: Id): seq<Event> {
    if events == [] then []
    else
      var last := events[|events| - 1];
      About(events[..|events| - 1], id) + if IdOf(last) == Some(id) then [last] else []
  }

  /** No start arrives while the buffer is full. */
  predicate NeverFull(c: Config, events: seq<Event>) {
    events == [] ||
    (var before := events[..|events| - 1];
     var last := events[|events| - 1];
     NeverFull(c, before) && (last.Started? && IdOf(last).Some? ==> !Evicts(c, Run(c, before))))
  }

  function LoneOf(s: State, id: Id): Lone {
    Lone(if id in s.pending then Some(s.pending[id]) else None, if id in s.calls then Some(s.calls[id]) else None)
  }

  lemma StepFollows(c: Config, s: State, e: Event, id: Id)
    requires e.Started? && IdOf(e).Some? ==> !Evicts(c, s)
    ensures LoneOf(Step(c, s, e), id) == if IdOf(e) == Some(id) then LoneStep(LoneOf(s, id), e) else LoneOf(s, id)
  {
  }

  /** Without eviction the recorder treats every id as if it were alone. */
  lemma {:induction false} Separates(c: Config, events: seq<Event>, id: Id)
    requires NeverFull(c, events)
    ensures LoneOf(Run(c, events), id) == Follow(About(events, id))
  {
    if events != [] {
      var before, last := events[..|events| - 1], events[|events| - 1];
      Separates(c, before, id);
      StepFollows(c, Run(c, before), last, id);
      var mine := About(before, id);
      assert (mine + [last])[..|mine|] == mine && mine + [] == mine;
    }
  }

  // ---------- which calls are counted ----------

  predicate Begins(e: Event, id: Id) { e.Started? && e.id == Some(id) && e.tool.Some? }

  predicate Completes(e: Event, id: Id) { e.Finished? && e.id == Some(id) }

  predicate HasStart(events: seq<Event>, id: Id) { exists i :: 0 <= i < |events| && Begins(events[i], id) }

  /** No finish of this id came after a start. */
  predicate Unpaired(events: seq<Event>, id: Id) {
    forall j :: 0 <= j < |events| && Completes(events[j], id) ==> !HasStart(events[..j], id)
  }

  lemma OneMoreEvent(events: seq<Event>, id: Id)
    requires events != []
    ensures var before, last := events[..|events| - 1], events[|events| - 1];
            && (HasStart(events, id) <==> HasStart(before, id) || Begins(last, id))
            && (Unpaired(events, id) <==> Unpaired(before, id) && !(Completes(last, id) && HasStart(before, id)))
  {
    var n := |events| - 1;
    if HasStart(events[..n], id) {
      var i :| 0 <= i < n && Begins(events[..n][i], id);
      assert Begins(events[i], id);
    }
    forall j | 0 <= j < n
      ensures events[..n][..j] == events[..j]
    {
    }
    assert forall j :: 0 <= j < n ==> events[..n][j] == events[j];
    if Begins(events[n], id) { assert HasStart(events, id); }
  }

  /** Without eviction a call is counted if and only if its finish came after a start of the same non-empty id. */
  lemma {:induction false} CountedIff(c: Config, events: seq<Event>, id: Id)
    requires NeverFull(c, events) && id != ""
    ensures id in Run(c, events).calls <==> !Unpaired(events, id)
    ensures Unpaired(events, id) ==> (id in Run(c, events).pending <==> HasStart(events, id))
  {
    if events != [] {
      var before, last := events[..|events| - 1], events[|events| - 1];
      CountedIff(c, before, id);
      OneMoreEvent(events, id);
      StepCounts(c, Run(c, before), last, id);
    }
  }

  lemma StepCounts(c: Config, s: State, e: Event, id: Id)
    requires (e.Started? && IdOf(e).Some? ==> !Evicts(c, s)) && id != ""
    ensures id in Step(c, s, e).calls <==> id in s.calls || (Completes(e, id) && id in s.pending)
    ensures id in Step(c, s, e).pending <==>
              Begins(e, id) || (id in s.pending && (Completes(e, id) ==> id in s.calls))
    ensures id in s.calls ==> id in Step(c, s, e).calls && Step(c, s, e).calls[id] == s.calls[id]
  {
    StepFollows(c, s, e, id);
    assert LoneOf(Step(c, s, e), id).call.Some? <==> id in Step(c, s, e).calls;
  }

  /** The latest start before the first finish, and that finish. */
  predicate Meet(events: seq<Event>, id: Id, i: nat, j: nat) {
    && i < j < |events| && Begins(events[i], id) && Completes(events[j], id)
    && Unpaired(events[..j], id)
    && forall k :: i < k < j ==> !Begins(events[k], id)
  }

  /** What is counted is the tool and the arguments of that start with the fields of that finish; later starts
      and finishes of the id change nothing. */
  lemma {:induction false} CountedAs(c: Config, events: seq<Event>, id: Id, i: nat, j: nat)
    requires NeverFull(c, events) && id != "" && Meet(events, id, i, j)
    ensures id in Run(c, events).calls
    ensures Run(c, events).calls[id] == Call(events[i].tool.value, events[i].args, events[j].fields)
  {
    var n := |events| - 1;
    var before := events[..n];
    if j < n {
      assert before[..j] == events[..j] && before[i] == events[i] && before[j] == events[j];
      CountedAs(c, before, id, i, j);
      StepCounts(c, Run(c, before), events[n], id);
    } else {
      HeldAs(c, before, id, i);
      CountedIff(c, before, id);
    }
  }

  lemma {:induction false} HeldAs(c: Config, events: seq<Event>, id: Id, i: nat)
    requires NeverFull(c, events) && id != "" && i < |events| && Begins(events[i], id) && Unpaired(events, id)
    requires forall k :: i < k < |events| ==> !Begins(events[k], id)
    ensures id in Run(c, events).pending
    ensures Run(c, events).pending[id] == Pending(events[i].tool.value, events[i].args)
  {
    var n := |events| - 1;
    var before := events[..n];
    StepFollows(c, Run(c, before), events[n], id);
    if i < n {
      OneMoreEvent(events, id);
      assert before[i] == events[i];
      HeldAs(c, before, id, i);
      assert HasStart(before, id);
    }
  }

  lemma SameSummary(c: Config, calls: map<Id, Call>, a: map<Key, Agg>, b: map<Key, Agg>)
    requires Summarises(c, calls, a) && Summarises(c, calls, b)
    ensures a == b
  {
    assert a.Keys == b.Keys;
  }

  /** However the calls of different ids are interleaved, and whatever order they finish in, the aggregates
      are the same. */
  lemma {:induction false} OrderIndependence(c: Config, e1: seq<Event>, e2: seq<Event>)
    requires NeverFull(c, e1) && NeverFull(c, e2)
    requires forall id :: About(e1, id) == About(e2, id)
    ensures Run(c, e1).aggs == Run(c, e2).aggs
    ensures Run(c, e1).calls == Run(c, e2).calls
  {
    var s1, s2 := Run(c, e1), Run(c, e2);
    forall id
      ensures LoneOf(s1, id).call == LoneOf(s2, id).call
    {
      Separates(c, e1, id);
      Separates(c, e2, id);
    }
    assert forall id :: id in s1.calls <==> LoneOf(s1, id).call.Some?;
    assert forall id :: id in s2.calls <==> LoneOf(s2, id).call.Some?;
    assert forall id :: id in s1.calls ==> s1.calls[id] == LoneOf(s1, id).call.value;
    assert s1.calls == s2.calls;
    RunKeeps(c, e1);
    RunKeeps(c, e2);
    SameSummary(c, s1.calls, s1.aggs, s2.aggs);
  }

  /** Fewer distinct ids than places: the buffer is never full. */
  lemma {:induction false} FewIdsNeverFull(c: Config, events: seq<Event>, ids: set<Id>)
    requires forall i :: 0 <= i < |events| && IdOf(events[i]).Some? ==> IdOf(events[i]).value in ids
    requires |ids| < c.limit
    ensures NeverFull(c, events)
    ensures Run(c, events).pending.Keys <= ids
  {
    if events != [] {
      var before, last := events[..|events| - 1], events[|events| - 1];
      FewIdsNeverFull(c, before, ids);
      RunKeeps(c, before);
      RoomLeft(c, Run(c, before), last, ids);
    }
  }

  lemma RoomLeft(c: Config, s: State, e: Event, ids: set<Id>)
    requires BufferOk(c, s) && s.pending.Keys <= ids && |ids| < c.limit
    requires IdOf(e).Some? ==> IdOf(e).value in ids
    ensures !Evicts(c, s) && Step(c, s, e).pending.Keys <= ids
  {
    OrderFits(s.order, s.pending.Keys, ids);
  }

  lemma OrderFits(order: seq<Id>, pending: set<Id>, ids: set<Id>)
    requires Orders(order, pending) && pending <= ids
    ensures |order| <= |ids|
  {
    SameSize(order, pending);
    SubsetSize(pending, ids);
  }

  // ---------- the object ----------

  class McpFieldRecorder {
    const config: Config
    var pendingOrder: seq<Id>
    var pendingCalls: map<Id, Pending>
    var processedCalls: set<Id>
    var aggregates: map<Key, Agg>
    ghost var calls: map<Id, Call>

    ghost function View(): State
      reads this
    {
      State(pendingOrder, pendingCalls, calls, aggregates)
    }

    ghost predicate Valid()
      reads this
    {
      processedCalls == calls.Keys && Inv(config, View())
    }

    constructor (config: Config)
      ensures Valid() && this.config == config && View() == INITIAL
    {
      this.config := config;
      pendingOrder, pendingCalls, processedCalls, aggregates, calls := [], map[], {}, map[], map[];
      new;
      RunKeeps(config, []);
    }

    method OnEvent(e: Event)
      requires Valid()
      modifies this
      ensures Valid() && View() == Step(config, old(View()), e)
    {
      StepKeeps(config, View(), e);
      match e
      case Started(id, tool, args) =>
        if Usable(id) && tool.Some? {
          StashPending(id.value, Pending(tool.value, args));
        }
      case Finished(id, fields) =>
        if Usable(id) {
          AggregateFinished(id.value, fields);
        }
      case Other =>
    }

    method StashPending(id: Id, p: Pending)
      modifies this`pendingOrder, this`pendingCalls
      ensures View() == Stash(config, old(View()), id, p)
    {
      if |pendingOrder| >= config.limit && pendingOrder != [] {
        pendingCalls := pendingCalls - {pendingOrder[0]};
        pendingOrder := pendingOrder[1..];
      }
      if id !in pendingCalls {
        pendingOrder := pendingOrder + [id];
      }
      pendingCalls := pendingCalls[id := p];
    }

    method AggregateFinished(id: Id, fields: set<string>)
      requires processedCalls == calls.Keys
      modifies this
      ensures processedCalls == calls.Keys && View() == Finish(config, old(View()), id, fields)
    {
      if id in processedCalls || id !in pendingCalls {
        return;
      }
      var p := pendingCalls[id];
      pendingOrder := Without(pendingOrder, id);
      pendingCalls := pendingCalls - {id};
      processedCalls := processedCalls + {id};
      calls := calls[id := Call(p.tool, p.args, fields)];
      var m := config.mcp(p.tool);
      if m.None? {
        return;
      }
      var key := (m.value, p.tool);
      var agg := if key in aggregates then aggregates[key] else EMPTY;
      aggregates := aggregates[key := Agg(agg.count + 1, agg.inputs + p.args, agg.outputs + fields)];
    }
  }
}
