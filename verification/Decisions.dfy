/** The decisions table: rows that leave `pending` by compare-and-set updates. */
module Decisions {
  import opened Common

  type DecisionId = string

  datatype Choice = Approve | Reject | Revise | Abort

  datatype Status = Pending | Resolved | TimedOut

  datatype Row = Row(status: Status, choice: Option<Choice>, key: Option<string>)

  type Table = map<DecisionId, Row>

  datatype Op =
    | Insert(id: DecisionId)
    | Resolve(id: DecisionId, choice: Choice, key: Option<string>)
    | Expire(id: DecisionId)

  datatype Outcome = Changed | Unchanged | UniqueViolation

  /** `COALESCE(a, b)` */
  function Coalesce(a: Option<string>, b: Option<string>): Option<string> { if a.Some? then a else b }

  /** Another row already carries this idempotency key. */
  predicate KeyTaken(t: Table, id: DecisionId, key: Option<string>) {
    key.Some? && exists other :: other in t && other != id && t[other].key == key
  }

  /** One statement against the table. */
  function Apply(t: Table, op: Op): (r: (Table, Outcome)) {
    match op
    case Insert(id) =>
      if id in t then (t, Unchanged) else (t[id := Row(Pending, None, None)], Unchanged)
    case Resolve(id, choice, key) =>
      if id !in t || t[id].status != Pending then (t, Unchanged)
      else
        var key' := Coalesce(t[id].key, key);
        if KeyTaken(t, id, key') then (t, UniqueViolation) else (t[id := Row(Resolved, Some(choice), key')], Changed)
    case Expire(id) =>
      if id !in t || t[id].status != Pending then (t, Unchanged)
      else (t[id := t[id].(status := TimedOut)], Changed)
  }

  function Run(t: Table, ops: seq<Op>): Table
    decreases |ops|
  {
    if ops == [] then t else Run(Apply(t, ops[0]).0, ops[1..])
  }

  /** Calls on `id` that reported success, out of `ops` run from `t`. */
  function Wins(t: Table, ops: seq<Op>, id: DecisionId): nat
    decreases |ops|
  {
    if ops == [] then 0
    else
      var (t', outcome) := Apply(t, ops[0]);
      (if outcome == Changed && ops[0].id == id then 1 else 0) + Wins(t', ops[1..], id)
  }

  predicate Open(t: Table, id: DecisionId) { id !in t || t[id].status == Pending }

  /** Keys are unique over all rows, and a pending row has no key and no choice. */
  ghost predicate Inv(t: Table) {
    && (forall a, b :: a in t && b in t && a != b && t[a].key.Some? ==> t[a].key != t[b].key)
    && (forall a :: a in t ==> (t[a].status == Resolved <==> t[a].choice.Some?))
    && (forall a :: a in t && t[a].status == Pending ==> t[a].key == None)
  }

  lemma ApplyKeepsInv(t: Table, op: Op)
    requires Inv(t)
    ensures Inv(Apply(t, op).0)
  {
  }

  /** A row that has left `pending` never changes again. */
  lemma {:induction false} ClosedRowIsFinal(t: Table, ops: seq<Op>, id: DecisionId)
    requires !Open(t, id)
    ensures id in Run(t, ops) && Run(t, ops)[id] == t[id] && Wins(t, ops, id) == 0
    decreases |ops|
  {
    if ops != [] { ClosedRowIsFinal(Apply(t, ops[0]).0, ops[1..], id); }
  }

  /** A call that reported success decided the row for good: a resolve left exactly its own choice and key,
      an expiry left no choice. */
  lemma WinnerStands(t: Table, op: Op, ops: seq<Op>)
    requires Inv(t) && Apply(t, op).1 == Changed
    ensures op.id in t && t[op.id].status == Pending
    ensures var t' := Run(Apply(t, op).0, ops);
            && op.id in t'
            && (op.Resolve? ==> t'[op.id] == Row(Resolved, Some(op.choice), op.key))
            && (op.Expire? ==> t'[op.id] == Row(TimedOut, None, None))
  {
    ClosedRowIsFinal(Apply(t, op).0, ops, op.id);
  }

  /** Whatever the interleaving of resolve and expire calls, at most one of them succeeds on a row,
      and exactly one when the row is no longer pending. */
  lemma {:induction false} OneWinner(t: Table, ops: seq<Op>, id: DecisionId)
    requires Open(t, id)
    ensures Wins(t, ops, id) == if Open(Run(t, ops), id) then 0 else 1
    decreases |ops|
  {
    if ops != [] {
      var t' := Apply(t, ops[0]).0;
      if Open(t', id) {
        OneWinner(t', ops[1..], id);
      } else {
        ClosedRowIsFinal(t', ops[1..], id);
      }
    }
  }

  lemma {:induction false} KeysStayUnique(t: Table, ops: seq<Op>)
    requires Inv(t)
    ensures Inv(Run(t, ops))
    decreases |ops|
  {
    if ops != [] {
      ApplyKeepsInv(t, ops[0]);
      KeysStayUnique(Apply(t, ops[0]).0, ops[1..]);
    }
  }

  /** A statement raises exactly when it resolves a pending row with a key that another row carries;
      the repeated key is not ignored, and the row stays pending. */
  lemma RepeatedKeyRaises(t: Table, op: Op)
    requires Inv(t)
    ensures Apply(t, op).1 == UniqueViolation <==>
              op.Resolve? && op.id in t && t[op.id].status == Pending && op.key.Some? && op.id !in KeyHolders(t, op.key)
              && KeyHolders(t, op.key) != {}
    ensures Apply(t, op).1 == UniqueViolation ==> Apply(t, op).0 == t
  {
    if op.Resolve? && op.id in t && t[op.id].status == Pending {
      assert Coalesce(t[op.id].key, op.key) == op.key;
      if KeyTaken(t, op.id, op.key) {
        var other :| other in t && other != op.id && t[other].key == op.key;
        assert other in KeyHolders(t, op.key);
      }
      if op.key.Some? && KeyHolders(t, op.key) != {} {
        var other :| other in KeyHolders(t, op.key);
        assert other in t && other != op.id && t[other].key == op.key;
      }
    }
  }

  /** The rows that carry a key. */
  function KeyHolders(t: Table, key: Option<string>): set<DecisionId> { set id | id in t && t[id].key == key }

  /** Nothing but row `id` differs, and no other row comes or goes. */
  predicate OnlyRow(t: Table, t': Table, id: DecisionId) { t'.Keys == t.Keys && forall a :: a in t && a != id ==> t'[a] == t[a] }

  /** A resolve is accepted exactly when the row is pending and its key, if any, is not in use; the row then
      holds the answer and the key, and no other row is touched. */
  lemma ResolveIff(t: Table, id: DecisionId, choice: Choice, key: Option<string>)
    requires Inv(t)
    ensures var (t', outcome) := Apply(t, Resolve(id, choice, key));
            && (outcome == Changed <==>
                  id in t && t[id].status == Pending && (key == None || KeyHolders(t, key) == {}))
            && (outcome == Changed ==> OnlyRow(t, t', id) && t'[id] == Row(Resolved, Some(choice), key))
            && (outcome != Changed ==> t' == t)
  {
    RepeatedKeyRaises(t, Resolve(id, choice, key));
    if id in t && t[id].status == Pending && KeyTaken(t, id, key) {
      var other :| other in t && other != id && t[other].key == key;
      assert other in KeyHolders(t, key);
    }
  }

  /** An expiry reports success exactly when the row is pending, which is then timed out without an answer. */
  lemma ExpireIff(t: Table, id: DecisionId)
    requires Inv(t)
    ensures var (t', outcome) := Apply(t, Expire(id));
            && (outcome == Changed <==> id in t && t[id].status == Pending)
            && (outcome == Changed ==> OnlyRow(t, t', id) && t'[id] == Row(TimedOut, None, None))
            && (outcome != Changed ==> outcome == Unchanged && t' == t)
  {
  }

  /** An insert adds a pending row under a new id and never disturbs an existing one. */
  lemma InsertAdds(t: Table, id: DecisionId)
    ensures var (t', outcome) := Apply(t, Insert(id));
            && t'.Keys == t.Keys + {id} && (forall a :: a in t ==> t'[a] == t[a])
            && (id !in t ==> t'[id] == Row(Pending, None, None))
            && outcome == Unchanged
  {
  }

  class DecisionTable {
    var rows: Table

    constructor ()
      ensures rows == map[] && Inv(rows)
    {
      rows := map[];
    }

    method InsertDecision(id: DecisionId)
      modifies this
      ensures rows == Apply(old(rows), Insert(id)).0
    {
      if id !in rows {
        rows := rows[id := Row(Pending, None, None)];
      }
    }

    method ResolveDecision(id: DecisionId, choice: Choice, key: Option<string>) returns (outcome: Outcome)
      modifies this
      ensures (rows, outcome) == Apply(old(rows), Resolve(id, choice, key))
    {
      if id !in rows || rows[id].status != Pending {
        return Unchanged;
      }
      var key' := Coalesce(rows[id].key, key);
      var taken := HasKey(id, key');
      if taken {
        return UniqueViolation;
      }
      rows := rows[id := Row(Resolved, Some(choice), key')];
      outcome := Changed;
    }

    /** The unique index on non-null keys. */
    method HasKey(id: DecisionId, key: Option<string>) returns (taken: bool)
      ensures taken == KeyTaken(rows, id, key)
    {
      taken := key.Some? && exists other :: other in rows && other != id && rows[other].key == key;
    }

    method ExpireDecision(id: DecisionId) returns (updated: bool)
      modifies this
      ensures (rows, if updated then Changed else Unchanged) == Apply(old(rows), Expire(id))
    {
      updated := id in rows && rows[id].status == Pending;
      if updated {
        rows := rows[id := rows[id].(status := TimedOut)];
      }
    }

    /** The answer of a resolved decision, if there is one. */
    method GetResolvedDecision(id: DecisionId) returns (answer: Option<Choice>)
      requires Inv(rows)
      ensures answer.Some? <==> id in rows && rows[id].status == Resolved
      ensures answer.Some? ==> rows[id].choice == answer
    {
      answer := if id in rows && rows[id].status == Resolved then rows[id].choice else None;
    }
  }
}
