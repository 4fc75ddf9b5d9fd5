/** Collection of expired artifacts: files first, then their rows, a bounded batch per round. */
module ArtifactGc {
  import opened Common

  type Id = string
  type Path = string

  datatype Row = Row(expires: Option<real>, path: Option<string>)

  type Rows = map<Id, Row>

  /** The parts of the world a round does not change: how a stored path resolves (`None` when that raises),
      which resolved paths lie under the artifact root, which of them cannot be unlinked, and which rows the
      database refuses to delete. */
  datatype World = World(resolve: string -> Option<Path>, inside: Path -> bool, stuck: Path -> bool, refused: Id -> bool)

  datatype Result = Ok | MissingFile | Error

  datatype Stats = Stats(deleted: nat, missingFile: nat, errors: nat)

  /** A row without a path, or with an empty one, has no file. */
  predicate NoFile(path: Option<string>) { path.None? || path.value == "" }

  /** `unlink` on this stored path raises something other than `FileNotFoundError`, or is never reached. */
  predicate Unremovable(w: World, path: string) {
    var p := w.resolve(path);
    p.None? || !w.inside(p.value) || w.stuck(p.value)
  }

  /** A round cannot clear this row, whatever is on disk. */
  predicate Fails(w: World, rows: Rows, id: Id)
    requires id in rows
  {
    w.refused(id) || (!NoFile(rows[id].path) && Unremovable(w, rows[id].path.value))
  }

  /** The file that a row keeps on disk and a round can remove. */
  function Target(w: World, path: Option<string>): Option<Path> {
    if NoFile(path) || Unremovable(w, path.value) then None else w.resolve(path.value)
  }

  /** Distinct rows of the table, as every selection is. */
  predicate Listed(rows: Rows, sel: seq<Id>) { Distinct(sel) && forall id :: id in sel ==> id in rows }

  // ---------- what a round over `sel` leaves ----------

  function Collected(w: World, rows: Rows, sel: seq<Id>): set<Id> {
    set id | id in sel && id in rows && !Fails(w, rows, id)
  }

  function Unlinked(w: World, rows: Rows, sel: seq<Id>): set<Path> {
    set id | id in sel && id in rows && Target(w, rows[id].path).Some? :: Target(w, rows[id].path).value
  }

  function ResultAt(w: World, rows: Rows, files: set<Path>, sel: seq<Id>, i: nat): Result
    requires i < |sel| && sel[i] in rows
  {
    var target := Target(w, rows[sel[i]].path);
    if Fails(w, rows, sel[i]) then Error
    else if target.Some? && target.value !in files - Unlinked(w, rows, sel[..i]) then MissingFile
    else Ok
  }

  function Add(s: Stats, r: Result): Stats {
    match r
    case Ok => s.(deleted := s.deleted + 1)
    case MissingFile => s.(missingFile := s.missingFile + 1)
    case Error => s.(errors := s.errors + 1)
  }

  function StatsOf(w: World, rows: Rows, files: set<Path>, sel: seq<Id>): Stats
    requires forall id :: id in sel ==> id in rows
  {
    if sel == [] then Stats(0, 0, 0)
    else Add(StatsOf(w, rows, files, sel[..|sel| - 1]), ResultAt(w, rows, files, sel, |sel| - 1))
  }

  lemma AddCounts(s: Stats, r: Result)
    ensures var s' := Add(s, r);
            && s'.deleted + s'.missingFile + s'.errors == s.deleted + s.missingFile + s.errors + 1
            && s'.deleted + s'.missingFile == s.deleted + s.missingFile + if r == Error then 0 else 1
  {
  }

  /** The three counters account for every selected row; errors are the rows that had to be kept. */
  lemma {:induction false} StatsAccount(w: World, rows: Rows, files: set<Path>, sel: seq<Id>, n: nat)
    requires Listed(rows, sel) && n <= |sel|
    ensures var s := StatsOf(w, rows, files, sel[..n]);
            && s.deleted + s.missingFile + s.errors == n
            && s.deleted + s.missingFile == |Collected(w, rows, sel[..n])|
  {
    if n > 0 {
      StatsAccount(w, rows, files, sel, n - 1);
      Extend(w, rows, files, sel, n - 1);
      AddCounts(StatsOf(w, rows, files, sel[..n - 1]), ResultAt(w, rows, files, sel, n - 1));
      assert ResultAt(w, rows, files, sel, n - 1) == Error <==> Fails(w, rows, sel[n - 1]);
    }
  }

  /** Positions whose row is cleared although its file was not there: never, or no longer after an earlier row
      with the same file. */
  function GoneBefore(w: World, rows: Rows, files: set<Path>, sel: seq<Id>, n: nat): set<nat>
    requires n <= |sel| && Listed(rows, sel)
  {
    set i: nat | i < n && !Fails(w, rows, sel[i]) && IsGone(w, rows, files, sel, i)
  }

  predicate IsGone(w: World, rows: Rows, files: set<Path>, sel: seq<Id>, i: nat)
    requires i < |sel| && Listed(rows, sel)
  {
    var target := Target(w, rows[sel[i]].path);
    target.Some? && (target.value !in files || exists j :: 0 <= j < i && Target(w, rows[sel[j]].path) == target)
  }

  lemma GoneIsMissing(w: World, rows: Rows, files: set<Path>, sel: seq<Id>, i: nat)
    requires i < |sel| && Listed(rows, sel)
    ensures ResultAt(w, rows, files, sel, i) == MissingFile <==> !Fails(w, rows, sel[i]) && IsGone(w, rows, files, sel, i)
  {
    var target := Target(w, rows[sel[i]].path);
    if target.Some? {
      if target.value in Unlinked(w, rows, sel[..i]) {
        var id :| id in sel[..i] && id in rows && Target(w, rows[id].path).Some? && Target(w, rows[id].path).value == target.value;
        var j :| 0 <= j < i && sel[..i][j] == id;
        assert Target(w, rows[sel[j]].path) == target;
      }
      if j :| 0 <= j < i && Target(w, rows[sel[j]].path) == target {
        assert sel[j] in sel[..i];
      }
    }
  }

  /** Which counter a row goes to: errors for rows that are kept, missing files for rows whose file was not there,
      deleted for the others. */
  lemma {:induction false} CountersMean(w: World, rows: Rows, files: set<Path>, sel: seq<Id>, n: nat)
    requires Listed(rows, sel) && n <= |sel|
    ensures StatsOf(w, rows, files, sel[..n]).missingFile == |GoneBefore(w, rows, files, sel, n)|
  {
    if n > 0 {
      CountersMean(w, rows, files, sel, n - 1);
      Extend(w, rows, files, sel, n - 1);
      MissingOne(StatsOf(w, rows, files, sel[..n - 1]), ResultAt(w, rows, files, sel, n - 1));
      GoneIsMissing(w, rows, files, sel, n - 1);
      GoneGrows(w, rows, files, sel, n - 1);
    }
  }

  lemma MissingOne(s: Stats, r: Result)
    ensures Add(s, r).missingFile == s.missingFile + if r == MissingFile then 1 else 0
  {
  }

  lemma GoneGrows(w: World, rows: Rows, files: set<Path>, sel: seq<Id>, n: nat)
    requires n < |sel| && Listed(rows, sel)
    ensures |GoneBefore(w, rows, files, sel, n + 1)| ==
            |GoneBefore(w, rows, files, sel, n)| +
            if !Fails(w, rows, sel[n]) && IsGone(w, rows, files, sel, n) then 1 else 0
  {
    var more: set<nat> := if !Fails(w, rows, sel[n]) && IsGone(w, rows, files, sel, n) then {n} else {};
    assert GoneBefore(w, rows, files, sel, n + 1) == GoneBefore(w, rows, files, sel, n) + more;
  }

  /** Only files below the root that can be removed are ever unlinked. */
  lemma UnlinksInside(w: World, rows: Rows, sel: seq<Id>, p: Path)
    requires p in Unlinked(w, rows, sel)
    ensures w.inside(p) && !w.stuck(p)
    ensures exists id :: id in sel && id in rows && rows[id].path.Some? && w.resolve(rows[id].path.value) == Some(p)
  {
    var id :| id in sel && id in rows && Target(w, rows[id].path).Some? && Target(w, rows[id].path).value == p;
  }

  /** A row is cleared only when it has no file, or when its file lies below the root and is unlinked; a row with
      a path that does not resolve or leads outside the root is kept. */
  lemma ClearedHasNoFile(w: World, rows: Rows, sel: seq<Id>, id: Id)
    requires id in Collected(w, rows, sel)
    ensures rows[id].path == None || rows[id].path == Some("") ||
            (w.resolve(rows[id].path.value).Some? && w.inside(w.resolve(rows[id].path.value).value) &&
             w.resolve(rows[id].path.value).value in Unlinked(w, rows, sel))
  {
    assert Target(w, rows[id].path).Some? ==> Target(w, rows[id].path).value in Unlinked(w, rows, sel);
  }

  /** A row without a path, or with an empty one, is cleared whatever its name would resolve to. */
  lemma NoPathClears(w: World, rows: Rows, sel: seq<Id>, id: Id)
    requires id in sel && id in rows && !w.refused(id) && (rows[id].path == None || rows[id].path == Some(""))
    ensures id in Collected(w, rows, sel)
  {
  }

  /** A row that the database refuses to clear stays as it is; a missing file is no reason to keep a row. */
  lemma RefusedIsKept(w: World, rows: Rows, sel: seq<Id>, id: Id)
    requires id in sel && id in rows
    ensures w.refused(id) ==> id !in Collected(w, rows, sel)
    ensures !w.refused(id) && Target(w, rows[id].path).Some? ==> id in Collected(w, rows, sel)
  {
  }

  // ---------- the selection ----------

  function Expired(rows: Rows, now: real): set<Id> {
    set id | id in rows && rows[id].expires.Some? && rows[id].expires.value <= now
  }

  /** `ORDER BY expires_at LIMIT limit`: earliest first, ties in any order; a negative limit is none. */
  predicate Selects(rows: Rows, now: real, limit: int, sel: seq<Id>) {
    var expired := Expired(rows, now);
    && Distinct(sel)
    && (forall id :: id in sel ==> id in expired)
    && |sel| == (if limit < 0 then |expired| else Min(limit, |expired|))
    && (forall i, j :: 0 <= i < j < |sel| ==> ExpiresAt(rows, sel[i]) <= ExpiresAt(rows, sel[j]))
    && (forall a, b :: a in sel && b in expired && b !in sel ==> ExpiresAt(rows, a) <= ExpiresAt(rows, b))
  }

  /** A row expires at the very moment it names, and never without one. */
  lemma ExpiresOnTime(rows: Rows, id: Id, now: real)
    requires id in rows
    ensures rows[id].expires == Some(now) ==> id in Expired(rows, now) && forall t :: t < now ==> id !in Expired(rows, t)
    ensures rows[id].expires == None ==> id !in Expired(rows, now)
  {
  }

  function ExpiresAt(rows: Rows, id: Id): real {
    if id in rows && rows[id].expires.Some? then rows[id].expires.value else 0.0
  }

  /** `a` may be listed before `b` when ties go to the rows in `favoured`. */
  predicate Ordered(rows: Rows, favoured: set<Id>, a: Id, b: Id) {
    ExpiresAt(rows, a) < ExpiresAt(rows, b) ||
    (ExpiresAt(rows, a) == ExpiresAt(rows, b) && (a in favoured || b !in favoured))
  }

  lemma {:induction false} Earliest(rows: Rows, favoured: set<Id>, ids: set<Id>) returns (first: Id)
    requires ids != {}
    ensures first in ids && forall id :: id in ids ==> Ordered(rows, favoured, first, id)
  {
    first :| first in ids;
    if ids != {first} {
      var other := Earliest(rows, favoured, ids - {first});
      forall id | id in ids
        ensures Ordered(rows, favoured, if Ordered(rows, favoured, first, other) then first else other, id)
      {
        assert id == first || Ordered(rows, favoured, other, id);
      }
      if !Ordered(rows, favoured, first, other) { first := other; }
    }
  }

  lemma {:induction false} Listing(rows: Rows, favoured: set<Id>, ids: set<Id>) returns (s: seq<Id>)
    ensures Distinct(s) && (forall id :: id in s <==> id in ids) && |s| == |ids|
    ensures forall i, j :: 0 <= i < j < |s| ==> Ordered(rows, favoured, s[i], s[j])
  {
    if ids == {} { return []; }
    var first := Earliest(rows, favoured, ids);
    var rest := Listing(rows, favoured, ids - {first});
    s := [first] + rest;
  }

  /** The rows of `favoured` that are listed before `g`. */
  function Ahead(rows: Rows, favoured: set<Id>, g: Id): set<Id> {
    set b | b in favoured && ExpiresAt(rows, b) <= ExpiresAt(rows, g)
  }

  /** Whoever comes first in the listing takes a place in the batch. */
  lemma PlacesTaken(rows: Rows, favoured: set<Id>, all: seq<Id>, k: nat)
    requires Distinct(all) && k < |all| && all[k] !in favoured && forall b :: b in favoured ==> b in all
    requires forall i, j :: 0 <= i < j < |all| ==> Ordered(rows, favoured, all[i], all[j])
    ensures |Ahead(rows, favoured, all[k])| <= k
  {
    var earlier := set id | id in all[..k];
    forall b | b in Ahead(rows, favoured, all[k])
      ensures b in earlier
    {
      var j :| 0 <= j < |all| && all[j] == b;
      assert j < k;
      assert all[..k][j] == b;
    }
    SizeOfDistinct(all[..k]);
    SubsetSize(Ahead(rows, favoured, all[k]), earlier);
  }

  /** Every query has an answer, and one in which ties go to the favoured rows. */
  lemma SelectionExists(rows: Rows, now: real, limit: int, favoured: set<Id>) returns (sel: seq<Id>)
    requires favoured <= Expired(rows, now)
    ensures Selects(rows, now, limit, sel)
    ensures forall g :: 0 <= limit <= |Ahead(rows, favoured, g)| && g !in favoured ==> g !in sel
  {
    var all := Listing(rows, favoured, Expired(rows, now));
    var n := if limit < 0 then |all| else Min(limit, |all|);
    sel := all[..n];
    assert forall j :: 0 <= j < n ==> sel[j] == all[j];
    forall a, b | a in sel && b in all && b !in sel
      ensures ExpiresAt(rows, a) <= ExpiresAt(rows, b)
    {
      var i :| 0 <= i < n && all[i] == a;
      var j :| 0 <= j < |all| && all[j] == b;
      assert j >= n;
      assert Ordered(rows, favoured, all[i], all[j]);
    }
    assert forall i, j :: 0 <= i < j < n ==> Ordered(rows, favoured, all[i], all[j]);
    forall g | 0 <= limit <= |Ahead(rows, favoured, g)| && g !in favoured
      ensures g !in sel
    {
      forall k | 0 <= k < n
        ensures all[k] != g
      {
        if all[k] == g { PlacesTaken(rows, favoured, all, k); }
      }
    }
  }

  function Bad(w: World, rows: Rows, now: real): set<Id> {
    set id | id in Expired(rows, now) && Fails(w, rows, id)
  }

  function Good(w: World, rows: Rows, now: real): set<Id> {
    set id | id in Expired(rows, now) && !Fails(w, rows, id)
  }

  lemma {:induction false} SizeOfDistinct(s: seq<Id>)
    requires Distinct(s)
    ensures |set id | id in s| == |s|
  {
    if s != [] {
      var n := |s| - 1;
      SizeOfDistinct(s[..n]);
      assert s == s[..n] + [s[n]];
      assert (set id | id in s) == (set id | id in s[..n]) + {s[n]};
    }
  }

  lemma {:induction false} CardinalSum<T>(a: set<T>, b: set<T>)
    requires a !! b
    ensures |a + b| == |a| + |b|
  {
  }

  /** What a round does to the two classes of expired rows. */
  lemma RoundSplits(w: World, rows: Rows, now: real, sel: seq<Id>)
    requires forall id :: id in sel ==> id in Expired(rows, now)
    ensures var rows' := rows - Collected(w, rows, sel);
            && Bad(w, rows', now) == Bad(w, rows, now)
            && Good(w, rows', now) == Good(w, rows, now) - Collected(w, rows, sel)
            && Collected(w, rows, sel) <= Good(w, rows, now)
            && (set id | id in sel) <= Bad(w, rows, now) + Collected(w, rows, sel)
            && Expired(rows, now) == Bad(w, rows, now) + Good(w, rows, now)
  {
  }

  /** One round clears at least `limit - E` good rows, or all of them. */
  lemma RoundClears(w: World, rows: Rows, now: real, limit: int, sel: seq<Id>)
    requires Selects(rows, now, limit, sel)
    requires |Bad(w, rows, now)| < limit
    ensures var rows' := rows - Collected(w, rows, sel);
            && Bad(w, rows', now) == Bad(w, rows, now)
            && |Good(w, rows', now)| <= Max(0, |Good(w, rows, now)| - (limit - |Bad(w, rows, now)|))
  {
    RoundSplits(w, rows, now, sel);
    SizeOfDistinct(sel);
    Sizes(Good(w, rows, now), Bad(w, rows, now), Collected(w, rows, sel), set id | id in sel);
  }

  lemma Sizes(good: set<Id>, bad: set<Id>, cleared: set<Id>, picked: set<Id>)
    requires good !! bad && cleared <= good && picked <= bad + cleared
    ensures |good + bad| == |good| + |bad|
    ensures |picked| <= |bad| + |cleared|
    ensures |good - cleared| == |good| - |cleared|
  {
    CardinalSum(good, bad);
    CardinalSum(bad, cleared);
    SubsetSize(picked, bad + cleared);
    CardinalSum(good - cleared, cleared);
    assert good == (good - cleared) + cleared;
  }

  /** Rounds with the same clock value, each over a selection of its own. */
  ghost predicate AreRounds(w: World, rows: Rows, now: real, limit: int, sels: seq<seq<Id>>)
    decreases |sels|
  {
    sels == [] ||
    (Selects(rows, now, limit, sels[0]) && AreRounds(w, rows - Collected(w, rows, sels[0]), now, limit, sels[1..]))
  }

  function AfterRounds(w: World, rows: Rows, sels: seq<seq<Id>>): Rows
    decreases |sels|
  {
    if sels == [] then rows else AfterRounds(w, rows - Collected(w, rows, sels[0]), sels[1..])
  }

  /** With E rows that always fail and a limit above E, after r rounds at most max(0, G - r * (limit - E)) of
      the G other expired rows are left. */
  lemma {:induction false} ProgressBound(w: World, rows: Rows, now: real, limit: int, sels: seq<seq<Id>>)
    requires AreRounds(w, rows, now, limit, sels)
    requires |Bad(w, rows, now)| < limit
    ensures |Good(w, AfterRounds(w, rows, sels), now)| <=
            Max(0, |Good(w, rows, now)| - |sels| * (limit - |Bad(w, rows, now)|))
    ensures Bad(w, AfterRounds(w, rows, sels), now) == Bad(w, rows, now)
    decreases |sels|
  {
    if sels != [] {
      RoundClears(w, rows, now, limit, sels[0]);
      ProgressBound(w, rows - Collected(w, rows, sels[0]), now, limit, sels[1..]);
      OneMore(|sels| - 1, limit - |Bad(w, rows, now)|);
    }
  }

  lemma OneMore(n: int, step: int)
    requires n >= 0 && step > 0
    ensures (n + 1) * step == n * step + step && n * step >= 0
  {
  }

  // ---------- exactly when everything is collected ----------

  /** For every good row, the failing rows that may come before it leave room in the batch. */
  predicate RoomForAll(w: World, rows: Rows, now: real, limit: int) {
    limit < 0 || forall g :: g in Good(w, rows, now) ==> |Ahead(rows, Bad(w, rows, now), g)| < limit
  }

  /** Every batch then holds a good row, while there is one. */
  lemma RoundCollects(w: World, rows: Rows, now: real, limit: int, sel: seq<Id>)
    requires Selects(rows, now, limit, sel) && RoomForAll(w, rows, now, limit) && Good(w, rows, now) != {}
    ensures Collected(w, rows, sel) != {}
  {
    var bad := Bad(w, rows, now);
    var g := Earliest(rows, {}, Good(w, rows, now));
    assert g in sel ==> g in Collected(w, rows, sel);
    if Collected(w, rows, sel) == {} {
      var picked := set id | id in sel;
      SizeOfDistinct(sel);
      SubsetSize(picked, Expired(rows, now) - {g});
      assert |sel| == limit;
      assert picked <= Ahead(rows, bad, g);
      SubsetSize(picked, Ahead(rows, bad, g));
      assert false;
    }
  }

  lemma RoomStays(w: World, rows: Rows, now: real, limit: int, sel: seq<Id>)
    requires Selects(rows, now, limit, sel) && RoomForAll(w, rows, now, limit)
    ensures RoomForAll(w, rows - Collected(w, rows, sel), now, limit)
  {
    var rows' := rows - Collected(w, rows, sel);
    RoundSplits(w, rows, now, sel);
    forall g | limit >= 0 && g in Good(w, rows', now)
      ensures |Ahead(rows', Bad(w, rows', now), g)| < limit
    {
      assert g in Good(w, rows, now);
      AheadStays(w, rows, now, sel, g);
    }
  }

  lemma AheadStays(w: World, rows: Rows, now: real, sel: seq<Id>, g: Id)
    requires forall id :: id in sel ==> id in Expired(rows, now)
    requires g in Good(w, rows - Collected(w, rows, sel), now)
    ensures var rows' := rows - Collected(w, rows, sel);
            Ahead(rows', Bad(w, rows', now), g) == Ahead(rows, Bad(w, rows, now), g)
  {
    RoundSplits(w, rows, now, sel);
    assert forall b :: b in Bad(w, rows, now) ==> b in rows - Collected(w, rows, sel);
  }

  lemma {:induction false} RoundsCollectAll(w: World, rows: Rows, now: real, limit: int, sels: seq<seq<Id>>)
    requires AreRounds(w, rows, now, limit, sels) && RoomForAll(w, rows, now, limit)
    requires |Good(w, rows, now)| <= |sels|
    ensures Good(w, AfterRounds(w, rows, sels), now) == {}
    decreases |sels|
  {
    if sels != [] {
      var rows' := rows - Collected(w, rows, sels[0]);
      RoundSplits(w, rows, now, sels[0]);
      RoomStays(w, rows, now, limit, sels[0]);
      if Good(w, rows, now) != {} {
        RoundCollects(w, rows, now, limit, sels[0]);
        Sizes(Good(w, rows, now), Bad(w, rows, now), Collected(w, rows, sels[0]), {});
      }
      RoundsCollectAll(w, rows', now, limit, sels[1..]);
    }
  }

  /** A good row behind too many failing ones can be passed over in any number of rounds. */
  lemma {:induction false} PassedOver(w: World, rows: Rows, now: real, limit: nat, g: Id, n: nat) returns (sels: seq<seq<Id>>)
    requires g in Good(w, rows, now) && limit <= |Ahead(rows, Bad(w, rows, now), g)|
    ensures |sels| == n && AreRounds(w, rows, now, limit, sels) && g in Good(w, AfterRounds(w, rows, sels), now)
  {
    if n == 0 {
      sels := [];
    } else {
      var sel := SelectionExists(rows, now, limit, Bad(w, rows, now));
      var rows' := rows - Collected(w, rows, sel);
      RoundSplits(w, rows, now, sel);
      assert g in Good(w, rows', now);
      AheadStays(w, rows, now, sel, g);
      var rest := PassedOver(w, rows', now, limit, g, n - 1);
      sels := [sel] + rest;
      assert sels[1..] == rest;
    }
  }

  /** `n` rounds collect every good row, whatever selections the database makes. */
  ghost predicate AlwaysCollected(w: World, rows: Rows, now: real, limit: int, n: nat) {
    forall sels :: |sels| == n && AreRounds(w, rows, now, limit, sels) ==>
      Good(w, AfterRounds(w, rows, sels), now) == {}
  }

  /** As many rounds as there are good rows collect them all, for every choice among ties, exactly when each
      good row has fewer failing rows at or before its expiry than the batch has places; and if they do not,
      no number of rounds does. */
  lemma CollectsAllIff(w: World, rows: Rows, now: real, limit: int, n: nat)
    requires n >= |Good(w, rows, now)|
    ensures AlwaysCollected(w, rows, now, limit, n) <==> RoomForAll(w, rows, now, limit)
  {
    if RoomForAll(w, rows, now, limit) {
      forall sels | |sels| == n && AreRounds(w, rows, now, limit, sels)
        ensures Good(w, AfterRounds(w, rows, sels), now) == {}
      {
        RoundsCollectAll(w, rows, now, limit, sels);
      }
    } else {
      var g :| g in Good(w, rows, now) && |Ahead(rows, Bad(w, rows, now), g)| >= limit;
      var sels := PassedOver(w, rows, now, limit, g, n);
      assert Good(w, AfterRounds(w, rows, sels), now) != {};
    }
  }

  /** With strictly older failing rows the choice among ties does not matter: the row is never collected. */
  lemma {:induction false} Starvation(w: World, rows: Rows, now: real, limit: nat, g: Id, sels: seq<seq<Id>>)
    requires AreRounds(w, rows, now, limit, sels) && g in Good(w, rows, now)
    requires limit <= |Older(rows, Bad(w, rows, now), g)|
    ensures g in Good(w, AfterRounds(w, rows, sels), now)
    decreases |sels|
  {
    if sels != [] {
      var rows' := rows - Collected(w, rows, sels[0]);
      NotInBatch(w, rows, now, limit, g, sels[0]);
      RoundSplits(w, rows, now, sels[0]);
      assert forall b :: b in Bad(w, rows, now) ==> b in rows';
      assert Older(rows', Bad(w, rows, now), g) == Older(rows, Bad(w, rows, now), g);
      Starvation(w, rows', now, limit, g, sels[1..]);
    }
  }

  function Older(rows: Rows, bad: set<Id>, g: Id): set<Id> { set b | b in bad && ExpiresAt(rows, b) < ExpiresAt(rows, g) }

  lemma NotInBatch(w: World, rows: Rows, now: real, limit: nat, g: Id, sel: seq<Id>)
    requires Selects(rows, now, limit, sel) && g in Good(w, rows, now)
    requires limit <= |Older(rows, Bad(w, rows, now), g)|
    ensures g !in sel
  {
    if g in sel {
      var older := Older(rows, Bad(w, rows, now), g);
      var picked := set id | id in sel;
      SizeOfDistinct(sel);
      assert older <= picked - {g} by {
        forall b | b in older
          ensures b in picked - {g}
        {
          assert b in Expired(rows, now);
        }
      }
      SubsetSize(older, picked - {g});
    }
  }

  // ---------- the method ----------

  /** What one selected row leads to, from `rows` and `files`. */
  predicate IsCollectOne(w: World, rows: Rows, files: set<Path>, id: Id, rows': Rows, files': set<Path>, r: Result) {
    && id in rows
    && rows' == rows - (if Fails(w, rows, id) then {} else {id})
    && files' == files - TargetSet(w, rows[id].path)
    && (r == Error <==> Fails(w, rows, id))
    && (r == MissingFile <==> !Fails(w, rows, id) && !(TargetSet(w, rows[id].path) <= files))
  }

  class Collector {
    const world: World
    var rows: Rows
    var files: set<Path>

    constructor (world: World, rows: Rows, files: set<Path>)
      ensures this.world == world && this.rows == rows && this.files == files
    {
      this.world, this.rows, this.files := world, rows, files;
    }

    /** Remove one file below the root. */
    method UnlinkFile(path: Option<string>) returns (r: Result)
      modifies this`files
      ensures r == Error <==> !NoFile(path) && Unremovable(world, path.value)
      ensures Target(world, path).None? ==> files == old(files) && r != MissingFile
      ensures Target(world, path).Some? ==>
                files == old(files) - {Target(world, path).value} &&
                (r == MissingFile <==> Target(world, path).value !in old(files))
    {
      if NoFile(path) {
        return Ok;
      }
      var resolved := world.resolve(path.value);
      if resolved.None? || !world.inside(resolved.value) || world.stuck(resolved.value) {
        return Error;
      }
      if resolved.value !in files {
        return MissingFile;
      }
      files := files - {resolved.value};
      return Ok;
    }

    /** The body of a round for one selected row. */
    method CollectOne(id: Id) returns (r: Result)
      requires id in rows
      modifies this
      ensures IsCollectOne(world, old(rows), old(files), id, rows, files, r)
    {
      r := UnlinkFile(rows[id].path);
      if r == Error || world.refused(id) {
        return Error;
      }
      rows := rows - {id};
    }

    /** One round: exactly the selected rows that can be cleared are deleted, exactly the removable files of
        selected rows are gone, and every deleted row's file is off the disk. */
    method GcRunOnce(sel: seq<Id>) returns (stats: Stats)
      requires Listed(rows, sel)
      modifies this
      ensures rows == old(rows) - Collected(world, old(rows), sel)
      ensures files == old(files) - Unlinked(world, old(rows), sel)
      ensures stats == StatsOf(world, old(rows), old(files), sel)
      ensures stats.deleted + stats.missingFile + stats.errors == |sel|
      ensures stats.deleted + stats.missingFile == |old(rows)| - |rows|
      ensures forall id :: id in old(rows) && id !in rows ==>
                id in sel && TargetSet(world, old(rows)[id].path) !! files
    {
      ghost var was, disk := rows, files;
      stats := Stats(0, 0, 0);
      for i := 0 to |sel|
        invariant rows == was - Collected(world, was, sel[..i])
        invariant files == disk - Unlinked(world, was, sel[..i])
        invariant stats == StatsOf(world, was, disk, sel[..i])
      {
        ghost var rows0, files0 := rows, files;
        StillThere(world, was, sel, i);
        var r := CollectOne(sel[i]);
        RoundStep(world, was, disk, sel, i, rows0, files0, rows, files, r);
        stats := Add(stats, r);
      }
      assert sel[..|sel|] == sel;
      StatsAccount(world, was, disk, sel, |sel|);
      RoundLeaves(world, was, sel);
    }
  }

  /** The removable file of a path, as a set. */
  function TargetSet(w: World, path: Option<string>): set<Path> {
    var target := Target(w, path);
    if target.Some? then {target.value} else {}
  }

  lemma RoundLeaves(w: World, rows: Rows, sel: seq<Id>)
    ensures |rows - Collected(w, rows, sel)| == |rows| - |Collected(w, rows, sel)|
    ensures forall id :: id in Collected(w, rows, sel) ==> TargetSet(w, rows[id].path) <= Unlinked(w, rows, sel)
  {
    var c := Collected(w, rows, sel);
    assert (rows - c).Keys == rows.Keys - c;
    CardinalSum(rows.Keys - c, c);
    assert rows.Keys == (rows.Keys - c) + c;
  }

  lemma Extend(w: World, rows: Rows, files: set<Path>, sel: seq<Id>, i: nat)
    requires i < |sel| && Listed(rows, sel)
    ensures sel[i] !in Collected(w, rows, sel[..i])
    ensures Collected(w, rows, sel[..i + 1]) ==
            Collected(w, rows, sel[..i]) + (if Fails(w, rows, sel[i]) then {} else {sel[i]})
    ensures Unlinked(w, rows, sel[..i + 1]) ==
            Unlinked(w, rows, sel[..i]) + TargetSet(w, rows[sel[i]].path)
    ensures StatsOf(w, rows, files, sel[..i + 1]) ==
            Add(StatsOf(w, rows, files, sel[..i]), ResultAt(w, rows, files, sel, i))
  {
    var next := sel[..i + 1];
    assert next == sel[..i] + [sel[i]];
    assert next[..i] == sel[..i];
  }

  lemma StillThere(w: World, rows: Rows, sel: seq<Id>, i: nat)
    requires i < |sel| && Listed(rows, sel)
    ensures sel[i] in rows - Collected(w, rows, sel[..i])
  {
    Extend(w, rows, {}, sel, i);
  }

  lemma RoundStep(w: World, was: Rows, disk: set<Path>, sel: seq<Id>, i: nat,
                  rows: Rows, files: set<Path>, rows': Rows, files': set<Path>, r: Result)
    requires i < |sel| && Listed(was, sel)
    requires rows == was - Collected(w, was, sel[..i]) && files == disk - Unlinked(w, was, sel[..i])
    requires IsCollectOne(w, rows, files, sel[i], rows', files', r)
    ensures rows' == was - Collected(w, was, sel[..i + 1])
    ensures files' == disk - Unlinked(w, was, sel[..i + 1])
    ensures StatsOf(w, was, disk, sel[..i + 1]) == Add(StatsOf(w, was, disk, sel[..i]), r)
  {
    Extend(w, was, disk, sel, i);
    assert Fails(w, rows, sel[i]) == Fails(w, was, sel[i]);
    assert r == ResultAt(w, was, disk, sel, i);
  }
}
