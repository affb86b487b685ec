/**
 * The sample generator of elm/loadSamples.js (getData): for every simulated
 * cluster and its slave it draws a number of fake queries, marks some of them
 * as idle or vacuum, and sorts them by elapsed time, longest first.
 *
 * Randomness is a parameter: `rand(k)` is the k-th value that Math.random()
 * returns during one call, so a call consumes rand(0), rand(1), ... in the
 * order the source draws them. Numbers are exact reals.
 */
module Generator {
  import opened Decimal

  /** One simulated in-flight query; the always-null canvas_* fields are dropped. */
  datatype Query = Query(elapsed: real, query: string, waiting: bool)

  /** One generation: `startAt` is the batch time, `names` the keys of
      `databases` in insertion order (the order Object.keys lists them). */
  datatype Batch = Batch(startAt: real, names: seq<string>, databases: map<string, seq<Query>>)

  const SelectText := "SELECT blah FROM something"
  const IdleText := "<IDLE> in transaction"
  const VacuumText := "vacuum"

  /** Every value Math.random() can return lies in [0, 1). */
  ghost predicate UnitDraws(rand: nat -> real) {
    forall k: nat :: 0.0 <= rand(k) < 1.0
  }

  // ---------------------------------------------------------------------------
  // Database names

  function ClusterName(i: nat): string {
    "cluster" + NatToString(i)
  }

  function SlaveName(i: nat): string {
    "cluster" + NatToString(i) + "slave"
  }

  /** The keys getData creates for `rows` clusters, in creation order. */
  function ClusterNames(rows: nat): (names: seq<string>)
    ensures |names| == 2 * rows
  {
    if rows == 0 then [] else ClusterNames(rows - 1) + [ClusterName(rows), SlaveName(rows)]
  }

  /** The name created at position a: cluster<i> at 2i - 2, its slave at 2i - 1. */
  function NameAt(a: nat): string {
    if a % 2 == 0 then ClusterName(a / 2 + 1) else SlaveName(a / 2 + 1)
  }

  /** The name at position a of the creation order is NameAt(a). */
  lemma {:induction false} ClusterNamesAt(rows: nat, a: nat)
    requires a < 2 * rows
    ensures ClusterNames(rows)[a] == NameAt(a)
  {
    var prefix := ClusterNames(rows - 1);
    assert ClusterNames(rows) == prefix + [ClusterName(rows), SlaveName(rows)];
    if a < 2 * rows - 2 {
      ClusterNamesAt(rows - 1, a);
    } else {
      assert a / 2 + 1 == rows;
    }
  }

  ghost predicate Distinct(s: seq<string>) {
    forall a, b :: 0 <= a < b < |s| ==> s[a] != s[b]
  }

  /** cluster<i> and cluster<i>slave determine i, and no cluster name is a slave name. */
  lemma NameInjective(i: nat, j: nat)
    ensures ClusterName(i) == ClusterName(j) ==> i == j
    ensures SlaveName(i) == SlaveName(j) ==> i == j
    ensures ClusterName(i) != SlaveName(j)
  {
    var si, sj := NatToString(i), NatToString(j);
    if ClusterName(i) == ClusterName(j) {
      assert si == ClusterName(i)[7..] == ClusterName(j)[7..] == sj;
      NatToStringInjective(i, j);
    }
    if SlaveName(i) == SlaveName(j) {
      assert |si| == |sj|;
      assert si == SlaveName(i)[7..7 + |si|] == SlaveName(j)[7..7 + |sj|] == sj;
      NatToStringInjective(i, j);
    }
    var c, s := ClusterName(i), SlaveName(j);
    assert IsDigit(c[|c| - 1]);
    assert s[|s| - 1] == 'e';
  }

  /** Different positions carry different names. */
  lemma NameAtInjective(a: nat, b: nat)
    requires a != b
    ensures NameAt(a) != NameAt(b)
  {
    var i, j := a / 2 + 1, b / 2 + 1;
    NameInjective(i, j);
    NameInjective(j, i);
  }

  /** The generated keys are pairwise different. */
  lemma ClusterNamesDistinct(rows: nat)
    ensures Distinct(ClusterNames(rows))
  {
    var names := ClusterNames(rows);
    forall a, b | 0 <= a < b < |names| ensures names[a] != names[b] {
      ClusterNamesAt(rows, a);
      ClusterNamesAt(rows, b);
      NameAtInjective(a, b);
    }
  }

  /** A list of pairwise different names has as many members as entries. */
  lemma {:induction false} DistinctCardinality(s: seq<string>)
    requires Distinct(s)
    ensures |set k | k in s| == |s|
  {
    if s != [] {
      var t := s[..|s| - 1];
      assert Distinct(t);
      DistinctCardinality(t);
      assert (set k | k in s) == (set k | k in t) + {s[|s| - 1]};
      assert s[|s| - 1] !in t;
    }
  }

  /** A key is generated exactly when it is cluster<i> or cluster<i>slave for some i in 1..rows. */
  lemma ClusterNamesMembership(rows: nat, key: string)
    ensures key in ClusterNames(rows) <==> exists i :: 1 <= i <= rows && (key == ClusterName(i) || key == SlaveName(i))
  {
  }

  // ---------------------------------------------------------------------------
  // Draws

  /** Number of queries for one database drawn from x in [0, 1): one more than the
      number of tenths below x, the source's Math.floor(x * 10 + 1) (QueryCountIsFloor). */
  function QueryCount(x: real): (r: int)
    ensures 1 <= r <= 10
  {
    TenthsFrom(x, 1)
  }

  /** The least d' in d..10 with x < d' / 10, or 10 when there is none. */
  function TenthsFrom(x: real, d: int): (r: int)
    requires 1 <= d <= 10
    ensures d <= r <= 10
    decreases 10 - d
  {
    if d == 10 || x < d as real / 10.0 then d else TenthsFrom(x, d + 1)
  }

  /** The count agrees with the source's Math.floor(x * 10 + 1). */
  lemma QueryCountIsFloor(x: real)
    requires 0.0 <= x < 1.0
    ensures QueryCount(x) == (x * 10.0 + 1.0).Floor
  {
  }

  /** The text a query ends with: a vacuum draw below 0.1 overrides everything,
      otherwise an idle draw below 0.2 marks it idle. */
  function QueryText(idle: real, vacuum: real): string {
    if vacuum < 0.1 then VacuumText else if idle < 0.2 then IdleText else SelectText
  }

  /** The three texts are told apart by the two markers alone, the vacuum marker
      taking precedence over the idle one. */
  lemma QueryTextCases(idle: real, vacuum: real)
    ensures QueryText(idle, vacuum) == VacuumText <==> vacuum < 0.1
    ensures QueryText(idle, vacuum) == IdleText <==> vacuum >= 0.1 && idle < 0.2
    ensures QueryText(idle, vacuum) == SelectText <==> vacuum >= 0.1 && idle >= 0.2
  {
  }

  /** The query made from four consecutive draws starting at `p`:
      elapsed, waiting, idle marker, vacuum marker. */
  function MakeQuery(rand: nat -> real, p: nat): Query {
    Query(rand(p) * 15.0, QueryText(rand(p + 2), rand(p + 3)), rand(p + 1) < 0.5)
  }

  /** The first n queries generated from draws starting at `p`, in push order. */
  function GenQueries(rand: nat -> real, p: nat, n: nat): (qs: seq<Query>)
    ensures |qs| == n
  {
    if n == 0 then [] else GenQueries(rand, p, n - 1) + [MakeQuery(rand, p + 4 * (n - 1))]
  }

  /** Pushing the next query extends the generated list by one. */
  lemma GenQueriesSnoc(rand: nat -> real, p: nat, n: nat, qs: seq<Query>, q: Query)
    requires qs == GenQueries(rand, p, n) && q == MakeQuery(rand, p + 4 * n)
    ensures qs + [q] == GenQueries(rand, p, n + 1)
  {
  }

  /** Position of the count draw of the j-th database (in key order). */
  function DbStart(rand: nat -> real, j: nat): nat
  {
    if j == 0 then 0 else DbStart(rand, j - 1) + 1 + 4 * QueryCount(rand(DbStart(rand, j - 1)))
  }

  /** The unsorted queries pushed for a database whose count is drawn at position p. */
  function Snapshot(rand: nat -> real, p: nat): seq<Query>
  {
    GenQueries(rand, p + 1, QueryCount(rand(p)))
  }

  // ---------------------------------------------------------------------------
  // Sorting

  /** The comparator of the sort, b.elapsed - a.elapsed: positive when b must come first. */
  function Compare(a: Query, b: Query): real {
    b.elapsed - a.elapsed
  }

  ghost predicate NonIncreasing(s: seq<Query>) {
    forall i, j :: 0 <= i < j < |s| ==> s[i].elapsed >= s[j].elapsed
  }

  /** Exchanges a[j - 1] and a[j]. */
  method Swap(a: array<Query>, j: int)
    requires 0 < j < a.Length
    modifies a
    ensures a[j - 1] == old(a[j]) && a[j] == old(a[j - 1])
    ensures forall k :: 0 <= k < a.Length && k != j - 1 && k != j ==> a[k] == old(a[k])
    ensures multiset(a[..]) == multiset(old(a[..]))
  {
    a[j - 1], a[j] := a[j], a[j - 1];
  }

  /** Moves a[i] left past every shorter-running query, so that a[..i + 1] is sorted. */
  method InsertAt(a: array<Query>, i: int)
    requires 0 <= i < a.Length
    requires NonIncreasing(a[..i])
    modifies a
    ensures NonIncreasing(a[..i + 1])
    ensures forall k :: i < k < a.Length ==> a[k] == old(a[k])
    ensures multiset(a[..]) == multiset(old(a[..]))
  {
    var j := i;
    while j > 0 && Compare(a[j - 1], a[j]) > 0.0
      invariant 0 <= j <= i
      invariant forall p, q :: 0 <= p < q <= i && q != j ==> a[p].elapsed >= a[q].elapsed
      invariant forall k :: i < k < a.Length ==> a[k] == old(a[k])
      invariant multiset(a[..]) == multiset(old(a[..]))
    {
      Swap(a, j);
      j := j - 1;
    }
  }

  /** Sorts in place with the comparator above, longest elapsed first. */
  method SortByElapsed(a: array<Query>)
    modifies a
    ensures NonIncreasing(a[..])
    ensures multiset(a[..]) == multiset(old(a[..]))
  {
    var i := 0;
    while i < a.Length
      invariant 0 <= i <= a.Length
      invariant NonIncreasing(a[..i])
      invariant multiset(a[..]) == multiset(old(a[..]))
    {
      InsertAt(a, i);
      i := i + 1;
    }
    assert a[..a.Length] == a[..];
  }

  /** info.queries.sort(...): the pushed list, sorted in place as an array. */
  method SortQueries(pushed: seq<Query>) returns (queries: seq<Query>)
    ensures NonIncreasing(queries)
    ensures multiset(queries) == multiset(pushed)
  {
    var a := new Query[|pushed|](k requires 0 <= k < |pushed| => pushed[k]);
    assert a[..] == pushed;
    SortByElapsed(a);
    queries := a[..];
  }

  // ---------------------------------------------------------------------------
  // getData

  /** The snapshots of the first n databases in key order: the j-th one is drawn
      right after the draws of the j - 1 before it. */
  ghost function Snapshots(rand: nat -> real, n: nat): seq<seq<Query>> {
    seq(n, t requires 0 <= t < n => Snapshot(rand, DbStart(rand, t)))
  }

  /** `key` holds a longest-first ordering of `want`. */
  ghost predicate HoldsSorted(databases: map<string, seq<Query>>, key: string, want: seq<Query>) {
    && key in databases
    && NonIncreasing(databases[key])
    && multiset(databases[key]) == multiset(want)
  }

  /** The first j keys hold their snapshots. */
  ghost predicate Filled(databases: map<string, seq<Query>>, names: seq<string>, snaps: seq<seq<Query>>, j: nat)
    requires j <= |names| && j <= |snaps|
  {
    forall t :: 0 <= t < j ==> HoldsSorted(databases, names[t], snaps[t])
  }

  /** What one call of getData produces: the batch time, exactly the cluster keys
      in creation order, and under the j-th key the queries drawn for it, sorted
      longest first. */
  ghost predicate Generated(data: Batch, rows: nat, startAt: real, rand: nat -> real)
  {
    && data.startAt == startAt
    && data.names == ClusterNames(rows)
    && (forall k :: k in data.databases <==> k in data.names)
    && Filled(data.databases, data.names, Snapshots(rand, |data.names|), |data.names|)
  }

  /** One query from the four draws at pos..pos + 3: the generic text first, then the
      idle marker, then the vacuum marker, each overwriting the one before. */
  method DrawQuery(rand: nat -> real, pos: nat) returns (q: Query)
    ensures q == MakeQuery(rand, pos)
  {
    q := Query(rand(pos) * 15.0, SelectText, rand(pos + 1) < 0.5);
    if rand(pos + 2) < 0.2 {
      q := q.(query := IdleText);
    }
    if rand(pos + 3) < 0.1 {
      q := q.(query := VacuumText);
    }
  }

  /** The r queries pushed for one database, drawing from position pos on. */
  method DrawQueries(rand: nat -> real, pos: nat, r: nat) returns (queries: seq<Query>)
    ensures queries == GenQueries(rand, pos, r)
  {
    queries := [];
    for i := 0 to r
      invariant queries == GenQueries(rand, pos, i)
    {
      var q := DrawQuery(rand, pos + 4 * i);
      GenQueriesSnoc(rand, pos, i, queries, q);
      queries := queries + [q];
    }
  }

  /** The body of the per-database callback: draw the count at `pos`, push that many
      queries, then sort them longest first. */
  method DrawDatabase(rand: nat -> real, pos: nat) returns (queries: seq<Query>)
    ensures NonIncreasing(queries)
    ensures multiset(queries) == multiset(Snapshot(rand, pos))
  {
    var r := QueryCount(rand(pos));
    var pushed := DrawQueries(rand, pos + 1, r);
    queries := SortQueries(pushed);
  }

  /** The first loop of getData: an empty query list under every cluster key. */
  method CreateDatabases(rows: nat) returns (names: seq<string>, databases: map<string, seq<Query>>)
    ensures names == ClusterNames(rows)
    ensures forall k :: k in databases <==> k in names
    ensures forall k :: k in databases ==> databases[k] == []
  {
    names := [];
    databases := map[];
    for i := 1 to rows + 1
      invariant names == ClusterNames(i - 1)
      invariant forall k :: k in databases <==> k in names
      invariant forall k :: k in databases ==> databases[k] == []
    {
      databases := databases[ClusterName(i) := []];
      databases := databases[SlaveName(i) := []];
      names := names + [ClusterName(i), SlaveName(i)];
    }
  }

  /** The per-database pass of getData: every key, in order, gets its sorted queries. */
  method FillDatabases(names: seq<string>, databases: map<string, seq<Query>>, rand: nat -> real)
    returns (filled: map<string, seq<Query>>)
    requires Distinct(names)
    requires forall k :: k in databases <==> k in names
    requires forall k :: k in databases ==> databases[k] == []
    ensures forall k :: k in filled <==> k in names
    ensures Filled(filled, names, Snapshots(rand, |names|), |names|)
  {
    filled := databases;
    var pos := 0;
    ghost var snaps := Snapshots(rand, |names|);
    for j := 0 to |names|
      invariant pos == DbStart(rand, j)
      invariant forall k :: k in filled <==> k in names
      invariant Filled(filled, names, snaps, j)
      invariant forall t :: j <= t < |names| ==> names[t] in filled && filled[names[t]] == []
    {
      // the queries go onto the key's list, which is still the empty one it was created with
      var drawn := DrawDatabase(rand, pos);
      var queries := filled[names[j]] + drawn;
      assert queries == drawn;
      assert snaps[j] == Snapshot(rand, pos);
      FilledUpdate(filled, names, snaps, j, queries);
      LaterStillEmpty(filled, names, j, queries);
      filled := filled[names[j] := queries];
      pos := pos + 1 + 4 * QueryCount(rand(pos));
    }
  }

  /** Storing the j-th key's sorted snapshot extends Filled by one key and keeps the
      earlier keys, since the keys are pairwise different. */
  lemma FilledUpdate(databases: map<string, seq<Query>>, names: seq<string>, snaps: seq<seq<Query>>, j: nat, qs: seq<Query>)
    requires j < |names| && j < |snaps| && Distinct(names)
    requires Filled(databases, names, snaps, j)
    requires NonIncreasing(qs) && multiset(qs) == multiset(snaps[j])
    ensures Filled(databases[names[j] := qs], names, snaps, j + 1)
  {
  }

  /** Storing the j-th key's list leaves the later keys' lists empty. */
  lemma LaterStillEmpty(databases: map<string, seq<Query>>, names: seq<string>, j: nat, qs: seq<Query>)
    requires j < |names| && Distinct(names)
    requires forall t :: j <= t < |names| ==> names[t] in databases && databases[names[t]] == []
    ensures forall t :: j < t < |names| ==> databases[names[j] := qs][names[t]] == []
  {
  }

  /** getData: the keys in creation order, each filled from the draws in key order;
      the batch time is the caller's clock reading. */
  method GetData(rows: nat, startAt: real, rand: nat -> real) returns (data: Batch)
    ensures Generated(data, rows, startAt, rand)
  {
    var names, databases := CreateDatabases(rows);
    ClusterNamesDistinct(rows);
    databases := FillDatabases(names, databases, rand);
    data := Batch(startAt, names, databases);
  }

  // ---------------------------------------------------------------------------
  // Properties of a generated batch

  /** A batch has exactly 2 * rows keys, cluster<i> and cluster<i>slave for i in 1..rows. */
  lemma GeneratedKeys(data: Batch, rows: nat, startAt: real, rand: nat -> real)
    requires Generated(data, rows, startAt, rand)
    ensures |data.databases| == 2 * rows
    ensures forall key :: key in data.databases <==> exists i :: 1 <= i <= rows && (key == ClusterName(i) || key == SlaveName(i))
  {
    ClusterKeys(data.databases, rows);
  }

  /** GeneratedKeys for any table keyed by exactly the generated names. */
  lemma ClusterKeys(databases: map<string, seq<Query>>, rows: nat)
    requires forall k :: k in databases <==> k in ClusterNames(rows)
    ensures |databases| == 2 * rows
    ensures forall key :: key in databases <==> exists i :: 1 <= i <= rows && (key == ClusterName(i) || key == SlaveName(i))
  {
    assert |databases| == 2 * rows by {
      ClusterNamesDistinct(rows);
      DistinctCardinality(ClusterNames(rows));
      assert databases.Keys == set k | k in ClusterNames(rows);
    }
    forall key ensures key in databases <==> exists i :: 1 <= i <= rows && (key == ClusterName(i) || key == SlaveName(i)) {
      ClusterNamesMembership(rows, key);
    }
  }

  /** The keys do not depend on the clock or the draws: two batches for the same
      number of rows have the same keys in the same order. */
  lemma GeneratedNamesFixed(d1: Batch, d2: Batch, rows: nat, s1: real, s2: real, r1: nat -> real, r2: nat -> real)
    requires Generated(d1, rows, s1, r1) && Generated(d2, rows, s2, r2)
    ensures d1.names == d2.names
    ensures d1.databases.Keys == d2.databases.Keys
  {
  }

  /** A query that can occur: elapsed in [0, 15) and one of the three texts. */
  ghost predicate PlausibleQuery(q: Query) {
    && 0.0 <= q.elapsed < 15.0
    && (q.query == SelectText || q.query == IdleText || q.query == VacuumText)
  }

  /** Draws in [0, 1) make a plausible query. */
  lemma MakeQueryPlausible(rand: nat -> real, d: nat)
    requires UnitDraws(rand)
    ensures PlausibleQuery(MakeQuery(rand, d))
  {
  }

  /** Every query list has 1 to 10 entries, is sorted longest first, and every query
      has an elapsed time in [0, 15) and one of the three texts. */
  lemma GeneratedQueries(data: Batch, rows: nat, startAt: real, rand: nat -> real, key: string)
    requires UnitDraws(rand)
    requires Generated(data, rows, startAt, rand)
    requires key in data.databases
    ensures 1 <= |data.databases[key]| <= 10
    ensures NonIncreasing(data.databases[key])
    ensures forall q :: q in data.databases[key] ==> PlausibleQuery(q)
  {
    FilledQueries(data.databases, data.names, rand, key);
  }

  /** GeneratedQueries for any table filled from the draws. */
  lemma FilledQueries(databases: map<string, seq<Query>>, names: seq<string>, rand: nat -> real, key: string)
    requires UnitDraws(rand)
    requires forall k :: k in databases <==> k in names
    requires Filled(databases, names, Snapshots(rand, |names|), |names|)
    requires key in databases
    ensures 1 <= |databases[key]| <= 10
    ensures NonIncreasing(databases[key])
    ensures forall q :: q in databases[key] ==> PlausibleQuery(q)
  {
    var j :| 0 <= j < |names| && names[j] == key;
    var snap := Snapshot(rand, DbStart(rand, j));
    assert HoldsSorted(databases, key, Snapshots(rand, |names|)[j]);
    SnapshotPlausible(rand, DbStart(rand, j));
    SameElements(databases[key], snap);
  }

  /** A snapshot has 1 to 10 queries, each of them plausible. */
  lemma SnapshotPlausible(rand: nat -> real, p: nat)
    requires UnitDraws(rand)
    ensures 1 <= |Snapshot(rand, p)| <= 10
    ensures forall q :: q in Snapshot(rand, p) ==> PlausibleQuery(q)
  {
    GenQueriesPlausible(rand, p + 1, QueryCount(rand(p)));
  }

  /** Lists with the same multiset have the same length and the same members. */
  lemma SameElements(a: seq<Query>, b: seq<Query>)
    requires multiset(a) == multiset(b)
    ensures |a| == |b|
    ensures forall q :: q in a <==> q in b
  {
    assert |a| == |multiset(a)| == |multiset(b)| == |b|;
    forall q ensures q in a <==> q in b {
      assert q in a <==> q in multiset(a);
      assert q in b <==> q in multiset(b);
    }
  }

  /** Every pushed query is plausible when every draw lies in [0, 1). */
  lemma {:induction false} GenQueriesPlausible(rand: nat -> real, p: nat, n: nat)
    requires UnitDraws(rand)
    ensures forall q :: q in GenQueries(rand, p, n) ==> PlausibleQuery(q)
  {
    if n > 0 {
      GenQueriesPlausible(rand, p, n - 1);
      MakeQueryPlausible(rand, p + 4 * (n - 1));
    }
  }
}
