// The list operations the handlers apply to reply records: `filter`,
// `slice`, grouping into a record with `forEach`, `Object.entries` order,
// `sort` with a numeric comparator, and summing with `+`.
module Collections {
  import opened Text
  import opened Js
  import opened Protocol

  function Min(a: int, b: int): int { if a <= b then a else b }

  // ----- filter and slice -----

  /** `xs.filter(p)` */
  function Filter<T(==,!new)>(xs: seq<T>, p: T -> bool): (r: seq<T>)
    ensures |r| <= |xs|
    ensures forall x :: x in r <==> x in xs && p(x)
    decreases |xs|
  {
    if |xs| == 0 then []
    else Filter(xs[..|xs| - 1], p) + (if p(xs[|xs| - 1]) then [xs[|xs| - 1]] else [])
  }

  /** Filtering keeps every record when all of them pass. */
  lemma {:induction false} FilterAll<T(!new)>(xs: seq<T>, p: T -> bool)
    requires forall i :: 0 <= i < |xs| ==> p(xs[i])
    ensures Filter(xs, p) == xs
    decreases |xs|
  {
    if |xs| > 0 {
      var init, last := xs[..|xs| - 1], xs[|xs| - 1];
      assert xs == init + [last];
      FilterAll(init, p);
      FilterSnoc(init, last, p);
    }
  }

  /** Filtering keeps nothing when no record passes. */
  lemma {:induction false} FilterNone<T(!new)>(xs: seq<T>, p: T -> bool)
    requires forall i :: 0 <= i < |xs| ==> !p(xs[i])
    ensures Filter(xs, p) == []
    decreases |xs|
  {
    if |xs| > 0 {
      FilterNone(xs[..|xs| - 1], p);
    }
  }

  /** Filters that agree on every record keep the same records. */
  lemma {:induction false} FilterSame<T(!new)>(xs: seq<T>, p: T -> bool, q: T -> bool)
    requires forall i :: 0 <= i < |xs| ==> p(xs[i]) == q(xs[i])
    ensures Filter(xs, p) == Filter(xs, q)
    decreases |xs|
  {
    if |xs| > 0 {
      FilterSame(xs[..|xs| - 1], p, q);
    }
  }

  /** Two filters in a row keep what their conjunction keeps. */
  lemma {:induction false} FilterFilter<T(!new)>(xs: seq<T>, p: T -> bool, q: T -> bool, pq: T -> bool)
    requires forall i :: 0 <= i < |xs| ==> pq(xs[i]) == (p(xs[i]) && q(xs[i]))
    ensures Filter(Filter(xs, p), q) == Filter(xs, pq)
    decreases |xs|
  {
    if |xs| > 0 {
      var init, x := xs[..|xs| - 1], xs[|xs| - 1];
      assert forall i :: 0 <= i < |init| ==> init[i] == xs[i];
      FilterFilter(init, p, q, pq);
      var f := Filter(init, p);
      assert pq(x) == (p(x) && q(x));
      if p(x) {
        var g := f + [x];
        assert Filter(xs, p) == g;
        assert g[..|g| - 1] == f && g[|g| - 1] == x;
        calc {
          Filter(g, q);
          Filter(f, q) + (if q(x) then [x] else []);
          Filter(init, pq) + (if pq(x) then [x] else []);
          Filter(xs, pq);
        }
      } else {
        assert Filter(xs, p) == f;
        assert Filter(xs, pq) == Filter(init, pq);
      }
    }
  }

  /** A condition that holds when both given conditions do. */
  function Both<T>(p: T -> bool, q: T -> bool): T -> bool {
    x => p(x) && q(x)
  }

  /** The condition that keeps everything. */
  function Anything<T>(): T -> bool {
    x => true
  }

  /** Filtering by one condition and then another is filtering by both. */
  lemma FilterBoth<T(!new)>(xs: seq<T>, p: T -> bool, q: T -> bool)
    ensures Filter(Filter(xs, p), q) == Filter(xs, Both(p, q))
  {
    FilterFilter(xs, p, q, Both(p, q));
  }

  /** Filtering by the condition that keeps everything keeps the list. */
  lemma FilterAnything<T(!new)>(xs: seq<T>)
    ensures Filter(xs, Anything()) == xs
  {
    FilterAll(xs, Anything());
  }

  /** The first record a filter keeps is the first record of the list that passes. */
  lemma {:induction false} FilterFirst<T(!new)>(xs: seq<T>, p: T -> bool)
    requires |Filter(xs, p)| > 0
    ensures exists i :: 0 <= i < |xs| && Filter(xs, p)[0] == xs[i] && p(xs[i])
                        && forall j :: 0 <= j < i ==> !p(xs[j])
    decreases |xs|
  {
    var init := xs[..|xs| - 1];
    if |Filter(init, p)| > 0 {
      FilterFirst(init, p);
      var i :| 0 <= i < |init| && Filter(init, p)[0] == init[i] && p(init[i])
               && forall j :: 0 <= j < i ==> !p(init[j]);
      assert xs[i] == init[i];
      assert forall j :: 0 <= j < i ==> xs[j] == init[j];
    } else {
      forall j | 0 <= j < |xs| - 1 ensures !p(xs[j]) {
        assert xs[j] == init[j] && init[j] in init;
      }
    }
  }

  /** `xs.slice(0, n)` for a non-negative `n`. */
  function Take<T>(xs: seq<T>, n: nat): (r: seq<T>)
    ensures |r| == Min(n, |xs|) && r == xs[..|r|]
  {
    if n <= |xs| then xs[..n] else xs
  }

  /** The end index `xs.slice(0, end)` stops at: `undefined` means the whole
      list, NaN means 0, a negative figure counts back from the end, and the
      result is clamped to the list. */
  function SliceEnd(len: nat, end: Json): (r: nat)
    ensures r <= len
    ensures end.Undefined? ==> r == len
    ensures end.Num? && end.n >= 0 ==> r == Min(end.n, len)
    ensures end.Num? && end.n < 0 ==> r == if len + end.n < 0 then 0 else len + end.n
  {
    if end.Undefined? then len
    else
      var n := ToNumber(end);
      if n.None? then 0
      else if n.value < 0 then (if len + n.value < 0 then 0 else len + n.value)
      else Min(n.value, len)
  }

  /** One group listed with at most `cap` of its records, and how many are left. */
  function Cap(key: string, members: seq<Json>, cap: nat): (r: Shown)
    ensures r.key == key && r.size == |members|
    ensures |r.listed| == Min(cap, |members|) && r.listed == members[..|r.listed|]
    ensures r.unlisted == |members| - |r.listed|
    ensures r.unlisted > 0 <==> |members| > cap
  {
    var listed := Take(members, cap);
    Shown(key, |members|, listed, |members| - |listed|)
  }

  // ----- grouping -----

  /** A key and the records filed under it. */
  datatype Group = Group(key: string, members: seq<Json>)

  /** The position of `key`'s group, or |gs| when there is none. */
  function IndexOfKey(gs: seq<Group>, key: string): (r: nat)
    ensures r <= |gs|
    ensures r < |gs| ==> gs[r].key == key
    ensures forall i :: 0 <= i < r ==> gs[i].key != key
  {
    if |gs| == 0 then 0 else if gs[0].key == key then 0 else 1 + IndexOfKey(gs[1..], key)
  }

  /** One record filed: appended to its key's group, or a new group at the end. */
  function AddTo(gs: seq<Group>, key: string, x: Json): seq<Group> {
    var i := IndexOfKey(gs, key);
    if i < |gs| then gs[i := Group(key, gs[i].members + [x])] else gs + [Group(key, [x])]
  }

  /** What `forEach` leaves in a grouping record: one group per key, in the order
      the keys first occur, each holding its records in their original order. */
  function GroupBy(items: seq<Json>, keyOf: Json -> string): seq<Group>
    decreases |items|
  {
    if |items| == 0 then []
    else
      var x := items[|items| - 1];
      AddTo(GroupBy(items[..|items| - 1], keyOf), keyOf(x), x)
  }

  /** The records whose key is `k`, in order: an independent description of a group. */
  function Having(items: seq<Json>, keyOf: Json -> string, k: string): (r: seq<Json>)
    ensures |r| <= |items|
    decreases |items|
  {
    if |items| == 0 then []
    else
      var x := items[|items| - 1];
      Having(items[..|items| - 1], keyOf, k) + (if keyOf(x) == k then [x] else [])
  }

  /** The records with a key are exactly the records of the list that carry it. */
  lemma {:induction false} HavingMembers(items: seq<Json>, keyOf: Json -> string, k: string)
    ensures forall x :: x in Having(items, keyOf, k) <==> x in items && keyOf(x) == k
    decreases |items|
  {
    if |items| > 0 {
      HavingMembers(items[..|items| - 1], keyOf, k);
      assert items == items[..|items| - 1] + [items[|items| - 1]];
    }
  }

  predicate DistinctKeys(gs: seq<Group>) {
    forall i, j :: 0 <= i < j < |gs| ==> gs[i].key != gs[j].key
  }

  predicate HasKey(gs: seq<Group>, k: string) {
    exists g :: g in gs && g.key == k
  }

  /** `gs` groups `items`: distinct keys, each group exactly the records with
      its key, and a group for every key some record carries. */
  ghost predicate Partition(gs: seq<Group>, items: seq<Json>, keyOf: Json -> string) {
    DistinctKeys(gs)
    && (forall g :: g in gs ==> g.members == Having(items, keyOf, g.key))
    && (forall k :: HasKey(gs, k) <==> |Having(items, keyOf, k)| > 0)
  }

  /** Grouping partitions the records: keys are distinct, each group holds
      exactly the records with its key, and a key has a group iff some record
      carries it. */
  lemma {:induction false} GroupByPartition(items: seq<Json>, keyOf: Json -> string)
    ensures DistinctKeys(GroupBy(items, keyOf))
    ensures forall g :: g in GroupBy(items, keyOf) ==> g.members == Having(items, keyOf, g.key)
    ensures forall k :: HasKey(GroupBy(items, keyOf), k) <==> |Having(items, keyOf, k)| > 0
    decreases |items|
  {
    if |items| > 0 {
      var init, x := items[..|items| - 1], items[|items| - 1];
      GroupByPartition(init, keyOf);
      var gs := GroupBy(init, keyOf);
      if IndexOfKey(gs, keyOf(x)) < |gs| {
        AddToExisting(items, keyOf);
      } else {
        AddToNew(items, keyOf);
      }
    }
  }

  /** A record whose key already has a group joins the end of that group. */
  lemma AddToExisting(items: seq<Json>, keyOf: Json -> string)
    requires |items| > 0
    requires Partition(GroupBy(items[..|items| - 1], keyOf), items[..|items| - 1], keyOf)
    requires IndexOfKey(GroupBy(items[..|items| - 1], keyOf), keyOf(items[|items| - 1]))
             < |GroupBy(items[..|items| - 1], keyOf)|
    ensures Partition(GroupBy(items, keyOf), items, keyOf)
  {
    var init, x := items[..|items| - 1], items[|items| - 1];
    var gs, k := GroupBy(init, keyOf), keyOf(x);
    var i := IndexOfKey(gs, k);
    assert GroupBy(items, keyOf) == gs[i := Group(k, gs[i].members + [x])];
    ExistingMembers(items, keyOf);
    ExistingKeys(items, keyOf);
  }

  lemma ExistingMembers(items: seq<Json>, keyOf: Json -> string)
    requires |items| > 0
    requires Partition(GroupBy(items[..|items| - 1], keyOf), items[..|items| - 1], keyOf)
    requires IndexOfKey(GroupBy(items[..|items| - 1], keyOf), keyOf(items[|items| - 1]))
             < |GroupBy(items[..|items| - 1], keyOf)|
    ensures forall g :: g in GroupBy(items, keyOf) ==> g.members == Having(items, keyOf, g.key)
  {
    var init, x := items[..|items| - 1], items[|items| - 1];
    var gs, k := GroupBy(init, keyOf), keyOf(x);
    var i := IndexOfKey(gs, k);
    var r := GroupBy(items, keyOf);
    assert r == gs[i := Group(k, gs[i].members + [x])];
    assert gs[i] in gs;
    forall g | g in r ensures g.members == Having(items, keyOf, g.key) {
      var j :| 0 <= j < |r| && r[j] == g;
      if j != i { assert gs[j] in gs; }
    }
  }

  lemma ExistingKeys(items: seq<Json>, keyOf: Json -> string)
    requires |items| > 0
    requires Partition(GroupBy(items[..|items| - 1], keyOf), items[..|items| - 1], keyOf)
    requires IndexOfKey(GroupBy(items[..|items| - 1], keyOf), keyOf(items[|items| - 1]))
             < |GroupBy(items[..|items| - 1], keyOf)|
    ensures forall k :: HasKey(GroupBy(items, keyOf), k) <==> |Having(items, keyOf, k)| > 0
  {
    var init, x := items[..|items| - 1], items[|items| - 1];
    var gs, k := GroupBy(init, keyOf), keyOf(x);
    var i := IndexOfKey(gs, k);
    var r := GroupBy(items, keyOf);
    assert r == gs[i := Group(k, gs[i].members + [x])];
    assert gs[i] in gs;
    forall k' ensures HasKey(r, k') <==> |Having(items, keyOf, k')| > 0 {
      if HasKey(gs, k') {
        var g :| g in gs && g.key == k';
        var j :| 0 <= j < |gs| && gs[j] == g;
        assert r[j] in r;
      }
      if HasKey(r, k') {
        var g :| g in r && g.key == k';
        var j :| 0 <= j < |r| && r[j] == g;
        assert gs[j] in gs;
      }
    }
  }

  /** A record with a key no group has yet opens a new group at the end. */
  lemma AddToNew(items: seq<Json>, keyOf: Json -> string)
    requires |items| > 0
    requires Partition(GroupBy(items[..|items| - 1], keyOf), items[..|items| - 1], keyOf)
    requires IndexOfKey(GroupBy(items[..|items| - 1], keyOf), keyOf(items[|items| - 1]))
             == |GroupBy(items[..|items| - 1], keyOf)|
    ensures Partition(GroupBy(items, keyOf), items, keyOf)
  {
    var init, x := items[..|items| - 1], items[|items| - 1];
    var gs, k := GroupBy(init, keyOf), keyOf(x);
    var r := GroupBy(items, keyOf);
    assert r == gs + [Group(k, [x])];
    assert !HasKey(gs, k);
    forall k' ensures HasKey(r, k') <==> |Having(items, keyOf, k')| > 0 {
      assert r[|gs|] in r;
      if HasKey(r, k') && k' != k {
        var g :| g in r && g.key == k';
        var j :| 0 <= j < |r| && r[j] == g;
        assert gs[j] in gs;
      }
    }
  }

  /** The groups a key list and a record hold, keys in insertion order. */
  function Tabulate(keys: seq<string>, record: map<string, seq<Json>>): (r: seq<Group>)
    requires forall k :: k in keys ==> k in record
    ensures |r| == |keys|
  {
    seq(|keys|, i requires 0 <= i < |keys| => Group(keys[i], record[keys[i]]))
  }

  predicate Distinct(keys: seq<string>) {
    forall i, j :: 0 <= i < j < |keys| ==> keys[i] != keys[j]
  }

  lemma IndexOfTabulated(keys: seq<string>, record: map<string, seq<Json>>, k: string)
    requires forall k :: k in keys ==> k in record
    requires Distinct(keys)
    ensures var i := IndexOfKey(Tabulate(keys, record), k);
      (k in keys ==> i < |keys| && keys[i] == k) && (k !in keys ==> i == |keys|)
  {
    var gs := Tabulate(keys, record);
    var i := IndexOfKey(gs, k);
    if k in keys {
      var j :| 0 <= j < |keys| && keys[j] == k;
      assert gs[j].key == k;
    }
    if i < |keys| {
      assert gs[i].key == keys[i];
    }
  }

  /** Filing one record changes the tabulated groups as `AddTo` does. */
  lemma TabulateAdd(keys: seq<string>, record: map<string, seq<Json>>, k: string, x: Json)
    requires forall k :: k in keys <==> k in record
    requires Distinct(keys)
    ensures k in record ==>
      Tabulate(keys, record[k := record[k] + [x]]) == AddTo(Tabulate(keys, record), k, x)
    ensures k !in record ==>
      Tabulate(keys + [k], record[k := [x]]) == AddTo(Tabulate(keys, record), k, x)
  {
    IndexOfTabulated(keys, record, k);
    var gs := Tabulate(keys, record);
    if k in record {
      var i := IndexOfKey(gs, k);
      var r := Tabulate(keys, record[k := record[k] + [x]]);
      forall j | 0 <= j < |keys| ensures r[j] == gs[i := Group(k, gs[i].members + [x])][j] {
        if j != i { assert keys[j] != k; }
      }
    } else {
      var r := Tabulate(keys + [k], record[k := [x]]);
      forall j | 0 <= j < |keys| ensures r[j] == gs[j] {
        assert keys[j] != k;
      }
    }
  }

  /** Grouping as the handlers write it: a loop over the records that, for
      each one, reads its key (`field` first, which throws on null and
      undefined), creates the key's entry in a fresh object when the lookup
      finds nothing and pushes the record onto it. A key the object already
      inherits (`toString`, `constructor`, ...) skips the creation, and the
      push then throws at `site`: the loop stops with that error. */
  method GroupRecords(items: seq<Json>, keyOf: Json -> string, field: string, site: string)
    returns (keys: seq<string>, record: map<string, seq<Json>>, error: Option<Exception>)
    ensures forall k :: k in keys <==> k in record
    ensures error.None? <==> forall i :: 0 <= i < |items| ==> Groupable(items[i], keyOf)
    ensures error.Some? ==> GroupIntoObject(items, keyOf, field, site) == Throws(error.value)
    ensures error.Some? ==>
      exists i :: 0 <= i < |items| && !Groupable(items[i], keyOf)
        && error.value == GroupError(items[i], field, site) && forall j :: 0 <= j < i ==> Groupable(items[j], keyOf)
    ensures error.None? ==> GroupIntoObject(items, keyOf, field, site) == Value(Tabulate(keys, record))
    ensures error.None? ==> Tabulate(keys, record) == GroupBy(items, keyOf)
  {
    keys, record, error := [], map[], None;
    var i := 0;
    while i < |items|
      invariant 0 <= i <= |items|
      invariant forall k :: k in keys <==> k in record
      invariant Distinct(keys)
      invariant forall j :: 0 <= j < i ==> Groupable(items[j], keyOf)
      invariant Tabulate(keys, record) == GroupBy(items[..i], keyOf)
    {
      var x := items[i];
      if x.Null? || x.Undefined? {
        error := Some(TypeError(ReadError(x, field)));
        GroupIntoObjectMeaning(items, keyOf, field, site);
        return;
      }
      var k := keyOf(x);
      if Inherited(k) {
        error := Some(NotAFunction(site));
        GroupIntoObjectMeaning(items, keyOf, field, site);
        return;
      }
      ghost var gs := Tabulate(keys, record);
      ghost var isNew := k !in record;
      ghost var record0 := record;
      TabulateAdd(keys, record, k, x);
      if k !in record {
        keys := keys + [k];
        record := record[k := []];
        assert record[k] + [x] == [x];
      }
      record := record[k := record[k] + [x]];
      assert isNew ==> record == record0[k := [x]];
      assert Tabulate(keys, record) == AddTo(gs, k, x);
      assert items[..i + 1][..i] == items[..i];
      i := i + 1;
    }
    assert items[..i] == items;
    GroupIntoObjectMeaning(items, keyOf, field, site);
  }

  /** Each key occurs once at most, so each group value occurs once at most. */
  lemma {:induction false} DistinctCount(b: seq<Group>, x: Group)
    requires DistinctKeys(b)
    ensures multiset(b)[x] <= 1
    decreases |b|
  {
    if |b| > 0 {
      var init := b[..|b| - 1];
      assert b == init + [b[|b| - 1]];
      DistinctCount(init, x);
      if b[|b| - 1] == x {
        forall m | 0 <= m < |init| ensures init[m] != x {
          assert init[m] == b[m];
        }
        assert x !in init;
      }
    }
  }

  /** In a rearrangement of groups with distinct keys no group value repeats. */
  lemma NoRepeat(a: seq<Group>, b: seq<Group>, i: nat, j: nat)
    requires multiset(a) == multiset(b) && DistinctKeys(b) && i < j < |a|
    ensures a[i] != a[j]
  {
    assert a == a[..j] + [a[j]] + a[j + 1..];
    assert a[i] in a[..j];
    assert multiset(a)[a[i]] == multiset(a[..j])[a[i]] + multiset([a[j]])[a[i]] + multiset(a[j + 1..])[a[i]];
    assert multiset(a)[a[i]] >= 1 + multiset([a[j]])[a[i]];
    DistinctCount(b, a[i]);
  }

  /** A rearrangement of groups with distinct keys has distinct keys. */
  lemma DistinctPermutation(a: seq<Group>, b: seq<Group>)
    requires multiset(a) == multiset(b) && DistinctKeys(b)
    ensures DistinctKeys(a)
  {
    forall i, j | 0 <= i < j < |a| ensures a[i].key != a[j].key {
      NoRepeat(a, b, i, j);
      assert a[i] in multiset(b) && a[j] in multiset(b);
      var m :| 0 <= m < |b| && b[m] == a[i];
      var n :| 0 <= n < |b| && b[n] == a[j];
      assert m != n;
      assert b[m].key != b[n].key;
    }
  }

  /** The groups of a grouping record as `Object.entries` lists them, each
      shown with at most `cap` of its records. */
  function CappedGroups(items: seq<Json>, keyOf: Json -> string, cap: nat): seq<Shown> {
    var gs := Entries(GroupBy(items, keyOf));
    seq(|gs|, i requires 0 <= i < |gs| => Cap(gs[i].key, gs[i].members, cap))
  }

  /** Each shown group holds the records with its key. */
  lemma CappedGroupAt(items: seq<Json>, keyOf: Json -> string, cap: nat, i: nat)
    requires i < |CappedGroups(items, keyOf, cap)|
    ensures var s := CappedGroups(items, keyOf, cap)[i];
      s.size == |Having(items, keyOf, s.key)| && s.size > 0
      && s.listed == Having(items, keyOf, s.key)[..|s.listed|]
      && |s.listed| == Min(cap, s.size) && (s.unlisted > 0 <==> s.size > cap)
  {
    var gs := GroupBy(items, keyOf);
    var es := Entries(gs);
    GroupByPartition(items, keyOf);
    EntriesOrder(gs);
    assert es[i] in multiset(gs);
    assert es[i] in gs;
    assert es[i].members == Having(items, keyOf, es[i].key);
    assert HasKey(gs, es[i].key);
  }

  /** The shown groups have distinct keys. */
  lemma CappedGroupKeysDistinct(items: seq<Json>, keyOf: Json -> string, cap: nat)
    ensures var r := CappedGroups(items, keyOf, cap);
      forall i, j :: 0 <= i < j < |r| ==> r[i].key != r[j].key
  {
    var gs := GroupBy(items, keyOf);
    var es := Entries(gs);
    GroupByPartition(items, keyOf);
    EntriesOrder(gs);
    DistinctPermutation(es, gs);
  }

  /** `Object.entries` lists exactly the record's groups. */
  lemma EntriesMembers(gs: seq<Group>)
    ensures forall g :: g in Entries(gs) <==> g in gs
  {
    EntriesOrder(gs);
    forall g ensures g in Entries(gs) <==> g in gs {
      assert g in Entries(gs) <==> g in multiset(Entries(gs));
    }
  }

  /** A key is shown iff some record has it. */
  lemma CappedGroupKeysCover(items: seq<Json>, keyOf: Json -> string, cap: nat, k: string)
    ensures var r := CappedGroups(items, keyOf, cap);
      |Having(items, keyOf, k)| > 0 <==> exists i :: 0 <= i < |r| && r[i].key == k
  {
    var gs := GroupBy(items, keyOf);
    var es := Entries(gs);
    var r := CappedGroups(items, keyOf, cap);
    assert HasKey(gs, k) <==> |Having(items, keyOf, k)| > 0 by {
      GroupByPartition(items, keyOf);
    }
    EntriesMembers(gs);
    if HasKey(gs, k) {
      var g :| g in gs && g.key == k;
      var i :| 0 <= i < |es| && es[i] == g;
      assert r[i].key == k;
    }
    if exists i :: 0 <= i < |r| && r[i].key == k {
      var i :| 0 <= i < |r| && r[i].key == k;
      assert es[i] in gs;
    }
  }

  // ----- objects used as grouping records -----

  /** Names under which an empty object literal already holds a truthy value,
      inherited from `Object.prototype`. */
  predicate Inherited(k: string) {
    k in {"constructor", "__defineGetter__", "__defineSetter__", "hasOwnProperty",
          "__lookupGetter__", "__lookupSetter__", "isPrototypeOf", "propertyIsEnumerable",
          "toString", "valueOf", "__proto__", "toLocaleString"}
  }

  /** A record the grouping loop gets past: reading its key field does not
      throw, and its key is not a name `{}` inherits. */
  predicate Groupable(x: Json, keyOf: Json -> string) {
    !x.Null? && !x.Undefined? && !Inherited(keyOf(x))
  }

  /** What the grouping loop throws at a record it cannot get past: reading
      the key `field` off null or undefined, or else the push at `site`. */
  function GroupError(x: Json, field: string, site: string): Exception {
    if x.Null? || x.Undefined? then TypeError(ReadError(x, field)) else NotAFunction(site)
  }

  /** Grouping into `{}` exactly as written, one record after the other: the
      key is computed by reading `field` of the record, which throws on null
      and undefined; `if (!rec[k]) rec[k] = []` then sees the inherited value
      for a key such as `constructor`, skips the initialisation, and `push`
      throws a TypeError at `site`. */
  function GroupIntoObject(items: seq<Json>, keyOf: Json -> string, field: string, site: string): Outcome<seq<Group>>
    decreases |items|
  {
    if |items| == 0 then Value([])
    else
      var x := items[|items| - 1];
      var gs :- GroupIntoObject(items[..|items| - 1], keyOf, field, site);
      if !Groupable(x, keyOf) then Throws(GroupError(x, field, site)) else Value(AddTo(gs, keyOf(x), x))
  }

  /** The object-based grouping comes back exactly when it gets past every
      record, and then leaves the groups `GroupBy` describes; otherwise the
      first record it cannot get past decides the error. */
  lemma {:induction false} GroupIntoObjectMeaning(items: seq<Json>, keyOf: Json -> string, field: string, site: string)
    ensures GroupIntoObject(items, keyOf, field, site).Value?
        <==> forall i :: 0 <= i < |items| ==> Groupable(items[i], keyOf)
    ensures GroupIntoObject(items, keyOf, field, site).Value? ==>
      GroupIntoObject(items, keyOf, field, site).value == GroupBy(items, keyOf)
    ensures GroupIntoObject(items, keyOf, field, site).Throws? ==>
      exists i :: 0 <= i < |items| && !Groupable(items[i], keyOf)
        && GroupIntoObject(items, keyOf, field, site).error == GroupError(items[i], field, site)
        && forall j :: 0 <= j < i ==> Groupable(items[j], keyOf)
    decreases |items|
  {
    if |items| > 0 {
      var init := items[..|items| - 1];
      GroupIntoObjectMeaning(init, keyOf, field, site);
      assert forall i :: 0 <= i < |init| ==> init[i] == items[i];
      if GroupIntoObject(init, keyOf, field, site).Throws? {
        var i :| 0 <= i < |init| && !Groupable(init[i], keyOf)
          && GroupIntoObject(init, keyOf, field, site).error == GroupError(init[i], field, site)
          && forall j :: 0 <= j < i ==> Groupable(init[j], keyOf);
        assert init[i] == items[i];
      }
    }
  }

  /** When it gets past every record, the object-based grouping agrees with `GroupBy`. */
  lemma {:induction false} GroupIntoObjectAgrees(items: seq<Json>, keyOf: Json -> string, field: string, site: string)
    requires forall i :: 0 <= i < |items| ==> Groupable(items[i], keyOf)
    ensures GroupIntoObject(items, keyOf, field, site) == Value(GroupBy(items, keyOf))
    decreases |items|
  {
    if |items| > 0 {
      GroupIntoObjectAgrees(items[..|items| - 1], keyOf, field, site);
    }
  }

  /** The groups of a grouping record filled as the handlers write it, as
      `Object.entries` lists them, each shown with at most `cap` of its
      records: the loop stops at the first record that is null or undefined
      or whose key is inherited, with that record's error, and otherwise
      gives the groups `CappedGroups` describes. */
  function CappedGroupsAsWritten(items: seq<Json>, keyOf: Json -> string, cap: nat, field: string, site: string): (r: Outcome<seq<Shown>>)
    ensures r.Value? <==> forall i :: 0 <= i < |items| ==> Groupable(items[i], keyOf)
    ensures r.Value? ==> r.value == CappedGroups(items, keyOf, cap)
    ensures r.Throws? ==>
      exists i :: 0 <= i < |items| && !Groupable(items[i], keyOf)
        && r.error == GroupError(items[i], field, site) && forall j :: 0 <= j < i ==> Groupable(items[j], keyOf)
  {
    GroupIntoObjectMeaning(items, keyOf, field, site);
    var gs :- GroupIntoObject(items, keyOf, field, site);
    var es := Entries(gs);
    Value(seq(|es|, i requires 0 <= i < |es| => Cap(es[i].key, es[i].members, cap)))
  }

  /** The grouping stops at the first record it cannot get past, with that
      record's error, whatever comes after it. */
  lemma GroupingStopsAtFirst(items: seq<Json>, keyOf: Json -> string, cap: nat, field: string, site: string, j: nat)
    requires j < |items| && !Groupable(items[j], keyOf)
    requires forall i :: 0 <= i < j ==> Groupable(items[i], keyOf)
    ensures CappedGroupsAsWritten(items, keyOf, cap, field, site) == Throws(GroupError(items[j], field, site))
  {
    var r := CappedGroupsAsWritten(items, keyOf, cap, field, site);
    assert r.Throws?;
    var i :| 0 <= i < |items| && !Groupable(items[i], keyOf)
      && r.error == GroupError(items[i], field, site) && forall k :: 0 <= k < i ==> Groupable(items[k], keyOf);
    assert i == j;
  }

  /** A single part whose category is "constructor" makes the grouping throw,
      where grouping by key gives one group holding that part. */
  lemma GroupIntoObjectInheritedKey()
    ensures var part := Obj(map["Category" := Str("constructor")]);
      var keyOf := (p: Json) => ToStr(Get(p, "Category"));
      GroupIntoObject([part], keyOf, "Category", "partsByCategory[category].push")
        == Throws(TypeError("partsByCategory[category].push is not a function"))
      && GroupBy([part], keyOf) == [Group("constructor", [part])]
  {
    var part := Obj(map["Category" := Str("constructor")]);
    var keyOf := (p: Json) => ToStr(Get(p, "Category"));
    var site := "partsByCategory[category].push";
    assert [part][..0] == [];
    assert keyOf(part) == "constructor";
    assert Inherited("constructor");
    assert GroupIntoObject([part][..0], keyOf, "Category", site) == Value([]);
    assert site + " is not a function" == "partsByCategory[category].push is not a function";
  }

  // ----- Object.entries order -----

  /** An array-index property name: a canonical decimal numeral below 2^32 - 1. */
  predicate ArrayIndex(k: string) {
    |k| > 0 && AllDigits(k) && (k[0] != '0' || k == "0") && DigitsValue(k) < 0xFFFF_FFFF
  }

  predicate IndexKeyed(g: Group) { ArrayIndex(g.key) }

  predicate NamedKeyed(g: Group) { !ArrayIndex(g.key) }

  function IndexRank(g: Group): int {
    if ArrayIndex(g.key) then DigitsValue(g.key) else 0
  }

  /** The order `Object.entries` lists a record's groups in: array-index keys
      first, in ascending numeric order, then the other keys in insertion order. */
  function Entries(gs: seq<Group>): seq<Group> {
    SortBy(Filter(gs, IndexKeyed), IndexRank) + Filter(gs, NamedKeyed)
  }

  /** `Object.entries` lists every group once: the index-keyed ones first,
      ascending by value, then the others in the order they were added. */
  lemma EntriesOrder(gs: seq<Group>)
    ensures multiset(Entries(gs)) == multiset(gs)
    ensures var n := |Filter(gs, IndexKeyed)|;
      (forall i :: 0 <= i < n ==> IndexKeyed(Entries(gs)[i]))
      && (forall i :: n <= i < |Entries(gs)| ==> !IndexKeyed(Entries(gs)[i]))
      && SortedBy(Entries(gs)[..n], IndexRank)
      && Entries(gs)[n..] == Filter(gs, NamedKeyed)
  {
    var f := Filter(gs, IndexKeyed);
    var a: seq<Group> := SortBy(f, IndexRank);
    var b: seq<Group> := Filter(gs, NamedKeyed);
    assert Entries(gs) == a + b;
    FilterSplit(gs, IndexKeyed, NamedKeyed);
    SortByMultiset(f, IndexRank);
    assert multiset(a + b) == multiset(gs);
    SortBySorted(f, IndexRank);
    assert |a| == |multiset(a)| == |multiset(f)| == |f|;
    assert (a + b)[..|a|] == a;
    assert (a + b)[|a|..] == b;
    SortedKeysIndexed(f, a);
    NamedKeysNamed(gs, b);
  }

  lemma SortedKeysIndexed(f: seq<Group>, a: seq<Group>)
    requires multiset(a) == multiset(f)
    requires forall g :: g in f ==> IndexKeyed(g)
    ensures forall i :: 0 <= i < |a| ==> IndexKeyed(a[i])
  {
    forall i | 0 <= i < |a| ensures IndexKeyed(a[i]) {
      assert a[i] in multiset(f);
    }
  }

  lemma NamedKeysNamed(gs: seq<Group>, b: seq<Group>)
    requires b == Filter(gs, NamedKeyed)
    ensures forall i :: 0 <= i < |b| ==> !IndexKeyed(b[i])
  {
    forall i | 0 <= i < |b| ensures !IndexKeyed(b[i]) {
      assert b[i] in b;
    }
  }

  /** Filtering a list with one more record at its end. */
  lemma FilterSnoc<T(!new)>(init: seq<T>, last: T, p: T -> bool)
    ensures Filter(init + [last], p) == Filter(init, p) + (if p(last) then [last] else [])
  {
    assert (init + [last])[..|init|] == init;
  }

  /** Two complementary filters split a list without losing or adding records. */
  lemma {:induction false} FilterSplit<T(!new)>(xs: seq<T>, p: T -> bool, q: T -> bool)
    requires forall x :: q(x) == !p(x)
    ensures multiset(Filter(xs, p)) + multiset(Filter(xs, q)) == multiset(xs)
    decreases |xs|
  {
    if |xs| > 0 {
      var init, last := xs[..|xs| - 1], xs[|xs| - 1];
      assert xs == init + [last];
      FilterSplit(init, p, q);
      FilterSnoc(init, last, p);
      FilterSnoc(init, last, q);
      assert q(last) == !p(last);
    }
  }

  // ----- sorting -----

  predicate SortedBy<T>(s: seq<T>, rank: T -> int) {
    forall i, j :: 0 <= i < j < |s| ==> rank(s[i]) <= rank(s[j])
  }

  /** Inserting `x` after the last element whose rank does not exceed its own. */
  function InsertBy<T>(s: seq<T>, x: T, rank: T -> int): (r: seq<T>)
    ensures |r| == |s| + 1
    decreases |s|
  {
    if |s| == 0 || rank(s[|s| - 1]) <= rank(x) then s + [x]
    else InsertBy(s[..|s| - 1], x, rank) + [s[|s| - 1]]
  }

  /** A stable sort by an integer rank: what `sort` with the comparator
      `(a, b) => rank(a) - rank(b)` leaves. */
  function SortBy<T>(s: seq<T>, rank: T -> int): (r: seq<T>)
    ensures |r| == |s|
    decreases |s|
  {
    if |s| == 0 then [] else InsertBy(SortBy(s[..|s| - 1], rank), s[|s| - 1], rank)
  }

  lemma {:induction false} InsertByMultiset<T>(s: seq<T>, x: T, rank: T -> int)
    ensures multiset(InsertBy(s, x, rank)) == multiset(s) + multiset{x}
    decreases |s|
  {
    if |s| > 0 && rank(s[|s| - 1]) > rank(x) {
      InsertByMultiset(s[..|s| - 1], x, rank);
      assert s == s[..|s| - 1] + [s[|s| - 1]];
    }
  }

  /** The sort only reorders: its output is a permutation of its input. */
  lemma {:induction false} SortByMultiset<T>(s: seq<T>, rank: T -> int)
    ensures multiset(SortBy(s, rank)) == multiset(s)
    decreases |s|
  {
    if |s| > 0 {
      SortByMultiset(s[..|s| - 1], rank);
      InsertByMultiset(SortBy(s[..|s| - 1], rank), s[|s| - 1], rank);
      assert s == s[..|s| - 1] + [s[|s| - 1]];
    }
  }

  lemma {:induction false} InsertBySorted<T>(s: seq<T>, x: T, rank: T -> int)
    requires SortedBy(s, rank)
    ensures SortedBy(InsertBy(s, x, rank), rank)
    ensures |s| > 0 ==> var r := InsertBy(s, x, rank);
      rank(r[|r| - 1]) == (if rank(s[|s| - 1]) <= rank(x) then rank(x) else rank(s[|s| - 1]))
    decreases |s|
  {
    if |s| > 0 && rank(s[|s| - 1]) > rank(x) {
      var init := s[..|s| - 1];
      InsertBySorted(init, x, rank);
      var t := InsertBy(init, x, rank);
      var r := t + [s[|s| - 1]];
      InsertByMultiset(init, x, rank);
      forall i, j | 0 <= i < j < |r| ensures rank(r[i]) <= rank(r[j]) {
        if j == |r| - 1 && i < |t| {
          assert r[i] in multiset(t);
          assert r[i] in multiset(init) || r[i] == x;
          if r[i] != x {
            var k :| 0 <= k < |init| && init[k] == r[i];
            assert s[k] == init[k];
          }
        }
      }
    }
  }

  /** The sort's output is ordered by rank. */
  lemma {:induction false} SortBySorted<T>(s: seq<T>, rank: T -> int)
    ensures SortedBy(SortBy(s, rank), rank)
    decreases |s|
  {
    if |s| > 0 {
      SortBySorted(s[..|s| - 1], rank);
      InsertBySorted(SortBy(s[..|s| - 1], rank), s[|s| - 1], rank);
    }
  }

  /** Where the shifting loop stops, `InsertBy` places `x` too. */
  lemma {:induction false} InsertByAt<T>(s: seq<T>, x: T, rank: T -> int, j: nat)
    requires j <= |s|
    requires forall k :: j <= k < |s| ==> rank(s[k]) > rank(x)
    requires j == 0 || rank(s[j - 1]) <= rank(x)
    ensures InsertBy(s, x, rank) == s[..j] + [x] + s[j..]
    decreases |s|
  {
    if j < |s| {
      var init, last := s[..|s| - 1], s[|s| - 1];
      assert rank(last) > rank(x);
      assert InsertBy(s, x, rank) == InsertBy(init, x, rank) + [last];
      assert j == 0 || init[j - 1] == s[j - 1];
      InsertByAt(init, x, rank, j);
      assert s[..j] == init[..j];
      assert s[j..] == init[j..] + [last];
    } else {
      assert s[..j] == s;
      assert s[j..] == [];
    }
  }

  /** One insertion step: `a[i]` shifted left past the elements of the sorted
      prefix `a[..i]` ranked strictly above it. */
  method InsertStep<T>(a: array<T>, i: nat, rank: T -> int)
    requires i < a.Length
    modifies a
    ensures a[..i + 1] == InsertBy(old(a[..i]), old(a[i]), rank)
    ensures a[i + 1..] == old(a[i + 1..])
  {
    ghost var s := a[..i];
    var x := a[i];
    var j := i;
    while j > 0 && rank(a[j - 1]) > rank(x)
      invariant 0 <= j <= i
      invariant forall k :: 0 <= k < j ==> a[k] == s[k]
      invariant forall k :: j < k <= i ==> a[k] == s[k - 1]
      invariant forall k :: i < k < a.Length ==> a[k] == old(a[k])
      invariant forall k :: j <= k < i ==> rank(s[k]) > rank(x)
    {
      a[j] := a[j - 1];
      j := j - 1;
    }
    a[j] := x;
    InsertByAt(s, x, rank, j);
    ghost var t := s[..j] + [x] + s[j..];
    forall k | 0 <= k <= i ensures a[k] == t[k] {
      if k < j { assert t[k] == s[k]; }
      else if k > j { assert t[k] == s[k - 1]; }
    }
    assert a[..i + 1] == t;
  }

  /** `sort` in place, as an insertion sort over a growing sorted prefix. */
  method SortInPlace<T>(a: array<T>, rank: T -> int)
    modifies a
    ensures a[..] == SortBy(old(a[..]), rank)
  {
    ghost var orig := a[..];
    var i := 0;
    while i < a.Length
      invariant 0 <= i <= a.Length
      invariant a[..i] == SortBy(orig[..i], rank)
      invariant a[i..] == orig[i..]
    {
      ghost var before := a[..];
      InsertStep(a, i, rank);
      assert before[i] == orig[i] && before[..i] == SortBy(orig[..i], rank);
      assert orig[..i + 1][..i] == orig[..i];
      assert a[i + 1..] == before[i + 1..];
      i := i + 1;
    }
    assert orig[..a.Length] == orig;
  }

  // ----- sums -----

  /** `init + term(x1) + term(x2) + ...` with JavaScript's `+`: what both
      `reduce` and an accumulating `+=` loop compute. */
  function SumOf(items: seq<Json>, term: Json -> Json, init: Json): Json
    decreases |items|
  {
    if |items| == 0 then init
    else Plus(SumOf(items[..|items| - 1], term, init), term(items[|items| - 1]))
  }

  /** The integer total of the terms, when every term is a number. */
  function Total(items: seq<Json>, term: Json -> Json): int
    requires forall i :: 0 <= i < |items| ==> term(items[i]).Num?
    decreases |items|
  {
    if |items| == 0 then 0 else Total(items[..|items| - 1], term) + term(items[|items| - 1]).n
  }

  /** When every term is a number the sum is the integer total. */
  lemma {:induction false} SumOfNumbers(items: seq<Json>, term: Json -> Json, init: int)
    requires forall i :: 0 <= i < |items| ==> term(items[i]).Num?
    ensures SumOf(items, term, Num(init)) == Num(init + Total(items, term))
    decreases |items|
  {
    if |items| > 0 {
      SumOfNumbers(items[..|items| - 1], term, init);
    }
  }

  /** Once one term is a string, the rest is concatenation: the sum is a string. */
  lemma {:induction false} SumOfString(items: seq<Json>, term: Json -> Json, init: Json, j: nat)
    requires j < |items| && term(items[j]).Str?
    ensures SumOf(items, term, init).Str?
    decreases |items|
  {
    if j < |items| - 1 {
      SumOfString(items[..|items| - 1], term, init, j);
    }
  }

  /** The accumulation loop: a running total updated with `+=` per record. */
  method Accumulate(items: seq<Json>, term: Json -> Json, init: Json) returns (total: Json)
    ensures total == SumOf(items, term, init)
  {
    total := init;
    var i := 0;
    while i < |items|
      invariant 0 <= i <= |items|
      invariant total == SumOf(items[..i], term, init)
    {
      total := Plus(total, term(items[i]));
      assert items[..i + 1][..i] == items[..i];
      i := i + 1;
    }
    assert items[..i] == items;
  }
}
