// The shapes a reply can take and the expressions the code uses to pull a
// list or a record out of one, together with the pieces every search
// request is built from: the `{Facet, Id}` filter list, paging defaults and
// page arithmetic.
module Shapes {
  import opened Text
  import opened Js
  import opened Protocol
  import opened Collections

  // ----- normalising a reply -----

  /** `Array.isArray(r) ? r : r?.Items || []` */
  function ArrayOrItems(r: Json): (v: Json)
    ensures r.Arr? ==> v == r
    ensures !r.Arr? && Truthy(Get(r, "Items")) ==> v == Get(r, "Items")
    ensures !r.Arr? && !Truthy(Get(r, "Items")) ==> v == Arr([])
  {
    if r.Arr? then r else Or(Get(r, "Items"), Arr([]))
  }

  /** `r?.Items || []` */
  function ItemsOrEmpty(r: Json): (v: Json)
    ensures Truthy(v)
    ensures Truthy(Get(r, "Items")) ==> v == Get(r, "Items")
    ensures !Truthy(Get(r, "Items")) ==> v == Arr([])
  {
    Or(Get(r, "Items"), Arr([]))
  }

  /** `r.Items || []`, which throws when the reply is null or empty. */
  function ItemsStrict(r: Json): (v: Outcome<Json>)
    ensures v.Throws? <==> r.Null? || r.Undefined?
    ensures v.Value? ==> v.value == ItemsOrEmpty(r)
  {
    var items :- Read(r, "Items");
    Value(Or(items, Arr([])))
  }

  /** `r?.Items || r || []`, as the room, building, type, agent and user
      statistics tools write it. */
  function ItemsOrSelf(r: Json): (v: Json)
    ensures Truthy(Get(r, "Items")) ==> v == Get(r, "Items")
    ensures !Truthy(Get(r, "Items")) && Truthy(r) ==> v == r
    ensures !Truthy(Get(r, "Items")) && !Truthy(r) ==> v == Arr([])
  {
    Or(Get(r, "Items"), Or(r, Arr([])))
  }

  /** The two normalisers disagree exactly on a truthy reply that is not an
      array and has no truthy `Items`: one returns the reply itself, the other
      an empty list. */
  lemma ItemsOrSelfAgainstArrayOrItems(r: Json)
    ensures ItemsOrSelf(r) != ArrayOrItems(r) <==> Truthy(r) && !r.Arr? && !Truthy(Get(r, "Items"))
  {
  }

  /** `r.Data || null` */
  function DataOrNull(r: Json): (v: Outcome<Json>)
    ensures v.Throws? <==> r.Null? || r.Undefined?
    ensures v.Value? && Truthy(Get(r, "Data")) ==> v.value == Get(r, "Data")
    ensures v.Value? && !Truthy(Get(r, "Data")) ==> v.value == Null
  {
    var data :- Read(r, "Data");
    Value(Or(data, Null))
  }

  /** `r?.Item || r` */
  function ItemOrSelf(r: Json): (v: Json)
    ensures Truthy(Get(r, "Item")) ==> v == Get(r, "Item")
    ensures !Truthy(Get(r, "Item")) ==> v == r
  {
    Or(Get(r, "Item"), r)
  }

  /** The empty page a search returns in place of a falsy reply. */
  function EmptyPage(): Json {
    Obj(map["Items" := Arr([]), "TotalCount" := Num(0), "PageIndex" := Num(0), "PageSize" := Num(0)])
  }

  /** `r || {Items: [], TotalCount: 0, PageIndex: 0, PageSize: 0}` */
  function PagedOrEmpty(r: Json): (v: Json)
    ensures Truthy(r) ==> v == r
    ensures !Truthy(r) ==> v == EmptyPage()
    ensures Truthy(v)
  {
    Or(r, EmptyPage())
  }

  // ----- lists as the handlers test and walk them -----

  /** `v.length`, for a value that is neither null nor undefined. */
  function Length(v: Json): (n: Json)
    ensures v.Arr? ==> n == Num(|v.items|)
    ensures v.Str? ==> n == Num(|v.s|)
  {
    match v
    case Arr(xs) => Num(|xs|)
    case Str(s) => Num(|s|)
    case Obj(_) => Get(v, "length")
    case _ => Undefined
  }

  /** `!v || v.length === 0`: the handlers' test for an empty result. */
  predicate Empty(v: Json) {
    !Truthy(v) || StrictEquals(Length(v), Num(0))
  }

  /** For arrays the emptiness test is exactly "no elements". */
  lemma EmptyArray(xs: seq<Json>)
    ensures Empty(Arr(xs)) <==> |xs| == 0
  {
  }

  /** A truthy object without a numeric `length` passes as non-empty. */
  lemma ObjectNotEmpty(fields: map<string, Json>)
    requires "length" !in fields
    ensures !Empty(Obj(fields))
  {
  }

  /** `v.length === 0`, the test applied to a list already defaulted to `[]`. */
  predicate NoLength(v: Json) {
    StrictEquals(Length(v), Num(0))
  }

  /** The elements of a value about to be walked with `map`, `filter`,
      `slice` or `forEach`: only an array has them; anything else throws the
      TypeError the missing method raises at `site`. */
  function AsList(v: Json, site: string): (r: Outcome<seq<Json>>)
    ensures r.Value? <==> v.Arr?
    ensures r.Value? ==> r.value == v.items
  {
    if v.Arr? then Value(v.items) else Throws(NotAFunction(site))
  }

  /** The records of a list whose rendering reads `field` of each one: null
      and undefined records make that read throw, the first of them first. */
  function Records(items: seq<Json>, field: string): (r: Outcome<seq<Json>>)
    ensures r.Value? <==> forall i :: 0 <= i < |items| ==> !items[i].Null? && !items[i].Undefined?
    ensures r.Value? ==> r.value == items
    ensures r.Throws? ==> r.error.TypeError?
    decreases |items|
  {
    if |items| == 0 then Value([])
    else if items[0].Null? || items[0].Undefined? then Throws(TypeError(ReadError(items[0], field)))
    else
      var rest :- Records(items[1..], field);
      Value([items[0]] + rest)
  }

  /** A list taken from a reply whose emptiness was already ruled out by
      `Empty`, then walked: it must be an array of records. */
  function Listed(v: Json, site: string, field: string): (r: Outcome<seq<Json>>)
    ensures r.Value? ==> v.Arr? && r.value == v.items
    ensures r.Throws? ==> r.error.TypeError?
  {
    var xs :- AsList(v, site);
    Records(xs, field)
  }

  /** `list.map(format)` over a list a getter returned: anything but an
      array has no `map`, and a null or undefined element makes the
      formatter's first read throw. */
  function Formatted(v: Json, site: string, format: Json -> Json, field: string): (r: Outcome<seq<Json>>)
    ensures r.Value? ==>
      v.Arr? && |r.value| == |v.items| && forall i :: 0 <= i < |v.items| ==> r.value[i] == format(v.items[i])
    ensures r.Value? <==> v.Arr? && forall i :: 0 <= i < |v.items| ==> !v.items[i].Null? && !v.items[i].Undefined?
    ensures r.Throws? ==> r.error.TypeError?
  {
    var xs :- Listed(v, site, field);
    Value(seq(|xs|, i requires 0 <= i < |xs| => format(xs[i])))
  }

  /** The callee the engine names when `<receiver>.slice(0, n).<next>(…)`
      meets a value that is not an array: a string has `slice`, and the string
      it returns has no `next`; any other value has no `slice`. */
  function SliceSite(v: Json, receiver: string, next: string): string {
    if v.Str? then receiver + ".slice(...)." + next else receiver + ".slice"
  }

  /** A reply's `Items`, written `receiver`, with the first `n` read for
      `field` and listed, the rest counted, and the reply's `ItemCount` as the
      heading figure; `empty` when `Items` is missing or empty. */
  function TopItems(r: Json, n: nat, empty: string, receiver: string, field: string): (t: Outcome<Report>)
    ensures Empty(Get(r, "Items")) ==> t == Value(Message(empty))
    ensures t.Value? && t.value.Listing? ==>
      var items := Get(r, "Items");
      items.Arr? && t.value.listed == items.items[..Min(n, |items.items|)]
      && t.value.more == |items.items| - Min(n, |items.items|) && t.value.count == Get(r, "ItemCount")
    ensures var items := Get(r, "Items");
      !Empty(items) && items.Str? ==> t == Throws(NotAFunction(receiver + ".slice(...).map"))
    ensures var items := Get(r, "Items");
      !Empty(items) && !items.Arr? && !items.Str? ==> t == Throws(NotAFunction(receiver + ".slice"))
  {
    var items := Get(r, "Items");
    if Empty(items) then Value(Message(empty))
    else
      assert receiver + ".slice(...)." + "map" == receiver + ".slice(...).map";
      var xs :- AsList(items, SliceSite(items, receiver, "map"));
      var shown :- Records(Take(xs, n), field);
      Value(Listing(Get(r, "ItemCount"), shown, |xs| - |shown|, None))
  }

  /** A reply's `Items` listed, or `empty` when there are none. */
  function ItemsReport(reply: Json, empty: string, field: string, footer: Option<Footer>): (r: Outcome<Report>)
    ensures Empty(Get(reply, "Items")) ==> r == Value(Message(empty))
    ensures !Empty(Get(reply, "Items")) && r.Value? ==>
      r.value.Listing? && Get(reply, "Items").Arr? && r.value.listed == Get(reply, "Items").items
  {
    var items := Get(reply, "Items");
    if Empty(items) then Value(Message(empty))
    else
      var xs :- Listed(items, "response.Items.map", field);
      Value(Listing(Get(reply, "ItemCount"), xs, 0, footer))
  }

  /** Every record of a list, each read for `field`, counted by the list's
      length; `empty` when the list has length 0. */
  function WholeList(v: Json, empty: string, site: string, field: string): (t: Outcome<Report>)
    ensures NoLength(v) ==> t == Value(Message(empty))
    ensures t.Value? && t.value.Listing? ==>
      v.Arr? && t.value.listed == v.items && t.value.count == Num(|v.items|) && t.value.more == 0
  {
    if NoLength(v) then Value(Message(empty))
    else
      var xs :- AsList(v, site);
      var ys :- Records(xs, field);
      Value(Listing(Num(|ys|), ys, 0, None))
  }

  /** A record that neither is null or undefined nor one `bad` describes. */
  predicate Passes(x: Json, bad: Json -> bool) {
    !x.Null? && !x.Undefined? && !bad(x)
  }

  /** What a record that does not pass throws: reading `field` of null or
      undefined, or else `fail` of it. */
  function WalkError(x: Json, field: string, fail: Json -> Exception): Exception {
    if x.Null? || x.Undefined? then TypeError(ReadError(x, field)) else fail(x)
  }

  /** The records of a list whose rendering first reads `field` of each one
      and then evaluates an expression that throws `fail(x)` on the records
      `bad` describes: the first record that throws stops the walk. */
  function Walk(items: seq<Json>, field: string, bad: Json -> bool, fail: Json -> Exception): (r: Outcome<seq<Json>>)
    ensures r.Value? <==> forall i :: 0 <= i < |items| ==> Passes(items[i], bad)
    ensures r.Value? ==> r.value == items
    ensures r.Throws? ==>
      exists i :: 0 <= i < |items| && !Passes(items[i], bad)
        && r.error == WalkError(items[i], field, fail) && forall j :: 0 <= j < i ==> Passes(items[j], bad)
    decreases |items|
  {
    if |items| == 0 then Value([])
    else if items[0].Null? || items[0].Undefined? then Throws(TypeError(ReadError(items[0], field)))
    else if bad(items[0]) then Throws(fail(items[0]))
    else
      var rest :- Walk(items[1..], field, bad, fail);
      Value([items[0]] + rest)
  }

  /** A record whose `Name` can be lowercased. */
  predicate HasName(x: Json) {
    !x.Null? && !x.Undefined? && Get(x, "Name").Str?
  }

  /** What `x.Name.toLowerCase()`, with the callee spelled `site`, throws on
      a record without a string name: reading `Name` off a null or undefined
      record, reading `toLowerCase` off a missing name, or calling a name that
      is no string. */
  function NameError(x: Json, site: string): Exception
    requires !HasName(x)
  {
    if x.Null? || x.Undefined? then TypeError(ReadError(x, "Name"))
    else LowerOf(Get(x, "Name"), site).error
  }

  /** The records of a list whose names are all lowercased by a call whose
      callee the source spells `site` (such as `i.Name.toLowerCase`): the
      first record without a string name stops the walk with its error. */
  function Named(xs: seq<Json>, site: string): (r: Outcome<seq<Json>>)
    ensures r.Value? <==> forall i :: 0 <= i < |xs| ==> HasName(xs[i])
    ensures r.Value? ==> r.value == xs
    ensures r.Throws? ==>
      exists i :: 0 <= i < |xs| && !HasName(xs[i])
        && r.error == NameError(xs[i], site) && forall j :: 0 <= j < i ==> HasName(xs[j])
    decreases |xs|
  {
    if |xs| == 0 then Value([])
    else
      var name :- Read(xs[0], "Name");
      var lowered :- LowerOf(name, site);
      var rest :- Named(xs[1..], site);
      Value([xs[0]] + rest)
  }

  /** `x.Name.toLowerCase()` for a record that has a name. */
  function LowerName(x: Json): string {
    if Get(x, "Name").Str? then Lower(Get(x, "Name").s) else ""
  }

  predicate Mentions(x: Json, w: string) {
    Contains(LowerName(x), w)
  }

  /** One line per record, in order. */
  function Lines(items: seq<Json>, line: Json -> (Json, Json)): (r: seq<(Json, Json)>)
    ensures |r| == |items| && forall i :: 0 <= i < |items| ==> r[i] == line(items[i])
  {
    seq(|items|, i requires 0 <= i < |items| => line(items[i]))
  }

  /** A titled part of a report with its records, printed only when there are some. */
  function SectionIf(title: string, items: seq<Json>): (r: seq<Section>)
    ensures |items| > 0 ==> r == [Section(title, items)]
    ensures |items| == 0 ==> r == []
  {
    if |items| > 0 then [Section(title, items)] else []
  }

  /** `v.Items[0]` for a value whose `Items` test passed: the first element
      of an array, the first character of a string, or property "0". */
  function First(v: Json): (r: Json)
    ensures v.Arr? && |v.items| > 0 ==> r == v.items[0]
  {
    match v
    case Arr(xs) => if |xs| > 0 then xs[0] else Undefined
    case Str(s) => if |s| > 0 then Str([s[0]]) else Undefined
    case Obj(_) => Get(v, "0")
    case _ => Undefined
  }

  // ----- exact-match look-ups -----

  /** `x.<field> === value` */
  function FieldIs(field: string, value: Json): Json -> bool {
    x => StrictEquals(Get(x, field), value)
  }

  /** `r?.Items?.filter((x) => x.<field> === value) || []`: no `Items` means no
      match, a non-array `Items` makes the call throw, and a null record makes
      the field read throw. */
  function Matching(r: Json, field: string, value: Json, site: string): Outcome<seq<Json>> {
    var items := Get(r, "Items");
    if items.Null? || items.Undefined? then Value([])
    else
      var xs :- AsList(items, site);
      var ys :- Records(xs, field);
      Value(Filter(ys, FieldIs(field, value)))
  }

  /** A non-empty match list is the filter of the reply's `Items`. */
  lemma MatchingFound(r: Json, field: string, value: Json, site: string)
    requires Matching(r, field, value, site).Value? && |Matching(r, field, value, site).value| > 0
    ensures Get(r, "Items").Arr?
    ensures Matching(r, field, value, site).value == Filter(Get(r, "Items").items, FieldIs(field, value))
  {
    var items := Get(r, "Items");
    assert !items.Null? && !items.Undefined?;
    var xs := AsList(items, site);
    assert xs.Value?;
    var ys := Records(xs.value, field);
    assert ys.Value?;
    assert Matching(r, field, value, site) == Value(Filter(ys.value, FieldIs(field, value)));
  }

  /** No `Items`, or records none of which match, leave no match. */
  lemma MatchingNone(r: Json, field: string, value: Json, site: string)
    requires var items := Get(r, "Items");
      items.Null? || items.Undefined?
      || (items.Arr? && forall i :: 0 <= i < |items.items| ==>
            !items.items[i].Null? && !items.items[i].Undefined? && !FieldIs(field, value)(items.items[i]))
    ensures Matching(r, field, value, site) == Value([])
  {
    var items := Get(r, "Items");
    if items.Arr? {
      assert Records(items.items, field) == Value(items.items);
      FilterNone(items.items, FieldIs(field, value));
    }
  }

  // ----- search requests -----

  /** `{...base, ...params}`: the caller's properties override the defaults.
      Spreading a list or a string would also copy its index keys; the
      search getters declare their parameters as a search-parameters object
      and no tool handler calls them, so here any value that is not an object
      adds nothing, as null and undefined do. */
  function Spread(base: map<string, Json>, params: Json): (r: map<string, Json>)
    ensures params.Obj? ==> r == base + params.fields
    ensures !params.Obj? ==> r == base
  {
    if params.Obj? then base + params.fields else base
  }

  /** The flags every search starts from. */
  function SearchDefaults(): map<string, Json> {
    map["OnlyShowDeleted" := Bool(false), "FilterByViewPermission" := Bool(false)]
  }

  /** Both flags default to false, and a caller's value for either wins. */
  lemma SpreadOverrides(params: map<string, Json>, k: string)
    requires k == "OnlyShowDeleted" || k == "FilterByViewPermission"
    ensures k in params ==> Spread(SearchDefaults(), Obj(params))[k] == params[k]
    ensures k !in params ==> Spread(SearchDefaults(), Obj(params))[k] == Bool(false)
  {
  }

  /** One conditional `Filters.push`: a facet and the argument it takes its Id from. */
  datatype Facet = Facet(facet: string, arg: string)

  /** What one statement pushes. */
  function Pushed(args: Args, f: Facet): seq<Json> {
    var v := Arg(args, f.arg);
    if Truthy(v) then [SearchFilter(f.facet, v)] else []
  }

  /** The filters a run of `if (args.x) Filters.push({Facet, Id: args.x})`
      statements leaves, in the order the statements are written. */
  function FacetFilters(args: Args, table: seq<Facet>): (r: seq<Json>)
    ensures |r| <= |table|
    decreases |table|
  {
    if |table| == 0 then []
    else
      Pushed(args, table[0]) + FacetFilters(args, table[1..])
  }

  /** Two runs of statements push what each pushes, in order. */
  lemma {:induction false} FacetFiltersAppend(args: Args, a: seq<Facet>, b: seq<Facet>)
    ensures FacetFilters(args, a + b) == FacetFilters(args, a) + FacetFilters(args, b)
    decreases |a|
  {
    if |a| > 0 {
      assert (a + b)[0] == a[0];
      assert (a + b)[1..] == a[1..] + b;
      FacetFiltersAppend(args, a[1..], b);
      calc {
        FacetFilters(args, a + b);
        Pushed(args, a[0]) + FacetFilters(args, a[1..] + b);
        Pushed(args, a[0]) + (FacetFilters(args, a[1..]) + FacetFilters(args, b));
        (Pushed(args, a[0]) + FacetFilters(args, a[1..])) + FacetFilters(args, b);
      }
    } else {
      assert a + b == b;
    }
  }

  /** Pushes in the order the statements are written: three statements. */
  lemma FacetFilters3(args: Args, f: Facet, g: Facet, h: Facet)
    ensures FacetFilters(args, [f, g, h]) == Pushed(args, f) + Pushed(args, g) + Pushed(args, h)
  {
    assert [f, g, h] == [f] + [g] + [h];
    FacetFiltersAppend(args, [f] + [g], [h]);
    FacetFiltersAppend(args, [f], [g]);
    FacetFilters1(args, f);
    FacetFilters1(args, g);
    FacetFilters1(args, h);
  }

  /** Pushes in the order the statements are written: two statements. */
  lemma FacetFilters2(args: Args, f: Facet, g: Facet)
    ensures FacetFilters(args, [f, g]) == Pushed(args, f) + Pushed(args, g)
  {
    assert [f, g] == [f] + [g];
    FacetFiltersAppend(args, [f], [g]);
    FacetFilters1(args, f);
    FacetFilters1(args, g);
  }

  lemma FacetFilters1(args: Args, f: Facet)
    ensures FacetFilters(args, [f]) == Pushed(args, f)
  {
    assert [f][1..] == [];
  }

  /** Pushes in the order the statements are written: four statements. */
  lemma FacetFilters4(args: Args, f: Facet, g: Facet, h: Facet, k: Facet)
    ensures FacetFilters(args, [f, g, h, k])
         == Pushed(args, f) + Pushed(args, g) + Pushed(args, h) + Pushed(args, k)
  {
    assert [f, g, h, k] == [f, g, h] + [k];
    FacetFiltersAppend(args, [f, g, h], [k]);
    FacetFilters3(args, f, g, h);
    FacetFilters1(args, k);
  }

  /** One more statement pushes what it pushes after the ones before it. */
  lemma FacetFiltersSnoc(args: Args, table: seq<Facet>, i: nat)
    requires i < |table|
    ensures FacetFilters(args, table[..i + 1]) == FacetFilters(args, table[..i]) + Pushed(args, table[i])
  {
    assert table[..i + 1] == table[..i] + [table[i]];
    FacetFiltersAppend(args, table[..i], [table[i]]);
    FacetFilters1(args, table[i]);
  }

  /** The statements themselves: each appends its filter in place when its argument is truthy. */
  method PushFilters(args: Args, table: seq<Facet>) returns (filters: seq<Json>)
    ensures filters == FacetFilters(args, table)
  {
    filters := [];
    var i := 0;
    while i < |table|
      invariant 0 <= i <= |table|
      invariant filters == FacetFilters(args, table[..i])
    {
      var v := Arg(args, table[i].arg);
      if Truthy(v) {
        filters := filters + [SearchFilter(table[i].facet, v)];
      }
      assert filters == FacetFilters(args, table[..i]) + Pushed(args, table[i]);
      FacetFiltersSnoc(args, table, i);
      i := i + 1;
    }
    assert table[..i] == table;
  }

  /** A filter is sent exactly when some statement pushes it: its facet is in
      the table and that entry's argument is truthy and supplies the Id. */
  lemma {:induction false} FacetFiltersMembers(args: Args, table: seq<Facet>, f: string, v: Json)
    ensures SearchFilter(f, v) in FacetFilters(args, table) <==>
      exists i :: 0 <= i < |table| && table[i].facet == f && Truthy(Arg(args, table[i].arg))
                  && v == Arg(args, table[i].arg)
    decreases |table|
  {
    if |table| > 0 {
      FacetFiltersMembers(args, table[1..], f, v);
      var w := Arg(args, table[0].arg);
      if SearchFilter(f, v) == SearchFilter(table[0].facet, w) {
        assert SearchFilter(f, v).fields["Facet"] == Str(f);
        assert SearchFilter(f, v).fields["Id"] == v;
      }
      if exists i :: 0 <= i < |table| && table[i].facet == f && Truthy(Arg(args, table[i].arg))
                     && v == Arg(args, table[i].arg) {
        var i :| 0 <= i < |table| && table[i].facet == f && Truthy(Arg(args, table[i].arg))
                 && v == Arg(args, table[i].arg);
        if i > 0 { assert table[1..][i - 1] == table[i]; }
      }
      if exists i :: 0 <= i < |table[1..]| && table[1..][i].facet == f
                     && Truthy(Arg(args, table[1..][i].arg)) && v == Arg(args, table[1..][i].arg) {
        var i :| 0 <= i < |table[1..]| && table[1..][i].facet == f
                 && Truthy(Arg(args, table[1..][i].arg)) && v == Arg(args, table[1..][i].arg);
        assert table[i + 1] == table[1..][i];
      }
    }
  }

  /** With every argument supplied, each statement pushes its filter, in order. */
  lemma {:induction false} FacetFiltersAll(args: Args, table: seq<Facet>)
    requires forall i :: 0 <= i < |table| ==> Truthy(Arg(args, table[i].arg))
    ensures FacetFilters(args, table)
      == seq(|table|, i requires 0 <= i < |table| => SearchFilter(table[i].facet, Arg(args, table[i].arg)))
    decreases |table|
  {
    if |table| > 0 {
      FacetFiltersAll(args, table[1..]);
    }
  }

  /** With no argument supplied, no filter is pushed. */
  lemma {:induction false} FacetFiltersNone(args: Args, table: seq<Facet>)
    requires forall i :: 0 <= i < |table| ==> !Truthy(Arg(args, table[i].arg))
    ensures FacetFilters(args, table) == []
    decreases |table|
  {
    if |table| > 0 {
      FacetFiltersNone(args, table[1..]);
    }
  }

  /** An argument no statement reads cannot change the filter list. */
  lemma {:induction false} FacetFiltersIgnore(args: Args, table: seq<Facet>, k: string, v: Json)
    requires forall i :: 0 <= i < |table| ==> table[i].arg != k
    ensures FacetFilters(args[k := v], table) == FacetFilters(args, table)
    decreases |table|
  {
    if |table| > 0 {
      FacetFiltersIgnore(args, table[1..], k, v);
    }
  }

  /** The search payload the handlers build from their arguments:
      `includeDeleted || false`, no view-permission filtering, the caller's
      search text as given, the filters of `table` pushed in order, and
      paging with `size` as the default page size. */
  function FacetSearch(args: Args, table: seq<Facet>, size: int): Json {
    Obj(map["OnlyShowDeleted" := Or(Arg(args, "includeDeleted"), Bool(false)),
            "FilterByViewPermission" := Bool(false),
            "SearchText" := Arg(args, "searchText"),
            "Filters" := Arr(FacetFilters(args, table)),
            "Paging" := Paging(args, size)])
  }

  /** The handlers' construction: the literal with an empty `Filters`, then
      the conditional pushes. */
  method BuildFacetSearch(args: Args, table: seq<Facet>, size: int) returns (payload: Json)
    ensures payload == FacetSearch(args, table, size)
  {
    var filters := PushFilters(args, table);
    payload := Obj(map["OnlyShowDeleted" := Or(Arg(args, "includeDeleted"), Bool(false)),
                       "FilterByViewPermission" := Bool(false),
                       "SearchText" := Arg(args, "searchText"),
                       "Filters" := Arr(filters),
                       "Paging" := Paging(args, size)]);
  }

  /** An argument neither the fixed fields nor any filter statement reads
      cannot change the payload. */
  lemma FacetSearchIgnore(args: Args, table: seq<Facet>, size: int, k: string, v: Json)
    requires forall i :: 0 <= i < |table| ==> table[i].arg != k
    requires k != "includeDeleted" && k != "searchText" && k != "pageIndex" && k != "pageSize"
    ensures FacetSearch(args[k := v], table, size) == FacetSearch(args, table, size)
  {
    FacetFiltersIgnore(args, table, k, v);
    assert Arg(args[k := v], "includeDeleted") == Arg(args, "includeDeleted");
    assert Arg(args[k := v], "searchText") == Arg(args, "searchText");
    assert Arg(args[k := v], "pageIndex") == Arg(args, "pageIndex");
    assert Arg(args[k := v], "pageSize") == Arg(args, "pageSize");
  }

  /** `{PageIndex: args.pageIndex || 0, PageSize: args.pageSize || size}` */
  function Paging(args: Args, size: int): Json {
    Obj(map["PageIndex" := Or(Arg(args, "pageIndex"), Num(0)),
            "PageSize" := Or(Arg(args, "pageSize"), Num(size))])
  }

  /** A fixed page: `{PageIndex: 0, PageSize: size}` */
  function FixedPage(size: int): Json {
    Obj(map["PageIndex" := Num(0), "PageSize" := Num(size)])
  }

  /** Paging falls back to its defaults exactly for falsy arguments, so 0,
      "" and false count as missing. */
  lemma PagingDefaults(args: Args, size: int)
    ensures var p := Paging(args, size).fields;
      (!Truthy(Arg(args, "pageIndex")) ==> p["PageIndex"] == Num(0))
      && (Truthy(Arg(args, "pageIndex")) ==> p["PageIndex"] == Arg(args, "pageIndex"))
      && (!Truthy(Arg(args, "pageSize")) ==> p["PageSize"] == Num(size))
      && (Truthy(Arg(args, "pageSize")) ==> p["PageSize"] == Arg(args, "pageSize"))
  {
  }

  // ----- page arithmetic -----

  /** The one-based page figure, `(args.pageIndex || 0) + 1`. */
  function PageShown(pageIndex: Json): (t: string)
    ensures pageIndex.Num? && pageIndex.n >= 0 ==> t == NatToString(pageIndex.n + 1)
    ensures !Truthy(pageIndex) ==> t == "1"
  {
    ToStr(Plus(Or(pageIndex, Num(0)), Num(1)))
  }

  /** Distinct zero-based page indexes are shown as distinct pages. */
  lemma PageShownDistinct(m: nat, n: nat)
    requires m != n
    ensures PageShown(Num(m)) != PageShown(Num(n))
  {
    if PageShown(Num(m)) == PageShown(Num(n)) {
      NatToStringInjective(m + 1, n + 1);
    }
  }

  /** The ceiling of x / y for a non-zero divisor. */
  function CeilDiv(x: int, y: int): (c: int)
    requires y != 0
    ensures y > 0 ==> (c - 1) * y < x <= c * y
    ensures y < 0 ==> c * y <= x < (c - 1) * y
  {
    if y > 0 then -((-x) / y) else -(x / (-y))
  }

  /** `String(Math.ceil(a / b))`, including the non-finite results. */
  function CeilDivText(a: Json, b: Json): (t: string)
    ensures ToNumber(a).Some? && ToNumber(b).Some? && ToNumber(b).value != 0 ==>
      t == IntToString(CeilDiv(ToNumber(a).value, ToNumber(b).value))
    ensures ToNumber(a).None? || ToNumber(b).None? ==> t == "NaN"
  {
    var x, y := ToNumber(a), ToNumber(b);
    if x.None? || y.None? then "NaN"
    else if y.value != 0 then IntToString(CeilDiv(x.value, y.value))
    else if x.value == 0 then "NaN"
    else if x.value > 0 then "Infinity"
    else "-Infinity"
  }

  /** "Page <(pageIndex || 0) + 1> of <ceil(ItemCount / (pageSize || size))>",
      the footer of the user and asset searches. */
  function PageFooter(args: Args, count: Json, size: int): Footer {
    Footer(PageShown(Arg(args, "pageIndex")), CeilDivText(count, Or(Arg(args, "pageSize"), Num(size))))
  }

  /** The page count divides by the page size, or by the default when none
      is given, so for a numeric page size or none the divisor is never zero
      and the count is the ceiling of the item count over it; the page
      figure is one more than the page index, and 1 without one. */
  lemma PageFooterFigures(args: Args, count: int, size: int)
    requires size != 0
    requires Arg(args, "pageSize").Undefined? || Arg(args, "pageSize").Num?
    ensures var divisor := ToNumber(Or(Arg(args, "pageSize"), Num(size)));
      var f := PageFooter(args, Num(count), size);
      divisor.Some? && divisor.value != 0
      && f.pages == IntToString(CeilDiv(count, divisor.value))
      && (Arg(args, "pageSize").Undefined? ==> divisor.value == size)
      && (Arg(args, "pageIndex").Num? && Arg(args, "pageIndex").n >= 0 ==> f.page == NatToString(Arg(args, "pageIndex").n + 1))
      && (!Truthy(Arg(args, "pageIndex")) ==> f.page == "1")
  {
  }

  // ----- query parameters -----

  /** `{$p: pageIndex || 0, $s: pageSize || size, $d: sortDirection || 'Descending'}` */
  function ListParams(args: Args, size: int): map<string, Json> {
    map["$p" := Or(Arg(args, "pageIndex"), Num(0)),
        "$s" := Or(Arg(args, "pageSize"), Num(size)),
        "$d" := Or(Arg(args, "sortDirection"), Str("Descending"))]
  }

  /** The list parameters fall back to page 0, `size` records and descending order. */
  lemma ListParamsDefaults(args: Args, size: int)
    ensures var p := ListParams(args, size);
      p.Keys == {"$p", "$s", "$d"}
      && (!Truthy(Arg(args, "pageIndex")) ==> p["$p"] == Num(0))
      && (!Truthy(Arg(args, "pageSize")) ==> p["$s"] == Num(size))
      && (!Truthy(Arg(args, "sortDirection")) ==> p["$d"] == Str("Descending"))
      && (Truthy(Arg(args, "sortDirection")) ==> p["$d"] == Arg(args, "sortDirection"))
  {
  }

  /** `if (v) m.key = v` */
  function Assigned(m: map<string, Json>, key: string, v: Json): map<string, Json> {
    if Truthy(v) then m[key := v] else m
  }

  /** The date-bound parameters: `dateFrom` and `dateTo`, each only when given. */
  function DateBounds(args: Args): map<string, Json> {
    Assigned(Assigned(map[], "dateFrom", Arg(args, "dateFrom")), "dateTo", Arg(args, "dateTo"))
  }

  /** The statements: an empty object and two conditional assignments. */
  method BuildDateBounds(args: Args) returns (params: map<string, Json>)
    ensures params == DateBounds(args)
  {
    params := map[];
    if Truthy(Arg(args, "dateFrom")) {
      params := params["dateFrom" := Arg(args, "dateFrom")];
    }
    if Truthy(Arg(args, "dateTo")) {
      params := params["dateTo" := Arg(args, "dateTo")];
    }
  }

  /** A bound is sent exactly when it is given, with the value given, and
      nothing else is sent. */
  lemma DateBoundsGiven(args: Args)
    ensures forall k :: k in DateBounds(args) <==> (k == "dateFrom" || k == "dateTo") && Truthy(Arg(args, k))
    ensures forall k :: k in DateBounds(args) ==> DateBounds(args)[k] == Arg(args, k)
  {
  }
}
