// The enhanced location tools: the district's locations grouped by type,
// location searches, rooms with their filters and floors, buildings with a
// fallback over all locations, location types, special rooms, assets at a
// location and the look-up by building code, with the module's 404 mapping.
module Locations {
  import opened Text
  import opened Js
  import opened Protocol
  import opened Collections
  import opened Shapes

  /** Every tool the module declares, in declaration order. */
  const LocationToolNames: seq<string> := [
    "location_get_all", "location_search_advanced", "location_get_details", "location_get_all_rooms",
    "location_get_room_details", "location_get_building_rooms", "location_get_buildings",
    "location_get_campuses", "location_get_hierarchy", "location_get_children", "location_get_types",
    "location_find_special_rooms", "location_get_available_rooms", "location_get_assets",
    "location_get_users", "location_get_tickets", "location_find_by_code"]

  /** The names the handler's switch has a case for. */
  const LocationCaseNames: seq<string> := [
    "location_get_all", "location_search_advanced", "location_get_details", "location_get_all_rooms",
    "location_get_building_rooms", "location_get_buildings", "location_get_types",
    "location_find_special_rooms", "location_get_assets", "location_find_by_code"]

  datatype Tool =
    | GetAll | SearchAdvanced | GetDetails | AllRooms | BuildingRooms | Buildings | Types
    | SpecialRooms | Assets | FindByCode

  /** The case a name selects, if any. */
  function ToolOf(name: string): (t: Option<Tool>)
    ensures t.Some? <==> name in LocationCaseNames
  {
    match name
    case "location_get_all" => Some(GetAll)
    case "location_search_advanced" => Some(SearchAdvanced)
    case "location_get_details" => Some(GetDetails)
    case "location_get_all_rooms" => Some(AllRooms)
    case "location_get_building_rooms" => Some(BuildingRooms)
    case "location_get_buildings" => Some(Buildings)
    case "location_get_types" => Some(Types)
    case "location_find_special_rooms" => Some(SpecialRooms)
    case "location_get_assets" => Some(Assets)
    case "location_find_by_code" => Some(FindByCode)
    case _ => None
  }

  function UnknownLocationTool(name: string): string {
    "Error: Unknown enhanced location tool \"" + name + "\"."
  }

  const EndpointHint := "This endpoint may not be available. Try using location_get_all or location_search_advanced instead."
  const LocationNotFound := "Location or resource not found."

  // ----- requests -----

  const SearchFacets: seq<Facet> := [Facet("LocationType", "locationType"), Facet("ParentLocation", "buildingId")]

  /** The `location_search_advanced` payload. */
  function SearchPayload(args: Args): Json {
    FacetSearch(args, SearchFacets, 100)
  }


  const ParentFacet := Facet("ParentLocation", "buildingId")

  /** The `location_find_special_rooms` payload: rooms only, optionally in one building. */
  function SpecialPayload(args: Args): Json {
    Obj(map["OnlyShowDeleted" := Bool(false),
            "FilterByViewPermission" := Bool(false),
            "SearchText" := Arg(args, "roomType"),
            "Filters" := Arr([SearchFilter("LocationType", Str("Room"))] + FacetFilters(args, [ParentFacet])),
            "Paging" := FixedPage(100)])
  }

  /** The search the code look-up falls back to. */
  function CodePayload(args: Args): Json {
    Obj(map["SearchText" := Arg(args, "code"),
            "OnlyShowDeleted" := Bool(false),
            "FilterByViewPermission" := Bool(false),
            "Paging" := FixedPage(10)])
  }

  function LocationPath(args: Args, k: string): string {
    "/locations/" + ToStr(Arg(args, k))
  }

  /** The first request each case sends. */
  function LocationRequest(tool: Tool, args: Args): Request {
    match tool
    case GetAll => GetReq("/locations/all")
    case SearchAdvanced => PostReq("/locations", SearchPayload(args))
    case GetDetails => GetReq(LocationPath(args, "locationId"))
    case AllRooms => GetReq("/locations/rooms")
    case BuildingRooms => GetReq(LocationPath(args, "buildingId") + "/rooms")
    case Buildings => GetReq("/locations/buildings")
    case Types => GetReq("/locations/types")
    case SpecialRooms => PostReq("/locations", SpecialPayload(args))
    case Assets => GetReq(LocationPath(args, "locationId") + "/assets")
    case FindByCode => GetReq("/locations/code/" + ToStr(Arg(args, "code")))
  }

  // ----- the domain rules -----

  /** `loc.LocationTypeName || 'Unknown'`, as a property name. */
  function TypeKey(loc: Json): string {
    ToStr(Or(Get(loc, "LocationTypeName"), Str("Unknown")))
  }

  /** `room.Floor ? `Floor ${room.Floor}` : 'Unspecified'` */
  function FloorKey(room: Json): string {
    var floor := Get(room, "Floor");
    if Truthy(floor) then "Floor " + ToStr(floor) else "Unspecified"
  }

  /** The room filters: an exact room type, and a truthy capacity of at
      least the minimum, each applied only when its argument is truthy. */
  function RoomTypeIs(args: Args): Json -> bool {
    FieldIs("RoomType", Arg(args, "roomType"))
  }

  function CapacityAtLeast(args: Args): Json -> bool {
    r => Truthy(Get(r, "Capacity")) && LessEq(Arg(args, "minCapacity"), Get(r, "Capacity"))
  }

  /** Both room filters as one condition, leaving out each whose argument is falsy. */
  function RoomWanted(args: Args): Json -> bool {
    var t, c := Truthy(Arg(args, "roomType")), Truthy(Arg(args, "minCapacity"));
    if t && c then Both(RoomTypeIs(args), CapacityAtLeast(args))
    else if t then RoomTypeIs(args)
    else if c then CapacityAtLeast(args)
    else Anything()
  }

  /** The rooms left after the filters, read for the fields the filters use. */
  function FilterRooms(args: Args, rooms: seq<Json>): Outcome<seq<Json>> {
    var byType :- ByType(args, rooms);
    ByCapacity(args, byType)
  }

  function ByType(args: Args, rooms: seq<Json>): (r: Outcome<seq<Json>>)
    ensures r.Value? ==> r.value == if Truthy(Arg(args, "roomType")) then Filter(rooms, RoomTypeIs(args)) else rooms
  {
    if Truthy(Arg(args, "roomType")) then
      var ys :- Records(rooms, "RoomType"); Value(Filter(ys, RoomTypeIs(args)))
    else Value(rooms)
  }

  function ByCapacity(args: Args, rooms: seq<Json>): (r: Outcome<seq<Json>>)
    ensures r.Value? ==> r.value == if Truthy(Arg(args, "minCapacity")) then Filter(rooms, CapacityAtLeast(args)) else rooms
  {
    if Truthy(Arg(args, "minCapacity")) then
      var ys :- Records(rooms, "Capacity"); Value(Filter(ys, CapacityAtLeast(args)))
    else Value(rooms)
  }

  /** A type name the fallback filter can lowercase, or none at all. */
  predicate TypeNameReadable(loc: Json) {
    var t := Get(loc, "LocationTypeName");
    !loc.Null? && !loc.Undefined? && (t.Null? || t.Undefined? || t.Str?)
  }

  /** The locations the fallback filter walks: reading a null location
      throws, and a type name that is not a string has no `toLowerCase`. */
  function TypeNamed(xs: seq<Json>): (r: Outcome<seq<Json>>)
    ensures r.Value? <==> forall i :: 0 <= i < |xs| ==> TypeNameReadable(xs[i])
    ensures r.Value? ==> r.value == xs
    decreases |xs|
  {
    if |xs| == 0 then Value([])
    else if xs[0].Null? || xs[0].Undefined? then Throws(TypeError(ReadError(xs[0], "LocationTypeName")))
    else if !TypeNameReadable(xs[0]) then Throws(NotAFunction("loc.LocationTypeName?.toLowerCase"))
    else
      var rest :- TypeNamed(xs[1..]);
      Value([xs[0]] + rest)
  }

  /** The building fallback: a type name mentioning "building" in any case,
      or a top-level location that is not the district itself. */
  predicate IsBuilding(loc: Json) {
    var t := Get(loc, "LocationTypeName");
    (t.Str? && Contains(Lower(t.s), "building"))
    || (!Truthy(Get(loc, "ParentLocationId")) && !StrictEquals(t, Str("District")))
  }

  // ----- what each case makes of the replies -----

  /** Where the district listing pushes its locations. */
  const AllSite := "locationsByType[type].push"

  function AllLocations(reply: Json): Outcome<Report> {
    var locations := ArrayOrItems(reply);
    if NoLength(locations) then Value(Message("No locations found in the district."))
    else
      var xs :- AsList(locations, "locations.forEach");
      var groups :- CappedGroupsAsWritten(xs, TypeKey, 5, "LocationTypeName", AllSite);
      Value(Grouped(Num(|xs|), groups))
  }

  function RoomList(args: Args, reply: Json): Outcome<Report> {
    var rooms := ItemsOrSelf(reply);
    var filtered := Truthy(Arg(args, "roomType")) || Truthy(Arg(args, "minCapacity"));
    if NoLength(rooms) then Value(Message("No rooms found."))
    else
      var xs :- AsList(rooms, if filtered then "filteredRooms.filter" else SliceSite(rooms, "filteredRooms", "map"));
      var kept :- FilterRooms(args, xs);
      var shown :- Records(Take(kept, 20), "RoomNumber");
      Value(Listing(Num(|kept|), shown, |kept| - |shown|, None))
  }

  function FloorList(reply: Json): Outcome<Report> {
    var rooms := ItemsOrSelf(reply);
    if NoLength(rooms) then Value(Message("No rooms found in this building."))
    else
      var xs :- AsList(rooms, "rooms.forEach");
      var ys :- Records(xs, "Floor");
      Value(Grouped(Num(|ys|), CappedGroups(ys, FloorKey, |ys|)))
  }

  /** The buildings reply, or when it is empty the fallback over all locations. */
  function BuildingList(reply: Json, call: Upstream): Outcome<Report> {
    var buildings := ItemsOrSelf(reply);
    if NoLength(buildings) then
      var all :- call(GetReq("/locations/all"));
      var xs :- AsList(ArrayOrItems(all), "allLocations.filter");
      var ys :- TypeNamed(xs);
      var kept := Filter(ys, IsBuilding);
      if |kept| == 0 then Value(Message("No buildings found."))
      else Value(Listing(Num(|kept|), kept, 0, None))
    else WholeList(buildings, "No buildings found.", "buildings.map", "LocationName")
  }

  /** The code look-up, or when it gives nothing the first exact match of a search. */
  function CodeLookup(args: Args, reply: Json, call: Upstream): Outcome<Report> {
    var location := ItemOrSelf(reply);
    var code := Arg(args, "code");
    if Truthy(location) then Value(Details(location))
    else
      var found :- call(PostReq("/locations", CodePayload(args)));
      var matches :- Matching(found, "Abbreviation", code, "searchResponse?.Items?.filter");
      if |matches| == 0 then Value(Message("No location found with code: " + ToStr(code)))
      else Value(Details(matches[0]))
  }

  function AssetList(reply: Json): Outcome<Report> {
    var assets := ItemsOrSelf(reply);
    if NoLength(assets) then Value(Message("No assets found at this location."))
    else
      var xs :- AsList(assets, SliceSite(assets, "assets", "map"));
      var shown :- Records(Take(xs, 10), "AssetTag");
      Value(Listing(Num(|xs|), shown, |xs| - |shown|, None))
  }

  function Render(tool: Tool, args: Args, reply: Json, call: Upstream): Outcome<Report> {
    match tool
    case GetAll => AllLocations(reply)
    case SearchAdvanced =>
      TopItems(reply, 10, "No locations found matching your criteria.", "response.Items", "LocationName")
    case GetDetails =>
      var location := ItemOrSelf(reply);
      Value(if Truthy(location) then Details(location) else Message("Location not found."))
    case AllRooms => RoomList(args, reply)
    case BuildingRooms => FloorList(reply)
    case Buildings => BuildingList(reply, call)
    case Types => WholeList(ItemsOrSelf(reply), "No location types found.", "types.map", "Name")
    case SpecialRooms =>
      WholeList(ItemsOrEmpty(reply), "No " + ToStr(Arg(args, "roomType")) + " rooms found.", "specialRooms.map", "LocationName")
    case Assets => AssetList(reply)
    case FindByCode => CodeLookup(args, reply, call)
  }

  function LocationsCatch(name: string, e: Exception): Report {
    CatchNotFound(e, Contains(name, "buildings") || Contains(name, "campuses"), EndpointHint, LocationNotFound)
  }

  function Answer(name: string, tool: Tool, args: Args, call: Upstream): Envelope {
    match (var reply :- call(LocationRequest(tool, args)); Render(tool, args, reply, call))
    case Value(report) => Envelope(report)
    case Throws(e) => Envelope(LocationsCatch(name, e))
  }

  /** `handleEnhancedLocationTool` */
  function LocationTool(name: string, args: Args, call: Upstream): Envelope {
    match ToolOf(name)
    case None => Envelope(Message(UnknownLocationTool(name)))
    case Some(tool) => Answer(name, tool, args, call)
  }

  // ----- properties -----

  /** A reply that renders without a throw is the answer as it is. */
  lemma Rendered(name: string, tool: Tool, args: Args, call: Upstream, reply: Json)
    requires call(LocationRequest(tool, args)) == Value(reply)
    requires Render(tool, args, reply, call).Value?
    ensures Answer(name, tool, args, call) == Envelope(Render(tool, args, reply, call).value)
  {
  }

  /** A reply whose rendering throws is answered by the module's `catch`. */
  lemma RenderFailed(name: string, tool: Tool, args: Args, call: Upstream, reply: Json)
    requires call(LocationRequest(tool, args)) == Value(reply)
    requires Render(tool, args, reply, call).Throws?
    ensures Answer(name, tool, args, call) == Envelope(LocationsCatch(name, Render(tool, args, reply, call).error))
  {
  }

  /** A name without a case gets the unknown-tool text and sends nothing. */
  lemma UnknownName(name: string, args: Args, call: Upstream)
    requires name !in LocationCaseNames
    ensures LocationTool(name, args, call) == Envelope(Message(UnknownLocationTool(name)))
  {
  }

  /** A thrown error is mapped by the tool's name: a 404 gives the endpoint
      hint exactly for names mentioning 'buildings' or 'campuses' and the
      generic text for the others; no other error is mapped. */
  lemma ErrorMapping(name: string, args: Args, call: Upstream)
    requires ToolOf(name).Some?
    requires call(LocationRequest(ToolOf(name).value, args)).Throws?
    ensures var e := call(LocationRequest(ToolOf(name).value, args)).error;
      var r := LocationTool(name, args, call).report;
      (NotFound(e) ==> (r == Message(EndpointHint) <==> Contains(name, "buildings") || Contains(name, "campuses")))
      && (NotFound(e) ==> (r == Message(LocationNotFound) <==> !(Contains(name, "buildings") || Contains(name, "campuses"))))
      && (!NotFound(e) ==> r == ErrorText(e))
  {
    assert EndpointHint != LocationNotFound by {
      assert |EndpointHint| != |LocationNotFound|;
    }
  }

  lemma BuildingsNameMentions()
    ensures Contains("location_get_buildings", "buildings")
  {
    assert "location_get_buildings" == "location_get_" + "buildings" + "";
    ContainsMiddle("location_get_", "buildings", "");
  }

  /** A 404 from the buildings endpoint gives the endpoint hint. */
  lemma BuildingsNotFound(args: Args, call: Upstream)
    requires call(GetReq("/locations/buildings")).Throws?
    requires NotFound(call(GetReq("/locations/buildings")).error)
    ensures LocationTool("location_get_buildings", args, call) == Envelope(Message(EndpointHint))
  {
    BuildingsNameMentions();
  }

  /** The search pushes a LocationType filter and then a ParentLocation
      filter, each only for a truthy argument, and pages 100 at a time by default. */
  lemma SearchFilters(args: Args)
    ensures var p := SearchPayload(args).fields;
      p["Filters"] == Arr(Pushed(args, Facet("LocationType", "locationType"))
                          + Pushed(args, Facet("ParentLocation", "buildingId")))
      && p["Paging"] == Paging(args, 100)
      && p["FilterByViewPermission"] == Bool(false)
  {
    FacetFilters2(args, Facet("LocationType", "locationType"), Facet("ParentLocation", "buildingId"));
  }

  /** A special-room search looks only at rooms, and in one building exactly
      when a building is given. */
  lemma SpecialRoomFilters(args: Args)
    ensures var fs := SpecialPayload(args).fields["Filters"].items;
      fs[0] == SearchFilter("LocationType", Str("Room"))
      && |fs| <= 2
      && (|fs| == 2 <==> Truthy(Arg(args, "buildingId")))
      && (|fs| == 2 ==> fs[1] == SearchFilter("ParentLocation", Arg(args, "buildingId")))
  {
    FacetFilters1(args, ParentFacet);
  }

  /** The two room filters in a row keep exactly the rooms the combined condition accepts. */
  lemma FilterRoomsMeaning(args: Args, rooms: seq<Json>)
    requires FilterRooms(args, rooms).Value?
    ensures FilterRooms(args, rooms) == Value(Filter(rooms, RoomWanted(args)))
  {
    var t, c := Truthy(Arg(args, "roomType")), Truthy(Arg(args, "minCapacity"));
    var byType := ByType(args, rooms).value;
    assert FilterRooms(args, rooms) == ByCapacity(args, byType);
    if t && c {
      FilterBoth(rooms, RoomTypeIs(args), CapacityAtLeast(args));
    } else if !t && !c {
      FilterAnything(rooms);
    }
  }

  /** A room listing is the filtered reply's rooms, at most 20 of them shown. */
  lemma RoomListKept(args: Args, reply: Json)
    requires RoomList(args, reply).Value? && RoomList(args, reply).value.Listing?
    ensures ItemsOrSelf(reply).Arr? && FilterRooms(args, ItemsOrSelf(reply).items).Value?
    ensures var kept := FilterRooms(args, ItemsOrSelf(reply).items).value;
      RoomList(args, reply).value == Listing(Num(|kept|), Take(kept, 20), |kept| - Min(20, |kept|), None)
  {
    var rooms := ItemsOrSelf(reply);
    assert !NoLength(rooms) && rooms.Arr?;
    var kept := FilterRooms(args, rooms.items).value;
    assert Records(Take(kept, 20), "RoomNumber").Value?;
  }

  /** The room listing shows at most 20 of the rooms that pass both
      filters, in reply order, and counts all of them. */
  lemma RoomsListed(args: Args, reply: Json)
    requires RoomList(args, reply).Value? && RoomList(args, reply).value.Listing?
    ensures ItemsOrSelf(reply).Arr?
    ensures var kept := Filter(ItemsOrSelf(reply).items, RoomWanted(args));
      var r := RoomList(args, reply).value;
      r.listed == kept[..Min(20, |kept|)] && r.count == Num(|kept|) && r.more == |kept| - |r.listed|
  {
    RoomListKept(args, reply);
    FilterRoomsMeaning(args, ItemsOrSelf(reply).items);
  }

  /** Rooms are grouped by floor, every room of a floor listed under it. */
  lemma FloorGroups(reply: Json, i: nat)
    requires FloorList(reply).Value? && FloorList(reply).value.Grouped?
    requires i < |FloorList(reply).value.groups|
    ensures ItemsOrSelf(reply).Arr?
    ensures var xs := ItemsOrSelf(reply).items;
      var g := FloorList(reply).value.groups[i];
      g.listed == Having(xs, FloorKey, g.key) && g.size == |g.listed| > 0 && g.unlisted == 0
  {
    var xs := ItemsOrSelf(reply).items;
    assert Records(xs, "Floor") == Value(xs);
    assert FloorList(reply).value.groups == CappedGroups(xs, FloorKey, |xs|);
    CappedGroupAt(xs, FloorKey, |xs|, i);
    assert |Having(xs, FloorKey, FloorList(reply).value.groups[i].key)| <= |xs|;
  }

  /** A room with a floor is filed under "Floor <n>", a room without one under "Unspecified". */
  lemma FloorKeyCases(room: Json, n: nat)
    ensures Get(room, "Floor") == Num(n) && n > 0 ==> FloorKey(room) == "Floor " + NatToString(n)
    ensures !Truthy(Get(room, "Floor")) ==> FloorKey(room) == "Unspecified"
  {
  }

  /** When the buildings endpoint gives an empty list, the answer lists
      exactly the locations the building rule accepts, in reply order. */
  lemma BuildingFallback(name: string, args: Args, call: Upstream, reply: Json, all: Json)
    requires call(GetReq("/locations/buildings")) == Value(reply)
    requires NoLength(ItemsOrSelf(reply))
    requires call(GetReq("/locations/all")) == Value(all)
    requires Answer(name, Buildings, args, call).report.Listing?
    ensures ArrayOrItems(all).Arr?
    ensures Answer(name, Buildings, args, call).report.listed == Filter(ArrayOrItems(all).items, IsBuilding)
  {
    assert Render(Buildings, args, reply, call) == BuildingList(reply, call);
  }

  /** A type name with "Building" in it marks a building whatever its parent. */
  lemma BuildingByName(loc: Json, a: string, b: string)
    requires Get(loc, "LocationTypeName") == Str(a + "Building" + b)
    ensures IsBuilding(loc)
  {
    LowerConcat(a + "Building", b);
    LowerConcat(a, "Building");
    assert Lower("Building") == "building";
    ContainsMiddle(Lower(a), "building", Lower(b));
  }

  /** The district location itself is never taken for a building. */
  lemma DistrictNotBuilding(loc: Json)
    requires Get(loc, "LocationTypeName") == Str("District")
    ensures !IsBuilding(loc)
  {
    assert Lower("District") == "district";
    ContainsSameLength("district", "building");
  }

  /** When the code look-up gives nothing, the answer is the first search
      hit whose `Abbreviation` equals the code exactly. */
  lemma CodeFallbackFirst(args: Args, reply: Json, call: Upstream, found: Json)
    requires !Truthy(ItemOrSelf(reply))
    requires call(PostReq("/locations", CodePayload(args))) == Value(found)
    requires CodeLookup(args, reply, call).Value? && CodeLookup(args, reply, call).value.Details?
    ensures Get(found, "Items").Arr?
    ensures var items := Get(found, "Items").items;
      var loc := CodeLookup(args, reply, call).value.entity;
      exists i :: 0 <= i < |items| && items[i] == loc
        && StrictEquals(Get(loc, "Abbreviation"), Arg(args, "code"))
        && forall j :: 0 <= j < i ==> !StrictEquals(Get(items[j], "Abbreviation"), Arg(args, "code"))
  {
    var code := Arg(args, "code");
    var site := "searchResponse?.Items?.filter";
    var m := Matching(found, "Abbreviation", code, site);
    assert m.Value? && |m.value| > 0;
    MatchingFound(found, "Abbreviation", code, site);
    FilterFirst(Get(found, "Items").items, FieldIs("Abbreviation", code));
  }

  /** A direct hit of the code look-up is reported as it came, without a search. */
  lemma CodeDirect(name: string, args: Args, call: Upstream, reply: Json)
    requires call(GetReq("/locations/code/" + ToStr(Arg(args, "code")))) == Value(reply)
    requires Truthy(ItemOrSelf(reply))
    ensures Answer(name, FindByCode, args, call) == Envelope(Details(ItemOrSelf(reply)))
  {
    assert Render(FindByCode, args, reply, call) == CodeLookup(args, reply, call);
  }

  /** The district listing: each group shows the first five locations of its
      type and is marked "and N more" exactly when it has more than five. */
  lemma AllLocationsGroups(name: string, args: Args, call: Upstream, reply: Json, i: nat)
    requires call(GetReq("/locations/all")) == Value(reply)
    requires Answer(name, GetAll, args, call).report.Grouped?
    requires i < |Answer(name, GetAll, args, call).report.groups|
    ensures ArrayOrItems(reply).Arr?
    ensures var xs := ArrayOrItems(reply).items;
      var g := Answer(name, GetAll, args, call).report.groups[i];
      g.size == |Having(xs, TypeKey, g.key)| > 0
      && g.listed == Having(xs, TypeKey, g.key)[..|g.listed|]
      && |g.listed| == Min(5, g.size)
      && (g.unlisted > 0 <==> g.size > 5)
      && forall j :: 0 <= j < |xs| ==> !Inherited(TypeKey(xs[j]))
  {
    assert LocationRequest(GetAll, args) == GetReq("/locations/all");
    var r := AllLocations(reply);
    assert Render(GetAll, args, reply, call) == r;
    assert r.Value? && Answer(name, GetAll, args, call).report == r.value;
    var xs := ArrayOrItems(reply).items;
    assert r.value.groups == CappedGroupsAsWritten(xs, TypeKey, 5, "LocationTypeName", AllSite).value;
    CappedGroupAt(xs, TypeKey, 5, i);
  }

  /** As written, a location whose type name `{}` inherits, such as
      "toString", makes the push throw, and the tool answers with that TypeError. */
  lemma AllLocationsInheritedType(name: string, args: Args, call: Upstream, xs: seq<Json>, j: nat)
    requires call(GetReq("/locations/all")) == Value(Arr(xs))
    requires forall i :: 0 <= i < |xs| ==> !xs[i].Null? && !xs[i].Undefined?
    requires j < |xs| && Inherited(TypeKey(xs[j]))
    ensures Answer(name, GetAll, args, call) == Envelope(ErrorText(NotAFunction(AllSite)))
  {
    var e := NotAFunction(AllSite);
    AllLocationsThrows(xs, j);
    assert Render(GetAll, args, Arr(xs), call) == Throws(e);
    assert LocationRequest(GetAll, args) == GetReq("/locations/all");
    RenderFailed(name, GetAll, args, call, Arr(xs));
    assert !NotFound(e);
  }

  lemma AllLocationsThrows(xs: seq<Json>, j: nat)
    requires forall i :: 0 <= i < |xs| ==> !xs[i].Null? && !xs[i].Undefined?
    requires j < |xs| && Inherited(TypeKey(xs[j]))
    ensures AllLocations(Arr(xs)) == Throws(NotAFunction(AllSite))
  {
    assert CappedGroupsAsWritten(xs, TypeKey, 5, "LocationTypeName", AllSite).Throws?;
  }
}
