# IncidentIQ MCP server, modelled in Dafny

The IncidentIQ MCP server exposes the IncidentIQ K-12 service-management REST
API as Model Context Protocol tools. A client lists the tools, and then calls
one by name with an arguments object. The server routes the call by name
prefix to a tool family (tickets, users, assets, locations). Each handler then:

1. builds one or more requests from the arguments: a search payload with
   paging defaults and an ordered `{Facet, Id}` filter list, an endpoint
   path, or `$p`/`$s`/`$d` query parameters;
2. sends them through the API client;
3. pulls the records out of whichever reply shape came back;
4. branches on an empty result, a 404 or any other error;
5. wraps the outcome as `{content: [{type: 'text', text}]}`.

This project models these steps once the network is abstracted, except for
what "## Left out" lists. The API is a
function `Upstream` from the request a handler builds to the reply body it
receives, or to the exception it throws (`Protocol.Upstream`). A handler is a
function of the tool name, the arguments and that function. The modules
follow the program:

- `Text`: the string operations the code relies on (`startsWith`,
  `includes`, `split`, `join`, `trim`, ASCII `toLowerCase`, decimal
  rendering, `encodeURIComponent`).
- `Js`: JavaScript values as the code sees them, their truthiness, and the
  operators applied to them (`||`, `?.`, `.`, `===`, `+`, `-`, `<`, template
  interpolation).
- `Protocol`: requests, arguments, the abstract `Report` a tool result's
  text is decided by, and the error envelope.
- `Collections`: `filter`, `slice`, stable `sort` (also in place on an
  array), `reduce` and `+=` accumulation, grouping into a record filled by a
  `forEach` loop, and `Object.entries` order.
- `Shapes`: the reply normalisers, list walking, exact-match look-ups, the
  search payload shared by the handlers, paging defaults and page
  arithmetic.
- `Client`: the API client (`src/api/client.ts`).
- `Tickets`, `Users`, `Assets`, `Locations`, `Parts`, `Issues`,
  `CustomFields`, `Analytics`, `PurchaseOrders`, `Teams`, `Notifications`,
  `Views`, `Slas`: one module per tool file under `src/tools/`.
- `Server`: the tool list and the prefix dispatcher of `src/index.ts`.

A report's exact multi-line text is abstracted by `Protocol.Report`. Fixed
messages and error texts are kept exactly, including the callee named in each
`is not a function` TypeError. For a report, the model keeps the records it
selects, in order, and the integer figures printed beside them. This includes
what a dashboard panel has already printed when it throws partway. Every
abstraction listed under "## Left out" is an exception to this. Among them are:

- the percentages printed with `toFixed`;
- the order of an object's own properties;
- string lengths and comparisons, which JavaScript counts in UTF-16 code units.

Code that changes state step by step is modelled as methods proved against
the functions that specify them. Examples:

- header assembly;
- `Filters.push` runs;
- conditional payload and parameter assignments;
- the grouping loops;
- `+=` accumulation;
- the in-place `sort`.

## Model

| member | source | states |
|---|---|---|
| Text.EndsWithAppend | src/tools/tickets.ts:514-575 | whether text ends with a suffix depends only on the last part appended, once that part is at least as long |
| Text.Find | src/api/client.ts:102 | `indexOf`: the first position at or after the start where the separator occurs, or -1 exactly when it occurs nowhere after the start |
| Text.Split | src/api/client.ts:102 | `split` always yields at least one piece |
| Text.SplitJoin | src/api/client.ts:102 | joining the pieces of a split with the separator gives back the original text |
| Text.SplitPieces | src/api/client.ts:102 | no piece of a split contains the separator |
| Text.SplitFirst | src/api/client.ts:102 | splitting on a one-character separator cuts at its first occurrence and splits the rest |
| Text.ContainsAt | src/tools/locations.ts:619 | `includes` holds exactly when some window of the text equals the searched text |
| Text.ContainsChar | src/tools/locations.ts:619 | a one-character text is included exactly when that character occurs |
| Text.Lower | src/tools/issues.ts:874 | `toLowerCase` keeps the length and lowercases each ASCII letter in place |
| Text.LowerIdempotent | src/tools/issues.ts:874 | lowercasing twice is lowercasing once, and leaves no upper-case ASCII letter |
| Text.TrimStart | src/tools/parts.ts:744 | the result is a suffix of the input, everything removed is whitespace and it does not begin with whitespace |
| Text.TrimEnd | src/tools/parts.ts:744 | the result is a prefix of the input, everything removed is whitespace and it does not end with whitespace |
| Text.TrimSpec | src/tools/parts.ts:744 | `trim` returns a slice of the input with only whitespace cut from either side and none left at either end |
| Text.TrimClean | src/tools/parts.ts:744 | text without whitespace at its ends is its own trim |
| Text.NatToString | src/tools/tickets.ts:325 | the decimal rendering is non-empty, made of digits, without a leading zero for a positive number |
| Text.NatToStringValue | src/tools/tickets.ts:325 | reading the rendered digits back gives the number |
| Text.NatToStringInjective | src/tools/tickets.ts:325 | distinct numbers render as distinct text |
| Text.Utf8 | src/tools/assets.ts:431 | a character encodes as one to four bytes |
| Text.EncodeOnlyEncoded | src/tools/assets.ts:431 | `encodeURIComponent` output contains only unreserved characters, `%` and hex digits, so no `/`, `?`, `#` or `&` reaches the path |
| Text.EncodeUnreserved | src/tools/users.ts:772 | text made of unreserved characters is left unchanged by `encodeURIComponent` |
| Js.Or | src/tools/tickets.ts:288 | `a \|\| b` is one of its operands, the first exactly when it is truthy, and truthy iff either operand is |
| Js.OrAssociative | src/tools/users.ts:558 | `(a \|\| b) \|\| c` and `a \|\| (b \|\| c)` agree |
| Js.Get | src/tools/tickets.ts:306 | `v?.k` is the field's value when `v` is an object holding `k`, and undefined otherwise |
| Js.Read | src/tools/customfields.ts:764 | `v.k` throws a TypeError exactly on null and undefined, and otherwise reads like `v?.k` |
| Js.StrictEqualsMeaning | src/tools/tickets.ts:593 | `===` holds exactly between equal primitive values other than NaN; arrays and objects are never equal |
| Js.ToStrPrimitives | src/tools/tickets.ts:325 | interpolation leaves a string alone, renders a number in decimal and a one-string array as that string |
| Js.LowerOf | src/tools/issues.ts:874 | `toLowerCase` succeeds exactly on strings and lowercases them; on null or undefined it throws the read TypeError, and on any other value `<callee> is not a function`, with the callee as the source spells it |
| Js.ToNumber | src/tools/analytics.ts:296 | numeric coercion keeps numbers, turns null into 0 and undefined into NaN |
| Js.CompareNumbers | src/tools/parts.ts:816-820 | on numbers `<` and `<=` are the integer comparisons |
| Js.CompareUndefined | src/tools/parts.ts:816-820 | neither `<` nor `<=` holds with undefined on either side |
| Js.Plus | src/tools/analytics.ts:260 | `+` adds two numbers and concatenates onto a string |
| Js.Minus | src/tools/analytics.ts:296 | `-` is the integer difference when both sides are numbers after coercion, and NaN otherwise |
| Protocol.Arg | src/tools/tickets.ts:288 | `args.k` is the supplied argument, or undefined when it is missing |
| Collections.Filter | src/tools/issues.ts:562 | `filter` keeps exactly the records that pass, never more than it was given |
| Collections.FilterAll | src/tools/issues.ts:562 | when every record passes the list comes back unchanged |
| Collections.FilterNone | src/tools/issues.ts:562 | when no record passes the result is empty |
| Collections.FilterBoth | src/tools/issues.ts:562 | filtering by one condition and then another is filtering by both |
| Collections.FilterFirst | src/tools/customfields.ts:763 | the first record kept is the first record of the list that passes |
| Collections.FilterSplit | src/tools/customfields.ts:641-652 | two complementary filters split a list without losing or adding records |
| Collections.Take | src/tools/assets.ts:405 | `slice(0, n)` is the prefix of length `min(n, length)` |
| Collections.SliceEnd | src/tools/issues.ts:855 | the end index `slice` stops at never passes the list's end |
| Collections.Cap | src/tools/customfields.ts:528-531 | a shown group keeps its key and size, lists a prefix of at most `cap` records and counts the rest |
| Collections.Having | src/tools/assets.ts:575-580 | the records with a key, in order, never more than the list |
| Collections.HavingMembers | src/tools/assets.ts:575-580 | a record is among those with key `k` exactly when it is in the list and carries `k` |
| Collections.GroupByPartition | src/tools/assets.ts:575-580 | grouping partitions the records: distinct keys, each group exactly the records with its key, and a group for every key some record carries |
| Collections.GroupRecords | src/tools/assets.ts:575-580 | the `forEach` loop filling a `{}` record: the keys it made are exactly the record's; it stops exactly when some record is null or undefined or has a key `{}` inherits, and then with the error of the first such record (the TypeError of reading its field, or `<push site> is not a function`), as `GroupIntoObject` does; otherwise it leaves the groups `GroupBy` describes |
| Collections.CappedGroupAt | src/tools/assets.ts:584-589 | each listed group holds the records with its key and is never empty |
| Collections.CappedGroupKeysDistinct | src/tools/assets.ts:584-589 | the listed groups have distinct keys |
| Collections.CappedGroupKeysCover | src/tools/assets.ts:584-589 | a key is listed exactly when some record carries it |
| Collections.EntriesOrder | src/tools/assets.ts:584 | `Object.entries` lists every group once, the array-index keys first in ascending order, then the other keys in the order they were added |
| Collections.EntriesMembers | src/tools/assets.ts:584 | `Object.entries` lists exactly the record's groups |
| Collections.GroupIntoObjectAgrees | src/tools/parts.ts:563-572 | grouping into an object literal agrees with grouping by key when no key is a name inherited from `Object.prototype` |
| Collections.GroupIntoObjectInheritedKey | src/tools/parts.ts:563-572 | a single part whose category is `constructor` makes the grouping as written throw, where grouping by key gives one group |
| Collections.GroupIntoObjectMeaning | src/tools/parts.ts:563-568 | grouping into `{}` comes back exactly when every record is an object whose key `{}` does not inherit, and is then grouping by key; otherwise it throws the error of the first record that is not: reading the field of null, or `<site> is not a function` |
| Collections.CappedGroupsAsWritten | src/tools/assets.ts:575-589 | the groups a handler prints: they come back exactly when no record is null and no key is inherited, and are then the capped groups by key in `Object.entries` order; otherwise the error of the first record the loop cannot get past |
| Collections.GroupingStopsAtFirst | src/tools/assets.ts:575-580 | when record `j` is the first null record or record with an inherited key, the printed grouping throws exactly that record's error, whatever follows it |
| Collections.DistinctPermutation | src/tools/assets.ts:584 | a rearrangement of groups with distinct keys has distinct keys |
| Collections.SortByMultiset | src/tools/analytics.ts:289 | the sort only reorders: its output is a permutation of its input |
| Collections.SortBySorted | src/tools/analytics.ts:289 | the sort's output is ordered by the comparator's rank |
| Collections.SortInPlace | src/tools/analytics.ts:405 | `sort` rearranges the array in place into the stable order by rank |
| Collections.SumOfNumbers | src/tools/analytics.ts:260 | `reduce` with `+` over numeric terms gives the integer total plus the initial value |
| Collections.SumOfString | src/tools/analytics.ts:260 | once one term is a string the result of the sum is a string |
| Collections.Accumulate | src/tools/analytics.ts:529-534 | the running total updated with `+=` per record ends equal to the sum `reduce` computes |
| Shapes.ArrayOrItems | src/tools/locations.ts:381 | an array reply is used as it is, otherwise its truthy `Items`, otherwise an empty list |
| Shapes.ItemsOrEmpty | src/api/client.ts:176 | the result is always truthy: the reply's truthy `Items`, or an empty list |
| Shapes.ItemsStrict | src/api/client.ts:478 | `response.Items \|\| []` throws exactly when the reply is null or undefined, and otherwise agrees with `response?.Items \|\| []` |
| Shapes.ItemsOrSelf | src/tools/users.ts:558 | the truthy `Items`, otherwise the truthy reply itself, otherwise an empty list |
| Shapes.ItemsOrSelfAgainstArrayOrItems | src/tools/locations.ts:516 | the two normalisers disagree exactly on a truthy non-array reply without truthy `Items` |
| Shapes.DataOrNull | src/api/client.ts:140 | `response.Data \|\| null` throws exactly on a null or undefined reply, and otherwise yields the truthy `Data` or null |
| Shapes.ItemOrSelf | src/tools/assets.ts:443 | the truthy `Item` of the reply, or the reply itself |
| Shapes.PagedOrEmpty | src/api/client.ts:132 | a falsy search reply becomes the empty page, and the result is always truthy |
| Shapes.Length | src/tools/tickets.ts:306 | `length` of an array is its element count and of a string its character count |
| Shapes.EmptyArray | src/tools/tickets.ts:306 | for an array, `!v \|\| v.length === 0` holds exactly when it has no elements |
| Shapes.ObjectNotEmpty | src/tools/tickets.ts:306 | a truthy object without `length` passes the emptiness test as non-empty |
| Shapes.AsList | src/tools/assets.ts:405 | walking a value succeeds exactly on arrays, over their elements |
| Shapes.Records | src/tools/assets.ts:405 | reading a field of every record succeeds exactly when none is null or undefined, and otherwise throws a TypeError |
| Shapes.Walk | src/tools/parts.ts:724-727 | a `map` that reads a field of each record and then may throw comes back exactly when every record passes, with the records unchanged; otherwise it throws the error of the first record that does not pass |
| Shapes.Formatted | src/tools/assets.ts:405 | `map(format)` succeeds exactly on an array of non-null records, giving one formatted record per element in order |
| Shapes.TopItems | src/tools/assets.ts:405 | an empty `Items` answers the fixed message; a listing holds the first `n` records, counts the rest and shows `ItemCount`; a string `Items` throws `<receiver>.slice(...).map is not a function` and any other truthy non-list throws `<receiver>.slice is not a function` |
| Shapes.ItemsReport | src/tools/tickets.ts:306 | an empty `Items` answers the fixed message; otherwise every record of `Items` is listed in order |
| Shapes.WholeList | src/tools/assets.ts:706-711 | a list of length 0 answers the fixed message; otherwise every record is listed and counted |
| Shapes.Named | src/tools/issues.ts:693-703 | lowercasing every record's name succeeds exactly when each record has a string `Name`, and then keeps the records; otherwise it throws the error of the first record without one: the read TypeError for a null record or name, else `<callee> is not a function` with the source's callee such as `i.Name.toLowerCase` |
| Shapes.Lines | src/tools/assets.ts:706-711 | one line per record, in order |
| Shapes.SectionIf | src/tools/customfields.ts:641-652 | a titled part is printed exactly when it has records |
| Shapes.First | src/tools/users.ts:593 | `Items[0]` of a non-empty array is its first element |
| Shapes.MatchingFound | src/tools/customfields.ts:763 | a non-empty match list is the filter of the reply's `Items` array |
| Shapes.MatchingNone | src/tools/customfields.ts:763 | missing `Items`, or records none of which match, leave no match |
| Shapes.Spread | src/api/client.ts:122 | `{...base, ...params}` is the defaults overridden by the caller's object |
| Shapes.SpreadOverrides | src/api/client.ts:122 | both search flags default to false, and a caller's value for either wins |
| Shapes.FacetFilters | src/tools/users.ts:357-385 | at most one filter per conditional statement |
| Shapes.FacetFiltersAppend | src/tools/users.ts:357-385 | two runs of statements push what each pushes, in order |
| Shapes.FacetFiltersMembers | src/tools/users.ts:357-385 | a filter is sent exactly when some statement's argument is truthy and supplies its Id |
| Shapes.FacetFiltersAll | src/tools/users.ts:357-385 | with every argument supplied, each statement pushes its filter, in order |
| Shapes.FacetFiltersNone | src/tools/users.ts:357-385 | with no argument supplied, nothing is pushed |
| Shapes.FacetFiltersIgnore | src/tools/users.ts:357-385 | an argument no statement reads cannot change the filters |
| Shapes.PushFilters | src/tools/users.ts:357-385 | the statements appending in place leave the filter list `FacetFilters` describes |
| Shapes.BuildFacetSearch | src/tools/users.ts:345-385 | the literal with an empty `Filters` and the pushes after it build the payload `FacetSearch` describes |
| Shapes.FacetSearchIgnore | src/tools/users.ts:345-385 | an argument neither the fixed fields nor any filter reads cannot change the payload |
| Shapes.PagingDefaults | src/tools/tickets.ts:290-293 | paging uses the arguments when truthy and the defaults 0 and `size` otherwise, so 0, "" and false count as missing |
| Shapes.PageShown | src/tools/users.ts:419 | the page figure is one more than a non-negative page index, and 1 without one |
| Shapes.PageShownDistinct | src/tools/users.ts:419 | distinct page indexes are shown as distinct pages |
| Shapes.CeilDiv | src/tools/users.ts:419 | the ceiling of a quotient: the least multiple of the divisor not below the dividend |
| Shapes.CeilDivText | src/tools/users.ts:419 | `Math.ceil(a / b)` renders the ceiling for numeric operands and a non-zero divisor, and NaN when either operand is not a number |
| Shapes.PageFooterFigures | src/tools/users.ts:419 | for a numeric or missing page size the divisor is never zero and the page count is the ceiling of the item count over it |
| Shapes.ListParamsDefaults | src/tools/teams.ts:210-217 | the list parameters are exactly `$p`, `$s`, `$d`, defaulting to page 0, `size` records and descending |
| Shapes.BuildDateBounds | src/tools/teams.ts:262-265 | the empty object and two conditional assignments build the bounds `DateBounds` describes |
| Shapes.DateBoundsGiven | src/tools/teams.ts:262-265 | a bound is sent exactly when it is given, with the value given, and nothing else is sent |
| Client.Setting | src/api/client.ts:28-29 | `process.env.k \|\| fallback`: the variable's value when it is set and non-empty, the fallback otherwise |
| Client.Headers | src/api/client.ts:36-51 | the bearer token, JSON content type and accept headers always; `SiteId` and `ProductId` exactly when their variables are set, with their values; no other header |
| Client.AssembleHeaders | src/api/client.ts:36-51 | the constructor's statements (literal, then two conditional assignments) build exactly the header record `Headers` describes |
| Client.NewClient | src/api/client.ts:27-57 | construction throws the missing-key error exactly when no key is configured; otherwise the base URL is `IIQ_API_BASE_URL` or the staging default and the headers are built from the key |
| Client.DistrictNameOfHost | src/api/client.ts:102 | for a base URL `https://<d>.<rest>` whose `d` holds no dot or slash, the district name read from the URL is `d` |
| Client.DistrictNameExample | src/api/client.ts:102 | the documented URL `https://test.incidentiq.com/api/v1.0` yields the district `test` |
| Client.TestConnection | src/api/client.ts:96-113 | connected exactly when the status probe gets a reply, with the district read from the base URL; a failure says "Invalid API key" exactly for a 401 and otherwise carries the error's message after "Connection failed: " |
| Client.FirstOrNull | src/api/client.ts:276 | the tag lookup's result is the first of the reply's `Items` when that list is non-empty, and null when the list is empty or the reply or its `Items` is falsy |
| Client.Invoke | src/api/client.ts:90-93 | an error from the API propagates from every getter unchanged |
| Client.ShapeClasses | src/api/client.ts:116-612 | the searches, the list getters and the getters that read the reply without `?.` are exactly the getters returning through the corresponding expressions |
| Client.ListGettersOnBareArray | src/api/client.ts:325-337 | given a non-empty bare array, exactly the parts, purchase-order and custom-field getters return it; every other list getter returns `[]` |
| Client.BareArrayNormalised | src/api/client.ts:325-337 | `Array.isArray(r) ? r : r?.Items \|\| []` keeps a bare array, while `r?.Items \|\| []` and `r.Items \|\| []` turn it into `[]` |
| Client.ListGettersOnPage | src/api/client.ts:170-177 | a list getter given a reply with truthy `Items` returns those `Items` |
| Client.NullNormalised | src/api/client.ts:116-612 | which reply expressions throw a TypeError on a null reply, and the empty value each of the others returns |
| Client.NullReply | src/api/client.ts:116-612 | a null reply makes exactly the getters that read it with `.` throw, with a TypeError; searches give the empty page, guarded list getters `[]`, the tag lookup null and the counts `{}` |
| Client.SearchPayloadFlags | src/api/client.ts:119-123 | every search posts `OnlyShowDeleted` and `FilterByViewPermission` as false unless the caller's parameters give their own values, which win |
| Client.SearchReply | src/api/client.ts:132 | a search returns a truthy reply as it is and the empty page `{Items: [], TotalCount: 0, PageIndex: 0, PageSize: 0}` in place of a falsy one |
| Client.SingleEntityReply | src/api/client.ts:135-141 | the single-entity getters return the reply's `Data` when it is truthy and null otherwise |
| Client.AssetByTagReply | src/api/client.ts:260-277 | the tag lookup posts the tag as search text with page size 1, and returns the first item of a non-empty `Items` list, else null |
| Client.MarkReadReply | src/api/client.ts:595-611 | marking as read reports true exactly when the reply's `StatusCode` is the number 200 |
| Tickets.ToolOf | src/tools/tickets.ts:283-699 | a name selects a case exactly when it is one of the fifteen ticket tools the switch handles |
| Tickets.SearchPayload | src/tools/tickets.ts:286-297 | deleted tickets only when `onlyShowDeleted` is truthy, never filtered by view permission, paging 20 by default, and `SearchText` exactly when a truthy search text is given, with its value |
| Tickets.BuildSearchPayload | src/tools/tickets.ts:286-297 | the handler's statements (literal, then the conditional assignment) build exactly the payload `SearchPayload` describes |
| Tickets.PageShownAsWritten | src/tools/tickets.ts:325 | the footer's `args.pageIndex \|\| 0 + 1` shows a truthy page index unchanged and `1` otherwise |
| Tickets.PageShownAsWrittenCollides | src/tools/tickets.ts:325 | as written, the first page (index 0) and the second (index 1) are both shown as page 1 |
| Tickets.Answer | src/tools/tickets.ts:282-710 | a request that throws answers `Error: <message>` |
| Tickets.UnknownName | src/tools/tickets.ts:689-699 | a name the switch does not handle sends nothing and answers `Error: Unknown ticket tool "<name>".` |
| Tickets.SearchEmptiness | src/tools/tickets.ts:299-329 | a reply with no `Items` or an empty `Items` answers the no-tickets text; otherwise the `Items` are listed, or rendering them fails with an error text |
| Tickets.SearchFooterShown | src/tools/tickets.ts:325 | a listed search shows, as written, a truthy page index unchanged and page 1 otherwise (so indexes 0 and 1 both show page 1), next to the reply's `Paging.PageCount` or 1 |
| Tickets.ToggleChoice | src/tools/tickets.ts:514-575 | a two-way endpoint ends in its "on" suffix exactly when the flag is truthy |
| Tickets.UrgencyEndpoint | src/tools/tickets.ts:515-517 | the urgency tool posts to `/mark-urgent` exactly when `isUrgent` is truthy |
| Tickets.SensitivityEndpoint | src/tools/tickets.ts:534-553 | the sensitivity tool posts to `/mark-sensitive` exactly when `isSensitive` is truthy |
| Tickets.ConfirmEndpoint | src/tools/tickets.ts:555-574 | the confirmation tool posts to `/confirm-issue` exactly when `isConfirmed` is truthy |
| Tickets.ToggleMessages | src/tools/tickets.ts:514-532 | the urgency success text names the state the chosen endpoint sets |
| Tickets.UnassignEndpoint | src/tools/tickets.ts:592-596 | only the literal string `'sla'` goes to `/unassign-sla`; any other value is put in the path as text |
| Users.ToolOf | src/tools/users.ts:343-806 | a name selects a case exactly when it is one of the ten names the switch handles |
| Users.UnknownName | src/tools/users.ts:799-806 | a name without a case sends nothing and answers `Error: Unknown enhanced user tool "<name>".` |
| Users.DeclaredWithoutCase | src/tools/users.ts:147-160 | `user_get_parents` is declared as a tool but answers the unknown-tool text |
| Users.ErrorMapping | src/tools/users.ts:808-835 | a thrown 404 gives the no-user-context text exactly on `user_get_current`, the not-found text exactly on the other names containing `get_details` or `by_location`; every other error is `Error: <message>` |
| Users.SearchFilters | src/tools/users.ts:344-385 | the advanced search pushes View, UserType, Grade and Location filters in that order, each only for a truthy argument, and pages 100 at a time by default |
| Users.SearchIgnores | src/tools/users.ts:51-95 | the declared `homeroom` and `isActive` arguments have no effect on the request |
| Users.SearchListed | src/tools/users.ts:393-421 | the answer lists the first ten users, counts the rest, shows `ItemCount` and a footer of the one-based page and the page count |
| Users.StudentFilters | src/tools/users.ts:424-452 | the student directory filters on students first, then on grade and building when given, from page 0, 100 per page by default |
| Users.StaffFilters | src/tools/users.ts:497-516 | the staff directory filters on staff first, then on the building when given, always a page of 100; `role` and `department` have no effect |
| Users.StudentGroups | src/tools/users.ts:467-494 | a grouping comes back only when no grade is a name `{}` inherits; each grade group then counts all students with that grade and lists the first five, with "and N more" exactly when there are more than five |
| Users.StudentGrades | src/tools/users.ts:467-494 | every grade some student has is shown once, no grade twice, and none is a name `{}` inherits |
| Users.ByLocationGroups | src/tools/users.ts:741-760 | users at a location are grouped by user type only when no type name is inherited; each group counts its users and lists the first five of them |
| Users.RenderFailed | src/tools/users.ts:808-835 | a reply whose case throws is answered by the catch block with that error |
| Users.RenderGrouped | src/tools/users.ts:462-500 | a grouped answer is the rendering of the reply |
| Users.GroupedItemsShape | src/tools/users.ts:467-494 | a grouping of `Items` that comes back holds the capped groups of the records, none of whose keys is inherited |
| Users.GroupedItemsThrows | src/tools/users.ts:470-472 | a grouping of `Items` throws at its push when some record's key is inherited |
| Users.StudentsInheritedGrade | src/tools/users.ts:470-472 | as written, a student whose grade is an inherited name makes the tool answer `Error: studentsByGrade[grade].push is not a function` |
| Users.ByLocationInheritedType | src/tools/users.ts:744-746 | as written, a user whose type name is inherited makes the tool answer `Error: usersByType[type].push is not a function` |
| Users.StaffListed | src/tools/users.ts:533-548 | the staff directory lists the first twenty staff and counts the rest |
| Users.AgentsListed | src/tools/users.ts:551-585 | the agents are the reply's `Items` or the reply; the first twenty are listed under the number of all of them |
| Users.AgentsNotList | src/tools/users.ts:558-569 | agents that are neither empty nor a list throw: a string as `agents.slice(...).map is not a function`, anything else as `agents.slice is not a function` |
| Users.DetailsLookup | src/tools/users.ts:587-621 | a user look-up shows the reply's `Item`, else the reply, and "User not found." when both are falsy |
| Users.StatisticsTotal | src/tools/users.ts:675-688 | when every statistic's figure is a number, the total is their sum over every statistic of the reply |
| Users.GradeStatisticsQuery | src/tools/users.ts:653-656 | the grade statistics URL has a query exactly when a location is given, and then it is `?locationId=<id>` |
| Users.QuickSearchQuery | src/tools/users.ts:769-773 | the quick search sends the query URL-encoded, so it cannot add a parameter of its own, and asks for 10 results unless a limit is given |
| Users.CurrentNotFound | src/tools/users.ts:810-818 | a 404 from `/users/me` gives the no-user-context text |
| Assets.ToolOf | src/tools/assets.ts:347-762 | a name selects a case exactly when it is one of the eleven names the switch handles |
| Assets.AppendLines | src/tools/assets.ts:705-717 | the `forEach` that appends one line per record produces exactly one line per record, in order |
| Assets.RenderInventory | src/tools/assets.ts:700-719 | the inventory rendering run step by step, with the list branches appending one line per record through `AppendLines`, gives exactly the report `InventoryReport` describes, its throws included |
| Assets.UnknownName | src/tools/assets.ts:755-762 | a name without a case sends nothing and answers `Error: Unknown enhanced asset tool "<name>".` |
| Assets.DeclaredWithoutCase | src/tools/assets.ts:193-200 | `asset_get_favorites` is declared as a tool but answers the unknown-tool text |
| Assets.ErrorMapping | src/tools/assets.ts:764-782 | a thrown 404 gives the no-asset text exactly on names containing `find_by` or `search_by`; every other error, 404s of other tools included, is `Error: <message>` |
| Assets.TagNotFound | src/tools/assets.ts:766-774 | a 404 on the tag look-up gives the no-asset text |
| Assets.SearchFilters | src/tools/assets.ts:348-395 | the advanced search pushes View, AssetType, Status and Location filters in that order, each only for a truthy argument, and pages 100 at a time by default |
| Assets.SearchIgnores | src/tools/assets.ts:58-110 | the declared `fundingType`, `roomId` and `assignedUserId` arguments have no effect on the request |
| Assets.SearchListed | src/tools/assets.ts:397-425 | the answer lists the first ten assets, counts the rest, shows `ItemCount` and a footer of the one-based page and the page count |
| Assets.EncodedPathSegment | src/tools/assets.ts:431 | a URL-encoded argument cannot add a path segment, query or fragment of its own |
| Assets.TagLookup | src/tools/assets.ts:428-462 | a falsy reply says no asset was found with that tag; otherwise the reply's `Item`, or the reply itself, is shown |
| Assets.DevicesSuffix | src/tools/assets.ts:525-528 | the inactive flag only adds `/true` to the devices path: any truthy value adds it, any falsy value leaves the path without it |
| Assets.RoomGroups | src/tools/assets.ts:574-596 | a room inventory comes back only when no asset type name is inherited; it has one group per asset type some asset has, each listing every asset of that type in reply order |
| Assets.RenderFailed | src/tools/assets.ts:764-783 | a reply whose case throws is answered by the catch block with that error |
| Assets.RoomInventoryThrows | src/tools/assets.ts:577-579 | the room grouping throws at its push when some asset's type name is inherited |
| Assets.RoomInheritedType | src/tools/assets.ts:577-579 | as written, an asset whose type name is inherited makes the tool answer `Error: assetsByType[type].push is not a function` |
| Assets.HistoryListed | src/tools/assets.ts:665-687 | the history lists the ten most recent activities under the reply's `ItemCount` |
| Assets.InventoryArray | src/tools/assets.ts:705-708 | a bare-array reply gives one `Name \|\| Category : Count \|\| Value` line per item, in order |
| Assets.InventoryItems | src/tools/assets.ts:709-712 | an `Items` reply gives one `Name: Value` line per item, in order |
| Assets.InventoryOther | src/tools/assets.ts:713-717 | any other object is listed property by property, without their order; a null reply throws `Cannot convert undefined or null to object`, since `typeof null` is `'object'`; a primitive reply leaves only the heading |
| Locations.ToolOf | src/tools/locations.ts:373-843 | a name selects a case exactly when it is one of the names the switch handles |
| Locations.TypeNamed | src/tools/locations.ts:618-621 | the building filter walks the locations without a throw exactly when none is null and every type name is a string or missing |
| Locations.Rendered | src/tools/locations.ts:371-843 | a reply whose case renders without a throw is the answer |
| Locations.UnknownName | src/tools/locations.ts:836-843 | a name without a case sends nothing and answers `Error: Unknown enhanced location tool "<name>".` |
| Locations.ErrorMapping | src/tools/locations.ts:845-872 | a thrown 404 gives the endpoint hint exactly on names containing `buildings` or `campuses` and the location-not-found text exactly on the others; every other error is `Error: <message>` |
| Locations.BuildingsNotFound | src/tools/locations.ts:847-855 | a 404 from the buildings endpoint gives the endpoint hint |
| Locations.SearchFilters | src/tools/locations.ts:422-455 | the search pushes a LocationType filter, then a ParentLocation filter, each only for a truthy argument, and pages 100 at a time by default |
| Locations.SpecialRoomFilters | src/tools/locations.ts:691-715 | the special-room search always filters on rooms first, and on a building exactly when one is given |
| Locations.FilterRoomsMeaning | src/tools/locations.ts:528-538 | the type filter followed by the capacity filter keeps exactly the rooms the combined condition accepts, in order |
| Locations.RoomsListed | src/tools/locations.ts:510-555 | the room listing shows the first 20 of the rooms that pass both filters, in reply order, counts all of them and the rest |
| Locations.FloorGroups | src/tools/locations.ts:575-597 | rooms are grouped by floor, every room of a floor listed under it |
| Locations.FloorKeyCases | src/tools/locations.ts:577 | a room with a floor is filed under `Floor <n>`, a room without one under `Unspecified` |
| Locations.BuildingFallback | src/tools/locations.ts:609-643 | when the buildings endpoint gives an empty list, the answer lists exactly the locations of the district listing the building rule accepts, in order |
| Locations.BuildingByName | src/tools/locations.ts:619 | a type name containing "Building" marks a building whatever its parent |
| Locations.DistrictNotBuilding | src/tools/locations.ts:618-621 | the `District` location is never taken for a building |
| Locations.CodeFallbackFirst | src/tools/locations.ts:786-824 | when the code look-up gives nothing, the answer is the first search hit whose `Abbreviation` is strictly equal to the code |
| Locations.CodeDirect | src/tools/locations.ts:778-785 | a direct hit of the code look-up is shown as it came, without a search |
| Locations.AllLocationsGroups | src/tools/locations.ts:374-420 | the district listing comes back only when no location type name is inherited; it groups locations by type, each group listing the first five and saying "and N more" exactly when it has more than five |
| Locations.RenderFailed | src/tools/locations.ts:845-871 | a reply whose case throws is answered by the catch block with that error |
| Locations.AllLocationsThrows | src/tools/locations.ts:395-397 | the district grouping throws at its push when some location's type name is inherited |
| Locations.AllLocationsInheritedType | src/tools/locations.ts:395-397 | as written, a location whose type name is inherited makes the tool answer `Error: locationsByType[type].push is not a function` |
| Parts.ToolOf | src/tools/parts.ts:543-899 | a name selects a case exactly when it is one of the names the switch handles |
| Parts.Rendered | src/tools/parts.ts:541-899 | a reply whose case renders without a throw is the answer |
| Parts.UnknownName | src/tools/parts.ts:892-899 | a name without a case sends nothing and answers `Error: Unknown enhanced parts tool "<name>".` |
| Parts.DeclaredWithoutCase | src/tools/parts.ts:177-191 | `parts_get_details` is declared as a tool but answers the unknown-tool text |
| Parts.ErrorMapping | src/tools/parts.ts:901-927 | a thrown 404 gives the device hint exactly on names containing `chromebook` or `ipad` and the part-not-found text exactly on the others; every other error is `Error: <message>` |
| Parts.ChromebookNotFound | src/tools/parts.ts:903-911 | a 404 while fetching Chromebook parts gives the device hint |
| Parts.SearchFilters | src/tools/parts.ts:597-631 | the part search pushes Category, DeviceType and Supplier filters in that order, each only for a truthy argument, and pages 50 at a time by default |
| Parts.SearchIgnores | src/tools/parts.ts:130-175 | the declared `locationId` and `lowStock` arguments have no effect on the request |
| Parts.ChromebookFilters | src/tools/parts.ts:739-762 | the Chromebook search always filters on the Chromebook device type first, and on a category exactly when one is given |
| Parts.ChromebookTextBoth | src/tools/parts.ts:744 | with a model and a category, the search text is `chromebook <model> <category>` |
| Parts.ChromebookTextBare | src/tools/parts.ts:744 | with neither, the surrounding spaces are trimmed and the search text is `chromebook` |
| Parts.LowStockNumbers | src/tools/parts.ts:815-821 | on numeric fields a part is low on stock when it has at most its reorder point, or fewer than 5 when the reorder point is 0 |
| Parts.LowStockUnknown | src/tools/parts.ts:815-821 | a part with unknown stock is never low on stock |
| Parts.LowStockListed | src/tools/parts.ts:806-844 | the low-stock listing is exactly the inventory's parts filtered by the low-stock test, in reply order with repeats kept, and its heading counts them, as `lowStockParts.length` does |
| Parts.FindByNumberFirst | src/tools/parts.ts:846-888 | the part-number look-up shows the first part of the reply whose `PartNumber` is strictly equal to the argument |
| Parts.FindByNumberNone | src/tools/parts.ts:863-876 | when no part matches, or the reply has no `Items`, the answer says no part was found with that number |
| Parts.AllPartsGroups | src/tools/parts.ts:551-595 | a grouping comes back only when no key is a name `{}` inherits; there is then one group per `Category \|\| DeviceType \|\| 'Uncategorized'` key, each counting all its parts, listing the first five and saying "and N more" exactly when it has more than five |
| Parts.AllPartsKeys | src/tools/parts.ts:563-572 | every key some part has is shown once, no key twice, and none is a name `{}` inherits |
| Parts.SearchListed | src/tools/parts.ts:633-660 | the part search lists the first ten parts of the reply's `Items` and counts the rest |
| Parts.RenderFailed | src/tools/parts.ts:901-926 | a reply whose case throws is answered by the catch block with that error |
| Parts.AllPartsInheritedKey | src/tools/parts.ts:565-567 | as written, a part whose key is inherited makes the tool answer `Error: partsByCategory[category].push is not a function` |
| Parts.AllPartsFirstFailing | src/tools/parts.ts:563-568 | when part `j` is the first null part or part with an inherited key, the tool answers `Error: <message>` with that part's error, whatever the parts after it are |
| Parts.InheritedKeyBeforeNull | src/tools/parts.ts:563-568 | a part with category `constructor` followed by a null part answers `Error: partsByCategory[category].push is not a function`, the error of the first, not the read error of the second |
| Parts.SuppliersListed | src/tools/parts.ts:663-699 | the supplier list shows every supplier of the reply, or with `preferred` exactly the preferred ones, and counts what it shows |
| Parts.OrderLabel | src/tools/parts.ts:725 | an order is labelled by a truthy `OrderNumber`, else by the first eight characters of its `PurchaseOrderId`; a missing id throws reading `substring`, a non-string one throws `is not a function` |
| Parts.OrderLabels | src/tools/parts.ts:724-727 | labelling the shown orders comes back exactly when every order has a label, one label per order in order |
| Parts.OrdersListed | src/tools/parts.ts:701-737 | the order list shows the first ten orders kept by the status filter, counts all kept, and comes back only when each shown order has a label |
| Parts.OrderWithoutLabel | src/tools/parts.ts:725 | an order with neither a number nor an id makes the tool answer the TypeError of reading `substring` of undefined |
| Parts.ChromebookGroups | src/tools/parts.ts:779-797 | Chromebook parts come back grouped only when no category is inherited; every part of a category is listed in its group, one group per category some part has, no category twice |
| Parts.ChromebookInheritedKey | src/tools/parts.ts:782-784 | as written, a Chromebook part whose category is inherited makes the grouping throw `categories[cat].push is not a function` |
| Issues.ToolOf | src/tools/issues.ts:492-910 | a name selects a case exactly when it is one of the names the switch handles |
| Issues.CollectTerms | src/tools/issues.ts:654-657 | the handler's empty list and three conditional pushes build exactly the classroom search terms, in order |
| Issues.Related | src/tools/issues.ts:890 | corrected look-up: the table's three entries for a keyword the table has as its own entry, otherwise the single entry naming the keyword as written |
| Issues.KeptTypes | src/tools/issues.ts:560-563 | the scope filter keeps exactly the types whose `Scope` is strictly equal to the argument when a scope other than `'All'` is given, and all types otherwise |
| Issues.UnknownName | src/tools/issues.ts:903-910 | a name without a case sends nothing and answers `Error: Unknown enhanced issues tool "<name>".` |
| Issues.DeclaredWithoutCase | src/tools/issues.ts:191-205 | `issues_get_type_details` is declared as a tool but answers the unknown-tool text |
| Issues.ErrorMapping | src/tools/issues.ts:912-938 | a thrown 404 gives the K-12 hint exactly on names containing `classroom` or `student` and the issue-not-found text exactly on the others; every other error is `Error: <message>` |
| Issues.SearchFilters | src/tools/issues.ts:593-620 | the type search sends `includeDeleted \|\| false`, pushes Scope then Category filters for truthy arguments, and pages 50 at a time by default |
| Issues.SiteGroups | src/tools/issues.ts:500-539 | a site report comes back only when no key is inherited and no listed issue has a truthy non-string description; there is then one group per `Category \|\| Scope \|\| 'Uncategorized'` key, each counting all its issues and listing the first five, with "and N more" exactly when there are more |
| Issues.TypeGroupsShape | src/tools/issues.ts:542-590 | the issue-type listing comes back only when no kept type's category is inherited; it counts the kept types and groups all of them by category |
| Issues.TypeScopeFilter | src/tools/issues.ts:560-590 | each category group lists every kept type of its category, none of them with an inherited category, each from the reply and, under a scope, with that scope |
| Issues.ClassroomSearchText | src/tools/issues.ts:654-662 | each term group is searched for unless its flag is exactly `false`; with all three, the search text is the three groups joined by spaces |
| Issues.ClassroomCategories | src/tools/issues.ts:691-704 | each classroom section holds exactly the issues whose lowercased name has its words; a "smart" issue that mentions none of the other words is both a board issue and an other issue |
| Issues.ClassroomShown | src/tools/issues.ts:708-735 | the classroom report prints at most four sections, only non-empty ones, and at most five other issues |
| Issues.FourSections | src/tools/issues.ts:708-735 | the four conditional sections, for any item lists, are at most four, all non-empty |
| Issues.DeviceFirstMatch | src/tools/issues.ts:780-784 | a device issue is classified by the first of chromebook, ipad, laptop, hotspot its name mentions, and `Other` exactly when it mentions none |
| Issues.DeviceSearch | src/tools/issues.ts:746-748 | a device type other than `All` is searched for lowercased; `All` searches for every device word |
| Issues.DeviceGroupsShown | src/tools/issues.ts:776-805 | student device issues form one group per device some issue is about; each counts all its issues and lists at most five |
| Issues.CommonListed | src/tools/issues.ts:854-861 | common issues are listed up to `limit \|\| 10`, and a list comes back only when no shown issue has a truthy resolution without steps |
| Issues.KeywordHit | src/tools/issues.ts:873-890 | a keyword in the table is looked up ignoring its case |
| Issues.KeywordMiss | src/tools/issues.ts:873-890 | a keyword outside the table gives one entry naming it as written, in its own case, unless it is a name `{}` inherits, when the look-up throws `relatedIssues.map is not a function` |
| Issues.KeywordNotText | src/tools/issues.ts:874 | a null or missing keyword throws the read TypeError of `toLowerCase`, any other non-string keyword throws `args.keyword.toLowerCase is not a function`, and the tool answers `Error: <message>` |
| Issues.DeviceNotText | src/tools/issues.ts:746-748 | a truthy non-string device type throws `args.deviceType.toLowerCase is not a function` |
| Issues.CommonNotList | src/tools/issues.ts:854-857 | a non-empty reply that is not a list throws: a string at the `map`, as `limitedIssues.map is not a function`, anything else at `commonIssues.slice` |
| Issues.RelatedAsWrittenInherited | src/tools/issues.ts:877-897 | as written, the keyword `constructor` reads the inherited constructor instead of a list and the `map` over it throws; the corrected look-up gives the fallback entry |
| Issues.RelatedAgrees | src/tools/issues.ts:890 | for every keyword that is not an inherited property name, the as-written and the corrected look-ups agree |
| Issues.RunFailed | src/tools/issues.ts:912-937 | a case that throws is answered by the catch block with that error |
| Issues.ListedOfMembers | src/tools/issues.ts:521-530 | the issues the site report walks are exactly those listed under some group |
| Issues.SiteSucceeded | src/tools/issues.ts:500-517 | a site report that comes back had a list of non-null issues, none with an inherited key |
| Issues.SiteSteps | src/tools/issues.ts:511-531 | for non-null issues with no inherited key, the site report is the capped groups unless the walk over the listed issues throws, and then that error |
| Issues.SiteReport | src/tools/issues.ts:500-539 | a grouped site report holds the capped groups of the reply's issues, counts them, and its walk over the listed issues came back |
| Issues.SiteGroupAt | src/tools/issues.ts:521-531 | a group of a site report holds the first five issues with its key, none with a truthy non-string description |
| Issues.ExcerptsShown | src/tools/issues.ts:523-527 | when the walk over the listed issues comes back, none of them has a description without `substring` |
| Issues.SiteGroupingThrows | src/tools/issues.ts:514-516 | the site grouping throws at its push when some issue's key is inherited |
| Issues.SiteInheritedCategory | src/tools/issues.ts:514-516 | as written, an issue whose key is inherited makes the tool answer `Error: issuesByCategory[category].push is not a function` |
| Issues.SingleListed | src/tools/issues.ts:521-525 | a single issue is listed under its own group, and nothing else is |
| Issues.SiteExcerptMissing | src/tools/issues.ts:523-526 | as written, a single issue whose description is truthy but not a string makes the site report throw `issue.Description.substring is not a function` |
| Issues.TypeGroupingThrows | src/tools/issues.ts:568-570 | without a scope, the type grouping throws at its push when some type's category is inherited |
| Issues.TypeInheritedCategory | src/tools/issues.ts:568-570 | as written, a type whose category is inherited makes the tool answer `Error: typesByCategory[category].push is not a function` |
| Issues.CommonStepsMissing | src/tools/issues.ts:857-860 | as written, a shown common issue whose resolution is truthy but has no steps throws the TypeError of reading `0` of them |
| PurchaseOrders.ToolOf | src/tools/purchaseorders.ts:271-368 | a name selects a case exactly when it is one of the fourteen declared purchase-order tools |
| PurchaseOrders.BuildSearchPayload | src/tools/purchaseorders.ts:285-296 | the literal followed by the four conditional assignments builds exactly the search payload |
| PurchaseOrders.UnknownName | src/tools/purchaseorders.ts:367-368 | an unknown name sends no request and answers `Error: Unknown purchase order tool: <name>` |
| PurchaseOrders.Envelopes | src/tools/purchaseorders.ts:376-396 | a known name sends its one request; the reply comes back serialized and a thrown error as `Error: <message>` |
| PurchaseOrders.GetAllRequest | src/tools/purchaseorders.ts:272-282 | the list goes to `/purchaseorders/<status>` exactly when a status is given and to `/purchaseorders` otherwise, with 100 per page and descending order by default |
| PurchaseOrders.SearchFields | src/tools/purchaseorders.ts:284-299 | the search always sends both flags false and the paging block, and each of `SearchText`, `Status`, `DateFrom`, `DateTo` exactly when its argument is truthy, unchanged; no other key |
| PurchaseOrders.QueueRequests | src/tools/purchaseorders.ts:301-326 | the pending, approved and completed lists differ only in their path: page 0, `pageSize \|\| 50`, descending |
| PurchaseOrders.OrderPartPaths | src/tools/purchaseorders.ts:332-350 | the per-order reads go to `/purchaseorders/<id>/<part>` for items, parts, supplier, attachments and history |
| PurchaseOrders.SummaryParams | src/tools/purchaseorders.ts:360-365 | the summary sends exactly the date bounds that are truthy |
| CustomFields.ToolOf | src/tools/customfields.ts:441-798 | a name selects a case exactly when it is one of the names the switch handles |
| CustomFields.ExactMatches | src/tools/customfields.ts:762-766 | the case-insensitive name filter succeeds exactly when the list is empty or the wanted name and every field's name are strings, and then keeps exactly the fields whose lowercased name equals the lowercased wanted name; a first field without a string name throws its `f.Name.toLowerCase` error, and a non-string wanted name throws the read TypeError when nullish and `args.fieldName.toLowerCase is not a function` otherwise |
| CustomFields.ExactStep | src/tools/customfields.ts:762-766 | a filter that succeeds on a list succeeds on its tail, and keeps the head exactly when its lowercased name equals the lowercased wanted name |
| CustomFields.UnknownName | src/tools/customfields.ts:791-798 | a name without a case sends nothing and answers `Error: Unknown enhanced custom field tool "<name>".` |
| CustomFields.DeclaredWithoutCase | src/tools/customfields.ts:290-305 | `customfield_get_device_fields` is declared as a tool but answers the unknown-tool text |
| CustomFields.ErrorMapping | src/tools/customfields.ts:800-825 | a thrown 404 gives the K-12 hint exactly on names containing `student` or `device` and the field-not-found text exactly on the others; every other error is `Error: <message>` |
| CustomFields.SearchFilters | src/tools/customfields.ts:442-470 | the field search pushes EntityType then FieldType filters, each only for a truthy argument, and pages 50 at a time by default |
| CustomFields.SearchIgnores | src/tools/customfields.ts:84-118 | the declared `isRequired` and `isActive` arguments have no effect on the request |
| CustomFields.SearchListed | src/tools/customfields.ts:472-498 | the field search lists the first ten fields of `Items` and counts the rest |
| CustomFields.EntityGroups | src/tools/customfields.ts:501-543 | the definitions come back only when no entity type is inherited; they form one group per entity type, each counting all its fields and listing the first five, with "and N more" exactly when there are more |
| CustomFields.EntityGroupsCover | src/tools/customfields.ts:515-528 | every entity type some field has gets a group, and only those, none of them inherited |
| CustomFields.FieldsGrouped | src/tools/customfields.ts:515-528 | a grouped definitions report holds the capped groups of the reply's fields, none of whose entity types is inherited |
| CustomFields.EntityInherited | src/tools/customfields.ts:521-523 | as written, a field whose entity type is inherited makes the tool answer `Error: fieldsByEntity[entity].push is not a function` |
| CustomFields.TypesListed | src/tools/customfields.ts:545-575 | field types are listed whole and counted, and a list comes back only when each type's `SupportedEntities` is missing or a list |
| CustomFields.TypeWithoutJoin | src/tools/customfields.ts:563-566 | as written, a type whose `SupportedEntities` is neither missing nor a list throws `type.SupportedEntities?.join is not a function` |
| CustomFields.TicketValueLines | src/tools/customfields.ts:577-603 | a ticket's values give one line per value, showing `DisplayValue` when truthy and `Value` otherwise |
| CustomFields.StudentCategories | src/tools/customfields.ts:640-653 | a student field is listed under each category whose words its lowercased name has |
| CustomFields.StudentShown | src/tools/customfields.ts:655-683 | a field listed in the student report came from the reply and is in a category its name names; at most four sections, none empty |
| CustomFields.StudentUncategorised | src/tools/customfields.ts:640-683 | a field whose name has none of the category words is in no section |
| CustomFields.RequiredFilters | src/tools/customfields.ts:693-710 | the required-fields query filters on the entity type, then on `IsRequired = 'true'`, a fixed page of 100, no search text |
| CustomFields.ExactFirst | src/tools/customfields.ts:762-789 | with `exactMatch`, the field shown is the first hit whose name equals the wanted one ignoring case; no hit matches exactly when none has that name |
| CustomFields.FirstHit | src/tools/customfields.ts:759-789 | without `exactMatch`, the first hit of a non-empty list is shown, whatever its name |
| CustomFields.ExactNoHits | src/tools/customfields.ts:762-776 | with `exactMatch` and no hits the not-found text is given, even when the wanted name is not a string |
| Analytics.ToolOf | src/tools/analytics.ts:216-582 | a name selects a case exactly when it is one of the eleven declared analytics tools |
| Analytics.SortItems | src/tools/analytics.ts:289 | `Items.sort(comparator)` reorders the array in place into the stable order of the comparator's rank |
| Analytics.Beyond | src/tools/analytics.ts:296-297 | the "and N more" figure is never negative, and is positive exactly when `ItemCount - n` is a positive number |
| Analytics.Caught | src/tools/analytics.ts:520-560 | a panel's `catch` keeps everything the panel had written. It adds exactly one line, the "Not available" line, exactly when the panel threw, and adds nothing otherwise |
| Analytics.ReadablePrefix | src/tools/analytics.ts:550-552 | the `forEach` over the first five reports gets past exactly the records before the first null or undefined one |
| Analytics.UnknownName | src/tools/analytics.ts:575-582 | a name without a case sends nothing and answers `Error: Unknown analytics tool "<name>".` |
| Analytics.NotFoundMessage | src/tools/analytics.ts:584-600 | a thrown 404 shows the licensing hint followed by the reply's `Message`, or `Endpoint not found` without one; every other error is `Error: <message>` |
| Analytics.AuditStatusTotal | src/tools/analytics.ts:260-270 | when every `Value` is a number, the audit-status total is their sum over every record, each record shown once in reply order |
| Analytics.TopLocationsRanked | src/tools/analytics.ts:289-304 | the listed locations are the first ten of a reordering of the reply by descending `Value`, in that order, each ranked at least as high as every one left out; "and N more" appears exactly when `ItemCount - 10` is positive |
| Analytics.CatalogueOrdered | src/tools/analytics.ts:404-414 | the catalogue lists every report of the reply once, in ascending `DisplayOrder` |
| Analytics.NoData | src/tools/analytics.ts:251-258 | missing or empty `Items` give each breakdown's own "no data" text |
| Analytics.ReportMissing | src/tools/analytics.ts:424-431 | a reply without a truthy `Item` answers `Report <id> not found.` |
| Analytics.DashboardSurvives | src/tools/analytics.ts:514-571 | the dashboard always answers with a summary. It begins with everything the asset panel wrote, then that panel's "Not available" line if it threw, and it ends with the reports' "Not available" line when that panel threw |
| Analytics.DashboardAssets | src/tools/analytics.ts:515-520 | the asset panel is left out, and never requested, exactly when `includeAssets` is exactly `false` |
| Analytics.DashboardReports | src/tools/analytics.ts:548-556 | a reports panel that completes lists the first five report names, with "and N more" equal to `ItemCount - 5` exactly when `ItemCount` exceeds 5 |
| Analytics.ReportNamesKept | src/tools/analytics.ts:548-560 | when report `j`, among the first five, is the first null or undefined one, the panel keeps the heading with `ItemCount` and the names of the `j` reports before it, and then adds "Reports: Not available" |
| Analytics.ReportNamesKeptExample | src/tools/analytics.ts:548-560 | `{Items: [{Name: "a"}, null], ItemCount: 2}` prints the heading with 2 and the name `a` before "Reports: Not available" |
| Analytics.ReportsNotList | src/tools/analytics.ts:548-560 | non-empty `Items` that are not a list, such as a string, leave the heading with `ItemCount` and no names before "Reports: Not available" |
| Analytics.AssetHeadingKept | src/tools/analytics.ts:527-538 | non-empty audit `Items` that the `reduce` cannot finish (not a list, or a null record) leave "Asset Audit Status:" followed by "Asset Analytics: Not available" |
| Analytics.PanelRequestFailed | src/tools/analytics.ts:520-560 | a panel whose request throws shows only its "Not available" line, and a reports panel without entries shows nothing |
| Teams.ToolOf | src/tools/teams.ts:209-269 | a name selects a case exactly when it is one of the nine declared team tools |
| Teams.UnknownName | src/tools/teams.ts:268-269 | an unknown name sends no request and answers `Error: Unknown team tool: <name>` |
| Teams.Envelopes | src/tools/teams.ts:277-297 | a known name sends its one request; the reply comes back as `JSON.stringify(reply, null, 2)` and a thrown error as `Error: <message>` |
| Teams.GetAllParams | src/tools/teams.ts:210-217 | the team list sends the list parameters, which default to page 0, 100 per page, descending |
| Teams.SearchText | src/tools/teams.ts:219-230 | the search always sends the `SearchText` key with the argument's value, even when it is undefined, both flags false and paging 20 by default |
| Teams.TicketDefaults | src/tools/teams.ts:244-251 | a team's tickets leave resolved ones out unless `includeResolved` is truthy, read page 0 and 20 per page by default |
| Teams.PerTeamPaths | src/tools/teams.ts:232-265 | every per-team call goes to `/teams/<teamId>` followed by its sub-resource, one of members, agents, locations or categories for the plain reads |
| Teams.StatsParams | src/tools/teams.ts:261-266 | the statistics go to `/teams/<teamId>/stats` and send exactly the date bounds that are truthy |
| Protocol.ErrorText | src/tools/teams.ts:289-296 | an error becomes a message starting with `Error: ` |
| Protocol.Wrapped | src/tools/teams.ts:277-297 | a handler's result is serialized and a throw becomes `Error: <message>` |
| Notifications.ToolOf | src/tools/notifications.ts:106-123 | a name selects a case exactly when it is one of the six declared notification tools |
| Notifications.UnknownName | src/tools/notifications.ts:120-121 | an unknown name throws `Unknown tool: <name>` before any request |
| Notifications.MissingId | src/tools/notifications.ts:125-128 | without a truthy `ticket_id` (e-mails) or `notification_id` (mark one) the tool throws its "is required" error, whatever the API would reply |
| Notifications.QueryFlags | src/tools/notifications.ts:141-145 | read and unarchived are included unless the argument is exactly `false`, archived only when it is exactly `true`; a string `"false"` still includes read; with no flags the query is the client's default one |
| Notifications.ListShape | src/tools/notifications.ts:147-176 | a listing result has exactly its extra fields plus `count`, `notifications` and `message`; the count is the number of notifications, each formatted in order; a reply that is not a list throws a TypeError |
| Notifications.QueryList | src/tools/notifications.ts:140-155 | the query posts its flags to `/notifications`, echoes them as `filters` and reports what it found; an upstream error propagates unchanged |
| Notifications.UnreadAndUnarchived | src/tools/notifications.ts:157-177 | the unread and unarchived tools list what their getter returns; an upstream error propagates unchanged |
| Notifications.UnreadText | src/tools/notifications.ts:163-165 | the unread message is "No unread notifications" exactly when nothing is unread |
| Notifications.Emails | src/tools/notifications.ts:131-137 | the ticket id is echoed, `count` is the number of e-mails, each formatted in order, and the message says "No emails found" exactly when there are none; a non-list reply throws a TypeError |
| Notifications.EmailsRead | src/tools/notifications.ts:125-138 | with a truthy id the tool reads `/notifications/emails/for/ticket/<id>` once; an upstream error propagates unchanged |
| Notifications.MarkingAll | src/tools/notifications.ts:179-186 | marking everything read reports success exactly when the reply's `StatusCode` is the number 200, and the message follows that verdict |
| Notifications.MarkingOne | src/tools/notifications.ts:188-200 | marking one notification echoes its id and reports success exactly when the reply's `StatusCode` is the number 200 |
| Notifications.EmailKeys | src/tools/notifications.ts:202-213 | a formatted e-mail has exactly the eight documented keys |
| Notifications.EmailFallbacks | src/tools/notifications.ts:204-208 | the id is copied; sender and recipient fall back to their address fields when falsy |
| Notifications.NotificationKeys | src/tools/notifications.ts:215-229 | a formatted notification has exactly the eleven documented keys |
| Notifications.NotificationFallbacks | src/tools/notifications.ts:217-223 | the id is copied; subject, body and both flags fall back to their alternative field when falsy |
| Views.ToolOf | src/tools/views.ts:70-85 | a name selects a case exactly when it is one of the five declared view tools |
| Views.Dispatch | src/tools/views.ts:70-85 | an unknown name throws `Unknown tool: <name>`; a known one ignores its arguments |
| Views.Getters | src/api/client.ts:511-554 | every view tool sends a plain GET without parameters or body, and no two tools read the same getter |
| Views.Listing | src/tools/views.ts:87-156 | `count` is the number of views, each listed formatted in order, and the message depends only on whether there are any; a non-list reply throws a TypeError |
| Views.Suggestions | src/tools/views.ts:107-156 | the five common views are listed exactly for the ticket, asset and user-directory tools |
| Views.Reading | src/tools/views.ts:87-156 | each tool reads its getter once; an upstream error propagates unchanged |
| Views.MessagesDiffer | src/tools/views.ts:93-154 | each tool's two messages differ, so the message tells an empty list from a non-empty one |
| Views.ViewKeys | src/tools/views.ts:158-170 | a formatted view has exactly the nine documented keys; the id falls back to `Id`, the name to `ViewName` then `Title`, the type to `Type` |
| Slas.ToolOf | src/tools/slas.ts:68-81 | a name selects a case exactly when it is one of the four declared SLA tools |
| Slas.UnknownName | src/tools/slas.ts:78-79 | an unknown name throws `Unknown tool: <name>` before any request |
| Slas.ListReport | src/tools/slas.ts:83-99 | a null or empty list gives count 0, an empty list and the "No SLAs configured" message, and only then; otherwise the list is returned as it came with its length |
| Slas.MetricsReport | src/tools/slas.ts:101-109 | the metrics are returned unchanged with their count, and the message says "Retrieved SLA metrics" exactly when there are any |
| Slas.TypeNames | src/tools/slas.ts:111-120 | `available_types` names each type in order, by `Name` or else `MetricTypeName`; a non-list reply throws a TypeError |
| Slas.TicketStatusReport | src/tools/slas.ts:122-143 | without a truthy `ticket_id` the tool throws before any request; otherwise it reads `/tickets/<id>/sla`, `has_sla` is true exactly when the status is truthy and the status is shown only then |
| Slas.StatusOfReply | src/api/client.ts:500-507 | the status is the reply's `Item` when truthy, else the reply itself, so a truthy reply always counts as an agreement |
| Server.ToolList | src/index.ts:36-57 | the advertised list is `test_connection` followed by the ticket, user, asset and location tools, each family in its declaration order |
| Server.RouteMeaning | src/index.ts:90-111 | no name carries two of the prefixes, so each family is routed exactly the names with its prefix, whatever the order of the tests; `test_connection` is matched by its exact name |
| Server.FamilyPrefixes | src/index.ts:15-18 | every tool the four routed families declare carries its family's prefix |
| Server.ListedToolsRouted | src/index.ts:36-111 | every advertised tool is routed, and to its own family's handler |
| Server.UnknownName | src/index.ts:110 | a name no route takes makes the handler throw `Unknown tool: <name>` |
| Server.Routed | src/index.ts:90-108 | a prefixed name is answered by its family's handler, unchanged |
| Server.ConnectionAnswers | src/index.ts:64-87 | the connection test never throws and answers the text the handler writes |
| Server.ConnectionTextCases | src/index.ts:64-87 | the text is `Connection error: <message>` when the client cannot be built, the failure with the configuration advice when the probe fails, and otherwise the district and the `IIQ_API_BASE_URL` variable as it stands, `undefined` when unset; with that variable set and non-empty it equals the corrected text |
| Server.UnsetBaseUrlShownUndefined | src/index.ts:74 | with only a key configured, the client sends its requests to the default base URL while the text as written reads `API Base URL: undefined` |
| Server.ShownBaseUrlIsUsed | src/index.ts:74 | the corrected text ends with the base URL the probe was actually sent to, which is the default when the variable is unset |

## Left out

- The MCP SDK server, the stdio transport and start-up (`src/index.ts:3-33`, `src/index.ts:114-124`): these are foreign code. The model starts at the list handler and the call handler.
- Axios, its interceptors, its timeout and console logging (`src/api/client.ts:52-93`): the HTTP exchange becomes the `Upstream` parameter. An error from it is one of the `Js.Exception` values.
- `process.env` and dotenv: the environment is a parameter (`Client.Env`).
- The lazily built module-level client singletons: each handler is given the upstream function of an already built client.
- Asynchrony: once each await is abstracted, every handler runs its steps in sequence.
- Floating point: numbers are integers, plus `NaN`. The percentages printed with `toFixed` in the analytics reports are not modelled.
- The exact multi-line report text, emoji, separators and the dashboard's fixed tips: `Protocol.Report` keeps the kind of report each branch builds and the records and figures it shows; the wording of each line is abstracted. `Protocol.Report.Serialized` stands for `JSON.stringify(value, null, 2)` without modelling its text, including the keys it drops because their value is undefined.
- Text.Lower: lowercases ASCII letters only, where JavaScript's `toLowerCase` follows full Unicode case mapping.
- Js.ToNumber: parses only optionally signed decimal integers. Strings such as `1.5`, `0x10` and `1e3`, which JavaScript parses as numbers, become `NaN` in the model.
- Analytics.SortItems: a record whose ranked field is not a number ranks as 0. In JavaScript every comparison with it yields `NaN`, which `sort` treats as a tie, and that is not a consistent order.
- Collections.SortInPlace: proves that the result equals a stable sort by rank. It does not model the engine's own algorithm; for a consistent comparator the two give the same order.
- Assets.InventoryOther: an inventory reply that is a plain object is listed as `Properties(reply.fields)`, a map from each property to its value. Every property's line is kept, but not the insertion order in which `Object.entries` visits them, because `Js.Json` objects carry no key order. The same holds for `Assets.InventoryReport`, which this lemma describes.
- JavaScript strings count, slice and compare UTF-16 code units. The model's strings are sequences of Unicode scalar values. So `Shapes.Length`, `Collections.Take` applied to text, `Js.StrLess`, and the `substring(0, 8)` and `substring(0, 50)` renderings differ from JavaScript on text outside the Basic Multilingual Plane.
- Shapes.Spread: a `params` value that is a list or a string adds nothing in the model. In JavaScript, spreading it would copy its index keys. The search getters declare an object parameter, and no tool handler calls them.
- A call request without an `arguments` object: the arguments are always a map, possibly empty.
- Only the ticket, user, asset and location families are routed from `src/index.ts`. The other tool modules are modelled as their handlers, and the server never reaches them.
- The failure text of the connection test puts "Connection failed: " in front of the client's error, which already starts with "Connection failed: " for anything but a 401. `Server.ConnectionTextCases` states that doubled text as written.

## Findings

| source | as written | input that shows it | evidently intended | confidence | as-written member | corrected member |
|---|---|---|---|---|---|---|
| src/tools/parts.ts:563-568 | the grouping record is `{}`, so `if (!rec[k]) rec[k] = []` finds the value a key such as `constructor` inherits from `Object.prototype`. The initialisation is skipped and `push` throws a TypeError | one part whose `Category` is `"constructor"` | one group holding that part | not executed | Parts.AllPartsInheritedKey | Collections.GroupByPartition |
| src/tools/users.ts:470-472 | the same `{}` record pattern in `studentsByGrade`: a key that `Object.prototype` provides skips the initialisation, and `push` throws a TypeError | one student whose `Grade` is `"constructor"` | one group holding that student | not executed | Users.StudentsInheritedGrade | Collections.GroupByPartition |
| src/tools/users.ts:744-746 | the same `{}` record pattern in `usersByType`: a key that `Object.prototype` provides skips the initialisation, and `push` throws a TypeError | one user whose `UserTypeName` is `"constructor"` | one group holding that user | not executed | Users.ByLocationInheritedType | Collections.GroupByPartition |
| src/tools/assets.ts:577-579 | the same `{}` record pattern in `assetsByType`: a key that `Object.prototype` provides skips the initialisation, and `push` throws a TypeError | one asset whose `AssetTypeName` is `"constructor"` | one group holding that asset | not executed | Assets.RoomInheritedType | Collections.GroupByPartition |
| src/tools/locations.ts:395-397 | the same `{}` record pattern in `locationsByType`: a key that `Object.prototype` provides skips the initialisation, and `push` throws a TypeError | one location whose `LocationTypeName` is `"constructor"` | one group holding that location | not executed | Locations.AllLocationsInheritedType | Collections.GroupByPartition |
| src/tools/parts.ts:782-784 | the same `{}` record pattern in `categories`: a key that `Object.prototype` provides skips the initialisation, and `push` throws a TypeError | one Chromebook part whose `Category` is `"constructor"` | one group holding that Chromebook part | not executed | Parts.ChromebookInheritedKey | Collections.GroupByPartition |
| src/tools/issues.ts:514-516 | the same `{}` record pattern in `issuesByCategory`: a key that `Object.prototype` provides skips the initialisation, and `push` throws a TypeError | one site issue whose `Category` is `"constructor"` | one group holding that site issue | not executed | Issues.SiteInheritedCategory | Collections.GroupByPartition |
| src/tools/issues.ts:568-570 | the same `{}` record pattern in `typesByCategory`: a key that `Object.prototype` provides skips the initialisation, and `push` throws a TypeError | one issue type whose `Category` is `"constructor"` | one group holding that issue type | not executed | Issues.TypeInheritedCategory | Collections.GroupByPartition |
| src/tools/customfields.ts:521-523 | the same `{}` record pattern in `fieldsByEntity`: a key that `Object.prototype` provides skips the initialisation, and `push` throws a TypeError | one custom field whose `EntityTypeId` is `"constructor"` | one group holding that custom field | not executed | CustomFields.EntityInherited | Collections.GroupByPartition |
| src/tools/tickets.ts:325 | the footer's `${args.pageIndex \|\| 0 + 1}` parses as `pageIndex \|\| (0 + 1)`, so page index 1 is shown as page 1, just like index 0 | `pageIndex: 0` and `pageIndex: 1` both give "Page 1" | `(pageIndex \|\| 0) + 1`, as the user and asset footers write it | not executed | Tickets.PageShownAsWrittenCollides | Shapes.PageShownDistinct |
| src/tools/issues.ts:890 | `keywordMap[keyword]` on an object literal finds inherited properties. For `constructor` it finds a function, and the `map` over it throws | `keyword: "constructor"` | the one-entry fallback `constructor Issue` | not executed | Issues.RelatedAsWrittenInherited | Issues.Related |
| src/index.ts:74 | the connected text prints `process.env.IIQ_API_BASE_URL` raw, so with the variable unset it reads `API Base URL: undefined`, while the client used its default URL | only `IIQ_API_KEY` set, and a probe that succeeds | the base URL the client actually uses | not executed | Server.UnsetBaseUrlShownUndefined | Server.ShownBaseUrlIsUsed |
