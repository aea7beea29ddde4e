/** The query that `getAllProperties` builds from a search options object and a
    result limit: SQL text with positional placeholders and the list of values
    those placeholders bind.

    The specification is a structured rendering: the truthy option fields, in
    a fixed order, each become a `Filter` (a comparison and the value it
    binds); the text is a SELECT head, the owner comparison under its own
    `WHERE`, the search comparisons joined by `AND` under a second `WHERE`,
    and the GROUP BY / ORDER BY / LIMIT tail. `GetAllPropertiesQuery` builds
    the same query the way the source does, by appending to a string and a
    list and cutting off the last `AND `, and is proved equal to it. */
module PropertySearch {
  import opened Decimal
  import opened JsValues
  import opened SqlText

  /** The options object; a field the caller leaves out is `Undefined`. */
  datatype SearchOptions = SearchOptions(
    ownerId: JsValue,
    city: JsValue,
    minimumPricePerNight: JsValue,
    maximumPricePerNight: JsValue,
    minimumRating: JsValue)

  /** The option fields the builder looks at. */
  datatype Field = OwnerId | City | MinimumPrice | MaximumPrice | MinimumRating

  /** The fields that open the second `WHERE`, in the order they are tested. */
  const SearchFields: seq<Field> := [City, MinimumPrice, MaximumPrice, MinimumRating]

  /** All fields in the order they are tested. */
  const FieldOrder: seq<Field> := [OwnerId] + SearchFields

  function Get(o: SearchOptions, f: Field): JsValue {
    match f
    case OwnerId => o.ownerId
    case City => o.city
    case MinimumPrice => o.minimumPricePerNight
    case MaximumPrice => o.maximumPricePerNight
    case MinimumRating => o.minimumRating
  }

  /** Where a field stands in `FieldOrder`. */
  function Position(f: Field): (k: nat)
    ensures k < |FieldOrder| && FieldOrder[k] == f
  {
    match f
    case OwnerId => 0
    case City => 1
    case MinimumPrice => 2
    case MaximumPrice => 3
    case MinimumRating => 4
  }

  function Column(f: Field): string {
    match f
    case OwnerId => "owner_id"
    case City => "city"
    case MinimumPrice => "cost_per_night"
    case MaximumPrice => "cost_per_night"
    case MinimumRating => "rating"
  }

  function Operator(f: Field): string {
    match f
    case OwnerId => "="
    case City => "LIKE"
    case MinimumPrice => ">"
    case MaximumPrice => "<"
    case MinimumRating => ">="
  }

  /** One comparison of the WHERE text, `column op $n`, and the value bound to it. */
  datatype Filter = Filter(column: string, op: string, param: JsValue)

  /** The comparison a truthy field contributes: every value goes in as the
      text of a template literal, the city wrapped in `%` wildcards for LIKE. */
  function FilterFor(o: SearchOptions, f: Field): Filter {
    var text := TemplateString(Get(o, f));
    Filter(Column(f), Operator(f), Str(if f == City then "%" + text + "%" else text))
  }

  /** What one field contributes: its comparison when it is truthy, nothing otherwise. */
  function Contribution(o: SearchOptions, f: Field): seq<Filter> {
    if Truthy(Get(o, f)) then [FilterFor(o, f)] else []
  }

  /** The comparisons of the truthy fields among `fs`, in order. */
  function FiltersOf(o: SearchOptions, fs: seq<Field>): seq<Filter> {
    if fs == [] then [] else Contribution(o, fs[0]) + FiltersOf(o, fs[1..])
  }

  /** How many of the fields `fs` are truthy. */
  function TruthyCount(o: SearchOptions, fs: seq<Field>): nat {
    if fs == [] then 0
    else (if Truthy(Get(o, fs[0])) then 1 else 0) + TruthyCount(o, fs[1..])
  }

  function OwnerFilters(o: SearchOptions): seq<Filter> {
    FiltersOf(o, [OwnerId])
  }

  function SearchFilters(o: SearchOptions): seq<Filter> {
    FiltersOf(o, SearchFields)
  }

  function Filters(o: SearchOptions): seq<Filter> {
    FiltersOf(o, FieldOrder)
  }

  /** The bound values of `fs`, in order. */
  function ParamsOf(fs: seq<Filter>): (ps: seq<JsValue>)
    ensures |ps| == |fs|
    ensures forall i :: 0 <= i < |fs| ==> ps[i] == fs[i].param
  {
    if fs == [] then [] else [fs[0].param] + ParamsOf(fs[1..])
  }

  /** The comparison text before its placeholder. */
  function Comparison(f: Filter): string {
    f.column + " " + f.op + " "
  }

  /** A comparison bound to placeholder `n`, with the space that follows it. */
  function Predicate(f: Filter, n: nat): string {
    Comparison(f) + "$" + NatToString(n) + " "
  }

  /** The comparisons of `fs`, numbered from `first`, joined by `AND `. */
  function JoinPredicates(fs: seq<Filter>, first: nat): string
    decreases |fs|
  {
    if fs == [] then ""
    else if |fs| == 1 then Predicate(fs[0], first)
    else Predicate(fs[0], first) + "AND " + JoinPredicates(fs[1..], first + 1)
  }

  /** The head of the query, up to where the filters go; cut into pieces short
      enough for the verifier to inspect character by character. */
  const SelectClause: string :=
    "\n  SELECT properties.*, " + "avg(property_reviews.rating) " + "as average_rating\n" +
    "  FROM properties\n" +
    "  JOIN property_reviews " + "ON properties.id = property_id\n  "

  /** The tail of the query up to the limit's placeholder. */
  const GroupOrderClause: string :=
    "\n  GROUP BY properties.id" + "\n  ORDER BY cost_per_night" + "\n  LIMIT "

  function LimitClause(n: nat): string {
    GroupOrderClause + "$" + NatToString(n) + ";\n  "
  }

  /** The owner comparison under its own `WHERE`, empty when `owner_id` is falsy. */
  function OwnerClause(o: SearchOptions): string {
    var owner := OwnerFilters(o);
    if owner == [] then "" else "WHERE " + Predicate(owner[0], 1)
  }

  /** The search comparisons under a second `WHERE`, numbered after the
      owner's; empty when no search field is truthy. */
  function SearchClause(o: SearchOptions): string {
    var search := SearchFilters(o);
    if search == [] then "" else "WHERE " + JoinPredicates(search, |OwnerFilters(o)| + 1)
  }

  function WhereClauses(o: SearchOptions): string {
    OwnerClause(o) + SearchClause(o)
  }

  /** The SQL text of the search. */
  function SearchQueryText(o: SearchOptions): string {
    SelectClause + WhereClauses(o) + LimitClause(|Filters(o)| + 1)
  }

  /** The values bound to the placeholders of `SearchQueryText`: the filters'
      values, then the limit (10 when it is `undefined`), pushed as it is. */
  function SearchQueryParams(o: SearchOptions, limit: JsValue): seq<JsValue> {
    ParamsOf(Filters(o)) + [WithDefault(limit, Num(10))]
  }

  // ---------------------------------------------------------------------
  // The builder, statement by statement as the source runs it.
  // ---------------------------------------------------------------------

  /** Builds the text and the parameter list of a property search. */
  method GetAllPropertiesQuery(options: SearchOptions, limit: JsValue) returns (q: Query)
    ensures q.text == SearchQueryText(options)
    ensures q.params == SearchQueryParams(options, limit)
  {
    var queryParams: seq<JsValue> := [];
    var queryString := SelectClause;

    if Truthy(options.ownerId) {
      queryParams := queryParams + [Str(TemplateString(options.ownerId))];
      queryString := queryString + "WHERE owner_id = $" + NatToString(|queryParams|) + " ";
    }
    OwnerStep(options, queryString, queryParams);
    ghost var owner := OwnerFilters(options);

    ghost var head := queryString;
    if Truthy(options.city) || Truthy(options.minimumPricePerNight)
      || Truthy(options.maximumPricePerNight) || Truthy(options.minimumRating)
    {
      queryString := queryString + "WHERE ";
    }
    WhereStep(options, head, queryString);
    ghost var where := queryString;
    assert owner + [] == owner;
    queryString, queryParams := AddSearchFilters(options, queryString, queryParams, where);
    queryString, queryParams := FinishQuery(options, limit, queryString, queryParams, where);
    q := Query(queryString, queryParams);
  }

  /** The four search tests of `getAllProperties`, in source order: each
      truthy field pushes its value and appends `column op $n AND `. */
  method AddSearchFilters(options: SearchOptions, built: string, params: seq<JsValue>, ghost where: string)
    returns (queryString: string, queryParams: seq<JsValue>)
    requires Accumulated(built, params, where, OwnerFilters(options), [], |OwnerFilters(options)| + 1)
    ensures queryString == where + Pending(SearchFilters(options), |OwnerFilters(options)| + 1)
    ensures queryParams == ParamsOf(OwnerFilters(options) + SearchFilters(options))
  {
    ghost var owner := OwnerFilters(options);
    ghost var done: seq<Filter> := [];
    queryString, queryParams := built, params;
    WrittenCityComparison(options);
    WrittenPriceComparisons(options);
    WrittenRatingComparison(options);

    ghost var before, paramsBefore := queryString, queryParams;
    if Truthy(options.city) {
      queryParams := queryParams + [Str("%" + TemplateString(options.city) + "%")];
      queryString := queryString + "city LIKE $" + NatToString(|queryParams|) + " AND ";
    }
    FieldStep(options, City, "city LIKE $", where, owner, done, before, paramsBefore, queryString, queryParams);
    done := done + Contribution(options, City);
    assert done == Contribution(options, City);

    before, paramsBefore := queryString, queryParams;
    if Truthy(options.minimumPricePerNight) {
      queryParams := queryParams + [Str(TemplateString(options.minimumPricePerNight))];
      queryString := queryString + "cost_per_night > $" + NatToString(|queryParams|) + " AND ";
    }
    FieldStep(options, MinimumPrice, "cost_per_night > $", where, owner, done, before, paramsBefore, queryString, queryParams);
    done := done + Contribution(options, MinimumPrice);

    before, paramsBefore := queryString, queryParams;
    if Truthy(options.maximumPricePerNight) {
      queryParams := queryParams + [Str(TemplateString(options.maximumPricePerNight))];
      queryString := queryString + "cost_per_night < $" + NatToString(|queryParams|) + " AND ";
    }
    FieldStep(options, MaximumPrice, "cost_per_night < $", where, owner, done, before, paramsBefore, queryString, queryParams);
    done := done + Contribution(options, MaximumPrice);

    before, paramsBefore := queryString, queryParams;
    if Truthy(options.minimumRating) {
      queryParams := queryParams + [Str(TemplateString(options.minimumRating))];
      queryString := queryString + "rating >= $" + NatToString(|queryParams|) + " AND ";
    }
    FieldStep(options, MinimumRating, "rating >= $", where, owner, done, before, paramsBefore, queryString, queryParams);
    done := done + Contribution(options, MinimumRating);
    SearchFiltersUnfold(options);
  }

  /** The end of `getAllProperties`: cut a trailing `AND `, push the limit and
      append GROUP BY, ORDER BY and the LIMIT placeholder. */
  method FinishQuery(options: SearchOptions, limit: JsValue, built: string, params: seq<JsValue>,
                     ghost where: string)
    returns (queryString: string, queryParams: seq<JsValue>)
    requires where == SelectClause + OwnerClause(options)
                      + (if SearchFilters(options) == [] then "" else "WHERE ")
    requires built == where + Pending(SearchFilters(options), |OwnerFilters(options)| + 1)
    requires params == ParamsOf(OwnerFilters(options) + SearchFilters(options))
    ensures queryString == SearchQueryText(options)
    ensures queryParams == SearchQueryParams(options, limit)
  {
    queryString, queryParams := built, params;
    TrimStep(options, queryString, where);
    if EndsWith(queryString, "AND ") {
      queryString := queryString[..|queryString| - 4];
    }
    FinalStep(options, limit, queryString, queryParams);
    queryParams := queryParams + [WithDefault(limit, Num(10))];
    queryString := queryString + GroupOrderClause + "$" + NatToString(|queryParams|) + ";\n  ";
  }

  /** What the builder has produced after the tests of the search fields
      `done` (all of them truthy): the text so far ends in `AND ` after each
      comparison, and the list holds the owner's value and theirs. */
  ghost predicate Accumulated(queryString: string, queryParams: seq<JsValue>, where: string,
                              owner: seq<Filter>, done: seq<Filter>, first: nat)
  {
    && first == |owner| + 1
    && queryString == where + Pending(done, first)
    && queryParams == ParamsOf(owner + done)
  }

  /** The search comparisons written so far, before the last `AND ` is cut. */
  function Pending(done: seq<Filter>, first: nat): string {
    if done == [] then "" else JoinPredicates(done, first) + "AND "
  }

  /** One step of the builder: appending `column op $n AND ` with n the new
      length of the list extends the joined comparisons by one. */
  lemma AppendPredicate(where: string, done: seq<Filter>, g: Filter, first: nat, written: string)
    requires written == Comparison(g) + "$"
    ensures where + Pending(done, first) + written + NatToString(first + |done|) + " AND "
            == where + Pending(done + [g], first)
  {
    var n := NatToString(first + |done|);
    var x := written + n + " AND ";
    PendingSnoc(done, g, first);
    PredicateText(g, first + |done|, written);
    assert Pending(done + [g], first) == Pending(done, first) + x;
    Assoc4(where, Pending(done, first), written, n, " AND ");
  }

  lemma Assoc4(a: string, b: string, c: string, d: string, e: string)
    ensures a + b + c + d + e == a + (b + (c + d + e))
  {
  }

  lemma PredicateText(g: Filter, n: nat, written: string)
    requires written == Comparison(g) + "$"
    ensures Predicate(g, n) + "AND " == written + NatToString(n) + " AND "
  {
    assert " " + "AND " == " AND ";
  }

  lemma PendingSnoc(done: seq<Filter>, g: Filter, first: nat)
    ensures Pending(done + [g], first) == Pending(done, first) + (Predicate(g, first + |done|) + "AND ")
  {
    if done == [] {
      assert JoinPredicates([g], first) == Predicate(g, first);
      assert done + [g] == [g];
    } else {
      JoinSnoc(done, g, first);
    }
  }

  /** Joining one more comparison adds `AND ` and that comparison at the end. */
  lemma {:induction false} JoinSnoc(fs: seq<Filter>, g: Filter, first: nat)
    requires fs != []
    ensures JoinPredicates(fs + [g], first)
            == JoinPredicates(fs, first) + "AND " + Predicate(g, first + |fs|)
  {
    if |fs| == 1 {
      assert (fs + [g])[1..] == [g];
    } else {
      assert (fs + [g])[1..] == fs[1..] + [g];
      JoinSnoc(fs[1..], g, first + 1);
    }
  }

  /** The text ends `$n ` after a comparison, so the character before the
      last is a digit and `AND ` cannot end it. */
  lemma PredicateEnd(prefix: string, f: Filter, n: nat)
    ensures !EndsWith(prefix + Predicate(f, n), "AND ")
  {
    var s := prefix + Predicate(f, n);
    var d := NatToString(n);
    assert s == prefix + Comparison(f) + "$" + d + " ";
    assert s[|s| - 2] == d[|d| - 1];
    if |s| >= 4 {
      assert s[|s| - 4..][2] == s[|s| - 2];
    }
  }

  lemma SelectClauseEnd()
    ensures !EndsWith(SelectClause, "AND ")
  {
    var last := "ON properties.id = property_id\n  ";
    var rest := "\n  SELECT properties.*, " + "avg(property_reviews.rating) " + "as average_rating\n" +
      "  FROM properties\n" + "  JOIN property_reviews ";
    assert SelectClause == rest + last;
    assert SelectClause[|SelectClause| - 4..] == last[|last| - 4..];
  }

  /** The text before the search part never ends in `AND `. */
  lemma OwnerPartNotEndsWithAnd(o: SearchOptions)
    ensures !EndsWith(SelectClause + OwnerClause(o), "AND ")
  {
    var owner := OwnerFilters(o);
    if owner == [] {
      assert SelectClause + "" == SelectClause;
      SelectClauseEnd();
    } else {
      assert SelectClause + ("WHERE " + Predicate(owner[0], 1))
          == (SelectClause + "WHERE ") + Predicate(owner[0], 1);
      PredicateEnd(SelectClause + "WHERE ", owner[0], 1);
    }
  }

  /** The comparisons of the truthy fields are the filters of the truthy
      fields taken one at a time. */
  lemma SearchFiltersUnfold(o: SearchOptions)
    ensures SearchFilters(o)
            == Contribution(o, City) + Contribution(o, MinimumPrice)
             + Contribution(o, MaximumPrice) + Contribution(o, MinimumRating)
  {
    var fs := SearchFields;
    assert fs[1..] == [MinimumPrice, MaximumPrice, MinimumRating];
    assert fs[1..][1..] == [MaximumPrice, MinimumRating];
    assert fs[1..][1..][1..] == [MinimumRating];
    assert fs[1..][1..][1..][1..] == [];
    assert FiltersOf(o, fs[1..][1..][1..]) == Contribution(o, MinimumRating) + [];
    assert FiltersOf(o, fs[1..][1..]) == Contribution(o, MaximumPrice) + Contribution(o, MinimumRating);
    assert FiltersOf(o, fs[1..]) == Contribution(o, MinimumPrice)
      + (Contribution(o, MaximumPrice) + Contribution(o, MinimumRating));
  }

  lemma OwnerFiltersUnfold(o: SearchOptions)
    ensures OwnerFilters(o) == Contribution(o, OwnerId)
  {
    assert [OwnerId][1..] == [];
    assert FiltersOf(o, [OwnerId]) == Contribution(o, OwnerId) + [];
  }

  lemma {:induction false} FiltersOfConcat(o: SearchOptions, fs: seq<Field>, gs: seq<Field>)
    ensures FiltersOf(o, fs + gs) == FiltersOf(o, fs) + FiltersOf(o, gs)
  {
    if fs == [] {
      assert fs + gs == gs;
    } else {
      assert (fs + gs)[1..] == fs[1..] + gs;
      FiltersOfConcat(o, fs[1..], gs);
    }
  }

  lemma FiltersSplit(o: SearchOptions)
    ensures Filters(o) == OwnerFilters(o) + SearchFilters(o)
    ensures |OwnerFilters(o)| <= 1
  {
    FiltersOfConcat(o, [OwnerId], SearchFields);
    assert [OwnerId][1..] == [];
  }

  lemma ParamsOfConcat(fs: seq<Filter>, gs: seq<Filter>)
    ensures ParamsOf(fs + gs) == ParamsOf(fs) + ParamsOf(gs)
  {
    var whole, left, right := ParamsOf(fs + gs), ParamsOf(fs), ParamsOf(gs);
    forall i | 0 <= i < |fs + gs| ensures whole[i] == (left + right)[i] {
      if i < |fs| {
        assert (fs + gs)[i] == fs[i];
      } else {
        assert (fs + gs)[i] == gs[i - |fs|];
      }
    }
  }

  /** After the owner test: the list holds the owner's value when it is
      truthy, and the text its comparison, bound to `$1`, under a `WHERE`. */
  lemma OwnerStep(o: SearchOptions, queryString: string, queryParams: seq<JsValue>)
    requires Truthy(o.ownerId) ==>
      && queryParams == [Str(TemplateString(o.ownerId))]
      && queryString == SelectClause + "WHERE owner_id = $" + NatToString(1) + " "
    requires !Truthy(o.ownerId) ==> queryParams == [] && queryString == SelectClause
    ensures queryParams == ParamsOf(OwnerFilters(o))
    ensures queryString == SelectClause + OwnerClause(o)
  {
    OwnerFiltersUnfold(o);
    if Truthy(o.ownerId) {
      var f := FilterFor(o, OwnerId);
      assert "WHERE owner_id = $" == "WHERE " + Comparison(f) + "$";
    }
  }

  /** The text each search test appends before the placeholder number is that
      field's comparison. */
  lemma WrittenCityComparison(o: SearchOptions)
    ensures "city LIKE $" == Comparison(FilterFor(o, City)) + "$"
  {
  }

  lemma WrittenPriceComparisons(o: SearchOptions)
    ensures "cost_per_night > $" == Comparison(FilterFor(o, MinimumPrice)) + "$"
    ensures "cost_per_night < $" == Comparison(FilterFor(o, MaximumPrice)) + "$"
  {
  }

  lemma WrittenRatingComparison(o: SearchOptions)
    ensures "rating >= $" == Comparison(FilterFor(o, MinimumRating)) + "$"
  {
  }

  /** The second `WHERE` is written exactly when some search field is truthy. */
  lemma WhereStep(o: SearchOptions, head: string, where: string)
    requires head == SelectClause + OwnerClause(o)
    requires where == if Truthy(o.city) || Truthy(o.minimumPricePerNight)
                         || Truthy(o.maximumPricePerNight) || Truthy(o.minimumRating)
                      then head + "WHERE " else head
    ensures where == SelectClause + OwnerClause(o) + (if SearchFilters(o) == [] then "" else "WHERE ")
  {
    SearchFiltersUnfold(o);
    assert head + "" == head;
  }

  /** Pushing the value of comparison `g` and appending `column op $n AND `,
      with n the new length of the list, keeps `Accumulated` with `g` added. */
  lemma PushStep(g: Filter, written: string, where: string, owner: seq<Filter>, done: seq<Filter>,
                 queryString: string, queryParams: seq<JsValue>,
                 newString: string, newParams: seq<JsValue>)
    requires Accumulated(queryString, queryParams, where, owner, done, |owner| + 1)
    requires written == Comparison(g) + "$"
    requires newParams == queryParams + [g.param]
    requires newString == queryString + written + NatToString(|newParams|) + " AND "
    ensures Accumulated(newString, newParams, where, owner, done + [g], |owner| + 1)
  {
    assert |newParams| == |owner| + 1 + |done|;
    AppendPredicate(where, done, g, |owner| + 1, written);
    ParamsOfSnoc(owner, done, g);
  }

  /** One search test, whether it fires or not, keeps `Accumulated`: when the
      field is truthy its value is pushed, then `column op $n AND ` is appended
      with n the new length of the list. */
  lemma FieldStep(o: SearchOptions, f: Field, written: string, where: string,
                  owner: seq<Filter>, done: seq<Filter>,
                  queryString: string, queryParams: seq<JsValue>,
                  newString: string, newParams: seq<JsValue>)
    requires Accumulated(queryString, queryParams, where, owner, done, |owner| + 1)
    requires written == Comparison(FilterFor(o, f)) + "$"
    requires Truthy(Get(o, f)) ==>
      && newParams == queryParams + [FilterFor(o, f).param]
      && newString == queryString + written + NatToString(|newParams|) + " AND "
    requires !Truthy(Get(o, f)) ==> newParams == queryParams && newString == queryString
    ensures Accumulated(newString, newParams, where, owner, done + Contribution(o, f), |owner| + 1)
  {
    if Truthy(Get(o, f)) {
      PushStep(FilterFor(o, f), written, where, owner, done, queryString, queryParams, newString, newParams);
    } else {
      assert done + [] == done;
    }
  }

  lemma ParamsOfSnoc(owner: seq<Filter>, done: seq<Filter>, g: Filter)
    ensures ParamsOf(owner + done) + [g.param] == ParamsOf(owner + (done + [g]))
  {
    ParamsOfConcat(owner + done, [g]);
    assert owner + done + [g] == owner + (done + [g]);
  }

  /** Cutting a trailing `AND ` off `head WHERE joined AND ` leaves
      `head WHERE joined`; text that does not end in `AND ` stays as it is. */
  lemma CutTrailingAnd(head: string, joined: string, built: string, written: bool)
    requires !EndsWith(head, "AND ")
    requires written ==> built == head + "WHERE " + (joined + "AND ")
    requires !written ==> built == head + ""
    ensures EndsWith(built, "AND ") <==> written
    ensures written ==> built[..|built| - 4] == head + ("WHERE " + joined)
    ensures !written ==> built == head
  {
    if written {
      assert built == (head + ("WHERE " + joined)) + "AND ";
    } else {
      assert head + "" == head;
    }
  }

  lemma Assoc2(a: string, b: string, c: string)
    ensures a + (b + c) == a + b + c
  {
  }

  /** Cutting the last `AND ` leaves the two WHERE parts of the specification:
      the text ends in `AND ` exactly when a search comparison was written. */
  lemma TrimStep(o: SearchOptions, built: string, where: string)
    requires where == SelectClause + OwnerClause(o) + (if SearchFilters(o) == [] then "" else "WHERE ")
    requires built == where + Pending(SearchFilters(o), |OwnerFilters(o)| + 1)
    ensures EndsWith(built, "AND ") <==> SearchFilters(o) != []
    ensures EndsWith(built, "AND ") ==> built[..|built| - 4] == SelectClause + WhereClauses(o)
    ensures !EndsWith(built, "AND ") ==> built == SelectClause + WhereClauses(o)
  {
    var search := SearchFilters(o);
    var head := SelectClause + OwnerClause(o);
    var joined := JoinPredicates(search, |OwnerFilters(o)| + 1);
    OwnerPartNotEndsWithAnd(o);
    if search == [] {
      assert built == head + "" + "";
      assert head + "" + "" == head + "";
    }
    CutTrailingAnd(head, joined, built, search != []);
    Assoc2(SelectClause, OwnerClause(o), SearchClause(o));
    if search == [] {
      assert SearchClause(o) == "";
      assert head + "" == head;
    }
  }

  /** Appending the limit and its placeholder completes the specified query. */
  lemma FinalStep(o: SearchOptions, limit: JsValue, trimmed: string, params: seq<JsValue>)
    requires trimmed == SelectClause + WhereClauses(o)
    requires params == ParamsOf(OwnerFilters(o) + SearchFilters(o))
    ensures trimmed + GroupOrderClause + "$" + NatToString(|params| + 1) + ";\n  "
            == SearchQueryText(o)
    ensures params + [WithDefault(limit, Num(10))] == SearchQueryParams(o, limit)
  {
    FiltersSplit(o);
    LimitClauseAppended(trimmed, |params| + 1);
  }

  lemma LimitClauseAppended(s: string, n: nat)
    ensures s + GroupOrderClause + "$" + NatToString(n) + ";\n  " == s + LimitClause(n)
  {
  }
}
