/** What the query of a property search guarantees, proved on its
    specification (`SearchQueryText`, `SearchQueryParams`), which the builder
    `GetAllPropertiesQuery` is proved to produce:

    - the text holds the placeholders `$1` ... `$N` once each, in order, where
      N is the length of the list, so `$n` names the n-th value of the list;
    - the list holds the truthy fields' values in the order owner_id, city,
      minimum price, maximum price, minimum rating, and the limit last; each
      value sits at the index its comparison's placeholder names;
    - `WHERE` is written once for the owner and once for the search fields,
      and `AND ` only between search comparisons;
    - the text depends on which fields are truthy, never on their values. */
module SearchFacts {
  import opened Decimal
  import opened JsValues
  import opened SqlText
  import opened PropertySearch

  // ---------------------------------------------------------------------
  // The characters the fixed text avoids.
  // ---------------------------------------------------------------------

  /** Text with no `$` (so no placeholder), no `W` (so no `WHERE`) and no `A`
      (so no `AND `). */
  predicate Clean(s: string) {
    Lacks(s, '$') && Lacks(s, 'W') && Lacks(s, 'A')
  }

  lemma CleanConcat(a: string, b: string)
    requires Clean(a) && Clean(b)
    ensures Clean(a + b)
  {
    LacksConcat(a, b, '$');
    LacksConcat(a, b, 'W');
    LacksConcat(a, b, 'A');
  }

  lemma SelectHeadClean()
    ensures Clean("\n  SELECT properties.*, ") && Clean("avg(property_reviews.rating) ")
  {
  }

  lemma SelectMiddleClean()
    ensures Clean("as average_rating\n") && Clean("  FROM properties\n")
  {
  }

  lemma SelectTailClean()
    ensures Clean("  JOIN property_reviews ") && Clean("ON properties.id = property_id\n  ")
  {
  }

  lemma GroupOrderPiecesClean()
    ensures Clean("\n  GROUP BY properties.id") && Clean("\n  ORDER BY cost_per_night")
    ensures Clean("\n  LIMIT ") && Clean(";\n  ")
  {
  }

  lemma CleanConcat3(a: string, b: string, c: string)
    requires Clean(a) && Clean(b) && Clean(c)
    ensures Clean(a + b + c)
  {
    CleanConcat(a, b);
    CleanConcat(a + b, c);
  }

  /** The fixed parts of the search query hold no `$`, `W` or `A`. */
  lemma FixedTextClean()
    ensures Clean(SelectClause) && Clean(GroupOrderClause) && Clean(";\n  ")
  {
    var s1, s2, s3 := "\n  SELECT properties.*, ", "avg(property_reviews.rating) ", "as average_rating\n";
    var s4, s5, s6 := "  FROM properties\n", "  JOIN property_reviews ", "ON properties.id = property_id\n  ";
    SelectHeadClean();
    SelectMiddleClean();
    SelectTailClean();
    CleanConcat3(s1, s2, s3);
    CleanConcat3(s1 + s2 + s3, s4, s5);
    CleanConcat(s1 + s2 + s3 + s4 + s5, s6);
    GroupOrderPiecesClean();
    CleanConcat3("\n  GROUP BY properties.id", "\n  ORDER BY cost_per_night", "\n  LIMIT ");
  }

  /** A comparison the builder writes contains none of `$`, `W` and `A`. */
  lemma FieldComparisonClean(o: SearchOptions, f: Field)
    ensures Clean(Comparison(FilterFor(o, f)))
  {
    assert Clean(Column(f)) && Clean(Operator(f)) && Clean(" ");
    CleanConcat(Column(f), " ");
    CleanConcat(Column(f) + " ", Operator(f));
    CleanConcat(Column(f) + " " + Operator(f), " ");
  }

  predicate AllClean(fs: seq<Filter>) {
    forall i :: 0 <= i < |fs| ==> Clean(Comparison(fs[i]))
  }

  lemma {:induction false} FiltersClean(o: SearchOptions, fs: seq<Field>)
    ensures AllClean(FiltersOf(o, fs))
  {
    if fs != [] {
      FieldComparisonClean(o, fs[0]);
      FiltersClean(o, fs[1..]);
    }
  }

  lemma DigitsLack(s: string, c: char)
    requires AllDigits(s) && !IsDigit(c)
    ensures Lacks(s, c)
  {
  }

  /** `column op $n ` holds neither `W` nor `A`. */
  lemma PredicateClean(g: Filter, n: nat)
    requires Clean(Comparison(g))
    ensures Lacks(Predicate(g, n), 'W') && Lacks(Predicate(g, n), 'A')
  {
    var d := NatToString(n);
    DigitsLack(d, 'W');
    DigitsLack(d, 'A');
    assert Predicate(g, n) == Comparison(g) + "$" + d + " ";
  }

  // ---------------------------------------------------------------------
  // Placeholders.
  // ---------------------------------------------------------------------

  lemma PlaceholdersOfPredicate(g: Filter, n: nat, rest: string)
    requires Clean(Comparison(g))
    ensures Placeholders(Predicate(g, n) + rest) == [n] + Placeholders(rest)
  {
    var d := NatToString(n);
    assert Predicate(g, n) + rest == Comparison(g) + ("$" + d + (" " + rest));
    PlaceholdersSkip(Comparison(g), "$" + d + (" " + rest));
    PlaceholderMarker(n, " " + rest);
    PlaceholdersSkip(" ", rest);
  }

  lemma AllCleanTail(fs: seq<Filter>)
    requires fs != [] && AllClean(fs)
    ensures AllClean(fs[1..])
  {
    forall i | 0 <= i < |fs[1..]| ensures Clean(Comparison(fs[1..][i])) {
      assert fs[1..][i] == fs[i + 1];
    }
  }

  lemma PlaceholdersOfJoinOne(fs: seq<Filter>, first: nat, rest: string)
    requires |fs| == 1 && AllClean(fs)
    ensures Placeholders(JoinPredicates(fs, first) + rest) == Span(first, 1) + Placeholders(rest)
  {
    PlaceholdersOfPredicate(fs[0], first, rest);
    SpanOne(first);
  }

  /** The joined comparisons carry the placeholders `first` ... `first + |fs| - 1`, in order. */
  lemma {:induction false} PlaceholdersOfJoin(fs: seq<Filter>, first: nat, rest: string)
    requires AllClean(fs)
    ensures Placeholders(JoinPredicates(fs, first) + rest) == Span(first, |fs|) + Placeholders(rest)
    decreases |fs|
  {
    if fs == [] {
      assert JoinPredicates(fs, first) + rest == rest;
    } else if |fs| == 1 {
      PlaceholdersOfJoinOne(fs, first, rest);
    } else {
      PlaceholdersOfJoinHead(fs, first, rest);
      AllCleanTail(fs);
      PlaceholdersOfJoin(fs[1..], first + 1, rest);
      SpanConsAppend(first, |fs| - 1, Placeholders(rest));
    }
  }

  /** The first comparison of a join of several contributes its own number. */
  lemma PlaceholdersOfJoinHead(fs: seq<Filter>, first: nat, rest: string)
    requires |fs| > 1 && Clean(Comparison(fs[0]))
    ensures Placeholders(JoinPredicates(fs, first) + rest)
            == [first] + Placeholders(JoinPredicates(fs[1..], first + 1) + rest)
  {
    var t := JoinPredicates(fs[1..], first + 1) + rest;
    assert JoinPredicates(fs, first) + rest == Predicate(fs[0], first) + ("AND " + t);
    PlaceholdersOfPredicate(fs[0], first, "AND " + t);
    PlaceholdersSkip("AND ", t);
  }

  lemma PlaceholdersOfLimit(n: nat)
    ensures Placeholders(LimitClause(n)) == [n]
  {
    FixedTextClean();
    assert LimitClause(n) == GroupOrderClause + ("$" + NatToString(n) + ";\n  ");
    PlaceholdersSkip(GroupOrderClause, "$" + NatToString(n) + ";\n  ");
    PlaceholderMarker(n, ";\n  ");
    PlaceholdersNone(";\n  ");
  }

  lemma {:induction false} FiltersLength(o: SearchOptions, fs: seq<Field>)
    ensures |FiltersOf(o, fs)| == TruthyCount(o, fs)
  {
    if fs != [] {
      FiltersLength(o, fs[1..]);
    }
  }

  /** The list holds one value per truthy field and then the limit, which is
      10 when the argument is `undefined`. */
  lemma ParamCount(o: SearchOptions, limit: JsValue)
    ensures |SearchQueryParams(o, limit)| == TruthyCount(o, FieldOrder) + 1
    ensures SearchQueryParams(o, limit)[TruthyCount(o, FieldOrder)] == WithDefault(limit, Num(10))
    ensures limit.Undefined? ==> SearchQueryParams(o, limit)[TruthyCount(o, FieldOrder)] == Num(10)
  {
    FiltersLength(o, FieldOrder);
  }

  lemma OwnerClausePlaceholders(o: SearchOptions, rest: string)
    ensures Placeholders(OwnerClause(o) + rest) == Span(1, |OwnerFilters(o)|) + Placeholders(rest)
  {
    var owner := OwnerFilters(o);
    FiltersSplit(o);
    if owner == [] {
      assert OwnerClause(o) + rest == rest;
      assert Span(1, 0) == [];
    } else {
      FiltersClean(o, [OwnerId]);
      assert OwnerClause(o) + rest == "WHERE " + (Predicate(owner[0], 1) + rest);
      PlaceholdersSkip("WHERE ", Predicate(owner[0], 1) + rest);
      PlaceholdersOfPredicate(owner[0], 1, rest);
      assert Span(1, 1) == [1];
    }
  }

  lemma SearchClausePlaceholders(o: SearchOptions, rest: string)
    ensures Placeholders(SearchClause(o) + rest)
            == Span(|OwnerFilters(o)| + 1, |SearchFilters(o)|) + Placeholders(rest)
  {
    var search := SearchFilters(o);
    if search == [] {
      assert SearchClause(o) + rest == rest;
      assert Span(|OwnerFilters(o)| + 1, 0) == [];
    } else {
      FiltersClean(o, SearchFields);
      var joined := JoinPredicates(search, |OwnerFilters(o)| + 1);
      assert SearchClause(o) + rest == "WHERE " + (joined + rest);
      PlaceholdersSkip("WHERE ", joined + rest);
      PlaceholdersOfJoin(search, |OwnerFilters(o)| + 1, rest);
    }
  }

  lemma SpanThree(k: nat, m: nat)
    ensures Span(1, k) + (Span(k + 1, m) + [k + m + 1]) == Span(1, k + m + 1)
  {
    var s1, s2 := Span(1, k), Span(k + 1, m);
    assert s1 + (s2 + [k + m + 1]) == (s1 + s2) + [k + m + 1];
    SpanSplit(1, k, m);
    SpanSplit(1, k + m, 1);
    assert Span(k + m + 1, 1) == [k + m + 1];
  }

  /** The text as the select head, the owner part, the search part and the tail. */
  lemma ClauseAssoc(a: string, b: string, c: string, d: string)
    ensures a + (b + c) + d == a + (b + (c + d))
  {
  }

  lemma TextShape(o: SearchOptions)
    ensures SearchQueryText(o)
            == SelectClause + (OwnerClause(o) + (SearchClause(o)
               + LimitClause(|OwnerFilters(o)| + |SearchFilters(o)| + 1)))
  {
    FiltersSplit(o);
    var n := |Filters(o)| + 1;
    assert n == |OwnerFilters(o)| + |SearchFilters(o)| + 1;
    ClauseAssoc(SelectClause, OwnerClause(o), SearchClause(o), LimitClause(n));
  }


  /** The placeholders of the text are `$1`, `$2`, ..., `$N` in this order, N
      being the length of the list: each names one value, and every value is
      named. */
  lemma QueryPlaceholders(o: SearchOptions, limit: JsValue)
    ensures Placeholders(SearchQueryText(o)) == Span(1, |SearchQueryParams(o, limit)|)
  {
    var k, m := |OwnerFilters(o)|, |SearchFilters(o)|;
    var oc, sc, lc := OwnerClause(o), SearchClause(o), LimitClause(k + m + 1);
    FiltersSplit(o);
    assert |SearchQueryParams(o, limit)| == k + m + 1;
    TextShape(o);
    PlaceholdersOfLimit(k + m + 1);
    SearchClausePlaceholders(o, lc);
    OwnerClausePlaceholders(o, sc + lc);
    FixedTextClean();
    PlaceholdersSkip(SelectClause, oc + (sc + lc));
    SpanThree(k, m);
  }

  // ---------------------------------------------------------------------
  // Which value each comparison binds.
  // ---------------------------------------------------------------------

  /** The index in the list of field `f`'s value: the number of truthy fields
      tested before it. */
  function Rank(o: SearchOptions, f: Field): nat {
    TruthyCount(o, FieldOrder[..Position(f)])
  }

  lemma {:induction false} FilterAt(o: SearchOptions, fs: seq<Field>, k: nat)
    requires k < |fs| && Truthy(Get(o, fs[k]))
    ensures TruthyCount(o, fs[..k]) < |FiltersOf(o, fs)|
    ensures FiltersOf(o, fs)[TruthyCount(o, fs[..k])] == FilterFor(o, fs[k])
  {
    if k == 0 {
      assert fs[..k] == [];
    } else {
      assert fs[..k][1..] == fs[1..][..k - 1];
      assert fs[..k][0] == fs[0];
      FilterAt(o, fs[1..], k - 1);
    }
  }

  /** The comparison numbered `first + i` is written in the joined text. */
  lemma {:induction false} JoinContains(fs: seq<Filter>, first: nat, i: nat)
    requires i < |fs|
    ensures IsInfix(Predicate(fs[i], first + i), JoinPredicates(fs, first))
  {
    var p := Predicate(fs[0], first);
    if |fs| == 1 {
      InfixOf("", p, "");
      assert "" + p + "" == p;
    } else {
      var tail := JoinPredicates(fs[1..], first + 1);
      if i == 0 {
        InfixOf("", p, "AND " + tail);
        assert "" + p + ("AND " + tail) == JoinPredicates(fs, first);
      } else {
        JoinContains(fs[1..], first + 1, i - 1);
        InfixOf(p + "AND ", tail, "");
        assert p + "AND " + tail + "" == JoinPredicates(fs, first);
        InfixWithin(Predicate(fs[i], first + i), tail, JoinPredicates(fs, first));
      }
    }
  }

  /** The filter list holds a truthy field's comparison at the field's rank. */
  lemma FilterAtRank(o: SearchOptions, f: Field)
    requires Truthy(Get(o, f))
    ensures Rank(o, f) < |Filters(o)| && Filters(o)[Rank(o, f)] == FilterFor(o, f)
  {
    FilterAt(o, FieldOrder, Position(f));
  }

  /** Where `x` sits in a text shaped like the search query's. */
  lemma InfixAfter(a: string, b: string, x: string, c: string)
    ensures IsInfix(x, a + ((b + x) + c))
  {
    assert a + ((b + x) + c) == (a + b) + x + c;
    InfixOf(a + b, x, c);
  }

  lemma InfixAfterTwo(a: string, b: string, c: string, x: string, d: string)
    ensures IsInfix(x, a + (b + ((c + x) + d)))
  {
    assert a + (b + ((c + x) + d)) == (a + b + c) + x + d;
    InfixOf(a + b + c, x, d);
  }

  lemma OwnerInText(o: SearchOptions)
    requires OwnerFilters(o) != []
    ensures IsInfix(Predicate(OwnerFilters(o)[0], 1), SearchQueryText(o))
  {
    var sc := SearchClause(o);
    var lc := LimitClause(|OwnerFilters(o)| + |SearchFilters(o)| + 1);
    var p := Predicate(OwnerFilters(o)[0], 1);
    TextShape(o);
    assert OwnerClause(o) == "WHERE " + p;
    InfixAfter(SelectClause, "WHERE ", p, sc + lc);
  }

  lemma SearchClauseInText(o: SearchOptions)
    requires SearchFilters(o) != []
    ensures IsInfix(JoinPredicates(SearchFilters(o), |OwnerFilters(o)| + 1), SearchQueryText(o))
  {
    var oc := OwnerClause(o);
    var lc := LimitClause(|OwnerFilters(o)| + |SearchFilters(o)| + 1);
    var joined := JoinPredicates(SearchFilters(o), |OwnerFilters(o)| + 1);
    TextShape(o);
    assert SearchClause(o) == "WHERE " + joined;
    InfixAfterTwo(SelectClause, oc, "WHERE ", joined, lc);
  }

  lemma SearchInText(o: SearchOptions, i: nat)
    requires i < |SearchFilters(o)|
    ensures IsInfix(Predicate(SearchFilters(o)[i], |OwnerFilters(o)| + 1 + i), SearchQueryText(o))
  {
    var joined := JoinPredicates(SearchFilters(o), |OwnerFilters(o)| + 1);
    SearchClauseInText(o);
    JoinContains(SearchFilters(o), |OwnerFilters(o)| + 1, i);
    InfixWithin(Predicate(SearchFilters(o)[i], |OwnerFilters(o)| + 1 + i), joined, SearchQueryText(o));
  }

  /** Every comparison in the filter list is written in the text, bound to the
      placeholder one past its index. */
  lemma FilterInText(o: SearchOptions, r: nat)
    requires r < |Filters(o)|
    ensures IsInfix(Predicate(Filters(o)[r], r + 1), SearchQueryText(o))
  {
    var owner, search := OwnerFilters(o), SearchFilters(o);
    FiltersSplit(o);
    if r < |owner| {
      assert Filters(o)[r] == owner[0];
      OwnerInText(o);
    } else {
      assert Filters(o)[r] == search[r - |owner|];
      SearchInText(o, r - |owner|);
    }
  }

  lemma PredicateSpelled(g: Filter, n: nat)
    ensures Predicate(g, n) == g.column + " " + g.op + " $" + NatToString(n) + " "
  {
    assert " " + "$" == " $";
  }

  lemma FieldParam(o: SearchOptions, f: Field, limit: JsValue)
    requires Truthy(Get(o, f))
    ensures Rank(o, f) + 1 < |SearchQueryParams(o, limit)|
    ensures SearchQueryParams(o, limit)[Rank(o, f)] == FilterFor(o, f).param
  {
    FilterAtRank(o, f);
  }

  lemma FieldInText(o: SearchOptions, f: Field)
    requires Truthy(Get(o, f))
    ensures IsInfix(Column(f) + " " + Operator(f) + " $" + NatToString(Rank(o, f) + 1) + " ",
                    SearchQueryText(o))
  {
    FilterAtRank(o, f);
    FilterInText(o, Rank(o, f));
    PredicateSpelled(FilterFor(o, f), Rank(o, f) + 1);
  }

  /** A truthy field's value is pushed at index `Rank(o, f)`: the city as
      `%city%`, every other field as the text of its value. The text holds
      its comparison bound to placeholder `Rank(o, f) + 1`, which therefore
      names that value. */
  lemma FieldBinding(o: SearchOptions, f: Field, limit: JsValue)
    requires Truthy(Get(o, f))
    ensures Rank(o, f) + 1 < |SearchQueryParams(o, limit)|
    ensures SearchQueryParams(o, limit)[Rank(o, f)]
            == Str(if f == City then "%" + TemplateString(Get(o, f)) + "%" else TemplateString(Get(o, f)))
    ensures IsInfix(Column(f) + " " + Operator(f) + " $" + NatToString(Rank(o, f) + 1) + " ",
                    SearchQueryText(o))
  {
    FieldParam(o, f, limit);
    FieldInText(o, f);
  }

  lemma {:induction false} TruthyCountConcat(o: SearchOptions, fs: seq<Field>, gs: seq<Field>)
    ensures TruthyCount(o, fs + gs) == TruthyCount(o, fs) + TruthyCount(o, gs)
  {
    if fs == [] {
      assert fs + gs == gs;
    } else {
      assert (fs + gs)[1..] == fs[1..] + gs;
      TruthyCountConcat(o, fs[1..], gs);
    }
  }

  /** The values go into the list in the order the fields are tested: owner_id,
      city, minimum price, maximum price, minimum rating. */
  lemma RankOrder(o: SearchOptions, f: Field, g: Field)
    requires Position(f) < Position(g) && Truthy(Get(o, f))
    ensures Rank(o, f) < Rank(o, g)
  {
    var j, k := Position(f), Position(g);
    assert FieldOrder[..k] == FieldOrder[..j] + FieldOrder[j..k];
    TruthyCountConcat(o, FieldOrder[..j], FieldOrder[j..k]);
    assert FieldOrder[j..k][0] == f;
  }

  // ---------------------------------------------------------------------
  // WHERE and AND.
  // ---------------------------------------------------------------------

  /** A keyword written at the start of a piece of text without its first
      character counts once. */
  lemma CountOpening(kw: string, tail: string, rest: string)
    requires kw != [] && Lacks(kw[1..], kw[0]) && Lacks(tail, kw[0])
    ensures Count(kw + tail + rest, kw) == 1 + Count(rest, kw)
  {
    assert kw + tail + rest == kw + (tail + rest);
    CountKeyword(kw, tail + rest);
    CountSkip(tail, rest, kw);
  }

  lemma {:induction false} JoinLacksW(fs: seq<Filter>, first: nat)
    requires AllClean(fs)
    ensures Lacks(JoinPredicates(fs, first), 'W')
  {
    if |fs| == 1 {
      PredicateClean(fs[0], first);
    } else if |fs| > 1 {
      PredicateClean(fs[0], first);
      assert AllClean(fs[1..]) by {
        forall i | 0 <= i < |fs[1..]| ensures Clean(Comparison(fs[1..][i])) {
          assert fs[1..][i] == fs[i + 1];
        }
      }
      JoinLacksW(fs[1..], first + 1);
      LacksConcat(Predicate(fs[0], first), "AND ", 'W');
      LacksConcat(Predicate(fs[0], first) + "AND ", JoinPredicates(fs[1..], first + 1), 'W');
    }
  }

  /** `k` joined comparisons hold `k - 1` times `AND `. */
  lemma {:induction false} JoinAndCount(fs: seq<Filter>, first: nat, rest: string)
    requires fs != [] && AllClean(fs)
    ensures Count(JoinPredicates(fs, first) + rest, "AND ") == |fs| - 1 + Count(rest, "AND ")
  {
    var p := Predicate(fs[0], first);
    PredicateClean(fs[0], first);
    if |fs| == 1 {
      CountSkip(p, rest, "AND ");
    } else {
      var tail := JoinPredicates(fs[1..], first + 1);
      assert JoinPredicates(fs, first) + rest == p + ("AND " + (tail + rest));
      CountSkip(p, "AND " + (tail + rest), "AND ");
      CountKeyword("AND ", tail + rest);
      assert AllClean(fs[1..]) by {
        forall i | 0 <= i < |fs[1..]| ensures Clean(Comparison(fs[1..][i])) {
          assert fs[1..][i] == fs[i + 1];
        }
      }
      JoinAndCount(fs[1..], first + 1, rest);
    }
  }

  /** The second `WHERE` is written exactly when a search field is truthy. */
  lemma SearchFiltersEmpty(o: SearchOptions)
    ensures SearchFilters(o) == [] <==>
      !(Truthy(o.city) || Truthy(o.minimumPricePerNight)
        || Truthy(o.maximumPricePerNight) || Truthy(o.minimumRating))
  {
    SearchFiltersUnfold(o);
  }

  /** The tail holds neither `WHERE` nor `AND `. */
  lemma LimitClauseLacks(n: nat)
    ensures Lacks(LimitClause(n), 'W') && Lacks(LimitClause(n), 'A')
  {
    var marker := "$" + NatToString(n) + ";\n  ";
    FixedTextClean();
    assert LimitClause(n) == GroupOrderClause + marker;
    DigitsLack(NatToString(n), 'W');
    DigitsLack(NatToString(n), 'A');
    assert Lacks(marker, 'W') && Lacks(marker, 'A');
    LacksConcat(GroupOrderClause, marker, 'W');
    LacksConcat(GroupOrderClause, marker, 'A');
  }

  lemma OwnerClauseWhere(o: SearchOptions, rest: string)
    ensures Count(OwnerClause(o) + rest, "WHERE") == (if Truthy(o.ownerId) then 1 else 0) + Count(rest, "WHERE")
  {
    var owner := OwnerFilters(o);
    OwnerFiltersUnfold(o);
    if owner != [] {
      FiltersClean(o, [OwnerId]);
      PredicateClean(owner[0], 1);
      assert OwnerClause(o) + rest == "WHERE" + (" " + Predicate(owner[0], 1)) + rest;
      CountOpening("WHERE", " " + Predicate(owner[0], 1), rest);
    } else {
      assert OwnerClause(o) + rest == rest;
    }
  }

  lemma SearchClauseWhere(o: SearchOptions, rest: string)
    ensures Count(SearchClause(o) + rest, "WHERE")
            == (if SearchFilters(o) == [] then 0 else 1) + Count(rest, "WHERE")
  {
    var search := SearchFilters(o);
    if search != [] {
      var joined := JoinPredicates(search, |OwnerFilters(o)| + 1);
      FiltersClean(o, SearchFields);
      JoinLacksW(search, |OwnerFilters(o)| + 1);
      assert SearchClause(o) + rest == "WHERE" + (" " + joined) + rest;
      CountOpening("WHERE", " " + joined, rest);
    } else {
      assert SearchClause(o) + rest == rest;
    }
  }

  /** `WHERE` occurs once for a truthy owner_id and once more when any search
      field is truthy: twice (one query, two WHEREs) when both are. */
  lemma WhereCount(o: SearchOptions)
    ensures Count(SearchQueryText(o), "WHERE")
            == (if Truthy(o.ownerId) then 1 else 0)
             + (if Truthy(o.city) || Truthy(o.minimumPricePerNight)
                   || Truthy(o.maximumPricePerNight) || Truthy(o.minimumRating) then 1 else 0)
  {
    var oc, sc := OwnerClause(o), SearchClause(o);
    var lc := LimitClause(|OwnerFilters(o)| + |SearchFilters(o)| + 1);
    TextShape(o);
    LimitClauseLacks(|OwnerFilters(o)| + |SearchFilters(o)| + 1);
    CountNone(lc, "WHERE");
    SearchClauseWhere(o, lc);
    OwnerClauseWhere(o, sc + lc);
    FixedTextClean();
    CountSkip(SelectClause, oc + (sc + lc), "WHERE");
    SearchFiltersEmpty(o);
  }

  lemma SearchClauseAnd(o: SearchOptions, rest: string)
    ensures Count(SearchClause(o) + rest, "AND ")
            == (if SearchFilters(o) == [] then 0 else |SearchFilters(o)| - 1) + Count(rest, "AND ")
  {
    var search := SearchFilters(o);
    if search != [] {
      var joined := JoinPredicates(search, |OwnerFilters(o)| + 1);
      FiltersClean(o, SearchFields);
      assert SearchClause(o) + rest == "WHERE " + (joined + rest);
      CountSkip("WHERE ", joined + rest, "AND ");
      JoinAndCount(search, |OwnerFilters(o)| + 1, rest);
    } else {
      assert SearchClause(o) + rest == rest;
    }
  }

  lemma OwnerClauseLacksA(o: SearchOptions)
    ensures Lacks(OwnerClause(o), 'A')
  {
    var owner := OwnerFilters(o);
    if owner != [] {
      FiltersClean(o, [OwnerId]);
      PredicateClean(owner[0], 1);
      LacksConcat("WHERE ", Predicate(owner[0], 1), 'A');
    }
  }

  /** `AND ` stands only between two search comparisons: one fewer time than
      there are truthy search fields. */
  lemma AndCount(o: SearchOptions)
    ensures Count(SearchQueryText(o), "AND ")
            == if TruthyCount(o, SearchFields) == 0 then 0 else TruthyCount(o, SearchFields) - 1
  {
    var oc, sc := OwnerClause(o), SearchClause(o);
    var lc := LimitClause(|OwnerFilters(o)| + |SearchFilters(o)| + 1);
    FiltersLength(o, SearchFields);
    TextShape(o);
    LimitClauseLacks(|OwnerFilters(o)| + |SearchFilters(o)| + 1);
    CountNone(lc, "AND ");
    SearchClauseAnd(o, lc);
    OwnerClauseLacksA(o);
    CountSkip(oc, sc + lc, "AND ");
    FixedTextClean();
    CountSkip(SelectClause, oc + (sc + lc), "AND ");
  }

  /** Joined comparisons end with a comparison, never with `AND `. */
  lemma {:induction false} JoinEnd(prefix: string, fs: seq<Filter>, first: nat)
    requires fs != []
    ensures !EndsWith(prefix + JoinPredicates(fs, first), "AND ")
    decreases |fs|
  {
    var p := Predicate(fs[0], first);
    if |fs| == 1 {
      PredicateEnd(prefix, fs[0], first);
    } else {
      var tail := JoinPredicates(fs[1..], first + 1);
      assert prefix + JoinPredicates(fs, first) == (prefix + p + "AND ") + tail;
      JoinEnd(prefix + p + "AND ", fs[1..], first + 1);
    }
  }

  lemma JoinEndShape(a: string, b: string, c: string, fs: seq<Filter>, first: nat)
    requires fs != []
    ensures !EndsWith(a + (b + (c + JoinPredicates(fs, first))), "AND ")
  {
    assert a + (b + (c + JoinPredicates(fs, first))) == (a + b + c) + JoinPredicates(fs, first);
    JoinEnd(a + b + c, fs, first);
  }

  /** The filter part of the text never ends in `AND `: the last one is cut. */
  lemma NoTrailingAnd(o: SearchOptions)
    ensures !EndsWith(SelectClause + WhereClauses(o), "AND ")
  {
    var search := SearchFilters(o);
    if search == [] {
      OwnerPartNotEndsWithAnd(o);
      assert SearchClause(o) == "";
      assert SelectClause + (OwnerClause(o) + "") == SelectClause + OwnerClause(o);
    } else {
      assert SearchClause(o) == "WHERE " + JoinPredicates(search, |OwnerFilters(o)| + 1);
      JoinEndShape(SelectClause, OwnerClause(o), "WHERE ", search, |OwnerFilters(o)| + 1);
    }
  }

  /** No field set: every field is falsy. */
  predicate NoneSet(o: SearchOptions) {
    forall f: Field :: !Truthy(Get(o, f))
  }

  lemma NoneSetFilters(o: SearchOptions)
    requires NoneSet(o)
    ensures OwnerFilters(o) == [] && SearchFilters(o) == [] && Filters(o) == []
  {
    assert !Truthy(Get(o, OwnerId)) && !Truthy(Get(o, City)) && !Truthy(Get(o, MinimumPrice));
    assert !Truthy(Get(o, MaximumPrice)) && !Truthy(Get(o, MinimumRating));
    FiltersSplit(o);
    OwnerFiltersUnfold(o);
    SearchFiltersUnfold(o);
  }

  /** With no field set the text is the select head and the tail, with `$1`
      as the limit's placeholder, and the limit is the only value. */
  lemma NoFilters(o: SearchOptions, limit: JsValue)
    requires NoneSet(o)
    ensures SearchQueryText(o) == SelectClause + GroupOrderClause + "$1;\n  "
    ensures SearchQueryParams(o, limit) == [WithDefault(limit, Num(10))]
  {
    NoneSetFilters(o);
    TextShape(o);
    assert OwnerClause(o) + (SearchClause(o) + LimitClause(1)) == LimitClause(1);
    var tail := "$1;\n  ";
    assert LimitClause(1) == GroupOrderClause + tail by {
      assert NatToString(1) == "1";
      assert "$" + NatToString(1) + ";\n  " == tail;
    }
    assert SelectClause + GroupOrderClause + tail == SelectClause + (GroupOrderClause + tail);
  }

  /** With no field set there is no WHERE at all. */
  lemma NoFiltersNoWhere(o: SearchOptions)
    requires NoneSet(o)
    ensures Count(SearchQueryText(o), "WHERE") == 0
  {
    assert !Truthy(Get(o, OwnerId)) && !Truthy(Get(o, City)) && !Truthy(Get(o, MinimumPrice));
    assert !Truthy(Get(o, MaximumPrice)) && !Truthy(Get(o, MinimumRating));
    WhereCount(o);
  }

  // ---------------------------------------------------------------------
  // Values never reach the text.
  // ---------------------------------------------------------------------

  /** Two lists of comparisons that differ at most in their values. */
  predicate SameComparisons(a: seq<Filter>, b: seq<Filter>) {
    |a| == |b| && forall i :: 0 <= i < |a| ==> Comparison(a[i]) == Comparison(b[i])
  }

  lemma {:induction false} FiltersSameComparisons(o1: SearchOptions, o2: SearchOptions, fs: seq<Field>)
    requires SamePattern(o1, o2)
    ensures SameComparisons(FiltersOf(o1, fs), FiltersOf(o2, fs))
  {
    if fs != [] {
      FiltersSameComparisons(o1, o2, fs[1..]);
    }
  }

  lemma {:induction false} JoinSameComparisons(a: seq<Filter>, b: seq<Filter>, first: nat)
    requires SameComparisons(a, b)
    ensures JoinPredicates(a, first) == JoinPredicates(b, first)
  {
    if |a| > 1 {
      assert SameComparisons(a[1..], b[1..]) by {
        forall i | 0 <= i < |a[1..]| ensures Comparison(a[1..][i]) == Comparison(b[1..][i]) {
          assert a[1..][i] == a[i + 1] && b[1..][i] == b[i + 1];
        }
      }
      JoinSameComparisons(a[1..], b[1..], first + 1);
    }
  }

  /** Options whose fields are truthy in the same places. */
  predicate SamePattern(o1: SearchOptions, o2: SearchOptions) {
    forall f: Field :: Truthy(Get(o1, f)) == Truthy(Get(o2, f))
  }

  lemma SameClauses(o1: SearchOptions, o2: SearchOptions)
    requires SamePattern(o1, o2)
    ensures OwnerClause(o1) == OwnerClause(o2)
    ensures SearchClause(o1) == SearchClause(o2)
    ensures |Filters(o1)| == |Filters(o2)|
  {
    FiltersSameComparisons(o1, o2, [OwnerId]);
    FiltersSameComparisons(o1, o2, SearchFields);
    FiltersSameComparisons(o1, o2, FieldOrder);
    JoinSameComparisons(SearchFilters(o1), SearchFilters(o2), |OwnerFilters(o1)| + 1);
    if OwnerFilters(o1) != [] {
      assert Predicate(OwnerFilters(o1)[0], 1) == Predicate(OwnerFilters(o2)[0], 1);
    }
  }

  /** The text depends only on which fields are truthy: whatever the values
      are, they travel in the list and never in the SQL text. */
  lemma TextIgnoresValues(o1: SearchOptions, o2: SearchOptions)
    requires SamePattern(o1, o2)
    ensures SearchQueryText(o1) == SearchQueryText(o2)
  {
    SameClauses(o1, o2);
  }
}
