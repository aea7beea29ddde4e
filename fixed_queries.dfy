/** The two queries whose text never changes: the reservations of a guest
    (`getAllReservations`) and the insertion of a property (`addProperty`).
    Their values are passed as they come, without a truthiness test and
    without conversion to text. */
module FixedQueries {
  import opened Decimal
  import opened JsValues
  import opened SqlText

  // ---------------------------------------------------------------------
  // getAllReservations
  // ---------------------------------------------------------------------

  /** The reservations text before its WHERE line. */
  const ReservationsSelect: string :=
    "\n      SELECT properties.*, " + "reservations.*, " + "avg(rating) as average_rating" +
    "\n      FROM reservations" +
    "\n      JOIN properties " + "ON reservations.property_id " + "= properties.id" +
    "\n      JOIN property_reviews " + "ON properties.id " + "= property_reviews.property_id"

  /** The comparison the guest id is bound to. */
  const GuestFilter: string := "WHERE reservations." + "guest_id = "

  /** Between the guest's placeholder and the LIMIT line. */
  const ReservationsOrder: string :=
    "\n      GROUP BY properties.id, " + "reservations.id" +
    "\n      ORDER BY reservations.start_date"

  const LineBreak: string := "\n      "

  const ReservationsSql: string :=
    ReservationsSelect + LineBreak + GuestFilter + "$1"
    + ReservationsOrder + LineBreak + "LIMIT " + "$2" + ";\n    "

  /** The query of `getAllReservations(guest_id, limit = 10)`: `$1` and `$2`
      bind the guest id and the limit, which is 10 when it is undefined. */
  function GetAllReservationsQuery(guestId: JsValue, limit: JsValue): (q: Query)
    ensures Placeholders(q.text) == Span(1, |q.params|)
    ensures |q.params| == 2 && q.params[0] == guestId
    ensures limit.Undefined? ==> q.params[1] == Num(10)
    ensures !limit.Undefined? ==> q.params[1] == limit
  {
    ReservationsPlaceholders();
    var q := Query(ReservationsSql, [guestId, WithDefault(limit, Num(10))]);
    BindsTwo(q);
    q
  }

  /** Placeholders `$1`, `$2` for a list of two values. */
  lemma BindsTwo(q: Query)
    requires Placeholders(q.text) == [1, 2] && |q.params| == 2
    ensures Placeholders(q.text) == Span(1, |q.params|)
  {
    assert Span(1, 2) == [1, 2];
  }

  lemma SelectOpeningLacks()
    ensures Lacks("\n      SELECT properties.*, ", '$') && Lacks("reservations.*, ", '$')
    ensures Lacks("avg(rating) as average_rating", '$') && Lacks("\n      FROM reservations", '$')
  {
  }

  lemma SelectJoinsLack()
    ensures Lacks("\n      JOIN properties ", '$') && Lacks("ON reservations.property_id ", '$')
    ensures Lacks("= properties.id", '$') && Lacks("\n      JOIN property_reviews ", '$')
    ensures Lacks("ON properties.id ", '$') && Lacks("= property_reviews.property_id", '$')
  {
  }

  lemma LacksConcat3(a: string, b: string, c: string, x: char)
    requires Lacks(a, x) && Lacks(b, x) && Lacks(c, x)
    ensures Lacks(a + b + c, x)
  {
    LacksConcat(a, b, x);
    LacksConcat(a + b, c, x);
  }

  lemma ReservationsSelectLacks()
    ensures Lacks(ReservationsSelect, '$')
  {
    var h1, h2, h3 := "\n      SELECT properties.*, ", "reservations.*, ", "avg(rating) as average_rating";
    var h4 := "\n      FROM reservations";
    var h5, h6, h7 := "\n      JOIN properties ", "ON reservations.property_id ", "= properties.id";
    var h8, h9, h10 := "\n      JOIN property_reviews ", "ON properties.id ", "= property_reviews.property_id";
    SelectOpeningLacks();
    SelectJoinsLack();
    LacksConcat3(h1, h2, h3, '$');
    LacksConcat3(h1 + h2 + h3, h4, h5, '$');
    LacksConcat3(h1 + h2 + h3 + h4 + h5, h6, h7, '$');
    LacksConcat3(h1 + h2 + h3 + h4 + h5 + h6 + h7, h8, h9, '$');
    LacksConcat(h1 + h2 + h3 + h4 + h5 + h6 + h7 + h8 + h9, h10, '$');
  }

  lemma OrderPiecesLack()
    ensures Lacks("WHERE reservations.", '$') && Lacks("guest_id = ", '$') && Lacks(LineBreak, '$')
    ensures Lacks("\n      GROUP BY properties.id, ", '$') && Lacks("reservations.id", '$')
    ensures Lacks("\n      ORDER BY reservations.start_date", '$') && Lacks(";\n    ", '$')
    ensures Lacks("LIMIT ", '$')
  {
  }

  lemma ReservationsPiecesLack()
    ensures Lacks(ReservationsSelect + LineBreak + GuestFilter, '$')
    ensures Lacks(ReservationsOrder + LineBreak + "LIMIT ", '$') && Lacks(";\n    ", '$')
  {
    ReservationsSelectLacks();
    OrderPiecesLack();
    LacksConcat("WHERE reservations.", "guest_id = ", '$');
    LacksConcat3(ReservationsSelect, LineBreak, GuestFilter, '$');
    LacksConcat3("\n      GROUP BY properties.id, ", "reservations.id", "\n      ORDER BY reservations.start_date", '$');
    LacksConcat3(ReservationsOrder, LineBreak, "LIMIT ", '$');
  }

  lemma MarkerText(n: nat, text: string)
    requires text == "$" + NatToString(n)
    ensures Placeholders(text) == [n]
  {
    PlaceholderMarker(n, "");
    assert text + "" == text;
  }

  /** Text with `$1` and `$2` written once each, in this order, between
      pieces that hold no `$` and do not start with a digit. */
  lemma {:induction false} TwoMarkers(a: string, b: string, c: string)
    requires Lacks(a, '$') && Lacks(b, '$') && Lacks(c, '$')
    requires b != [] && !IsDigit(b[0]) && c != [] && !IsDigit(c[0])
    ensures Placeholders(a + "$1" + b + "$2" + c) == [1, 2]
  {
    assert NatToString(1) == "1" && NatToString(2) == "2";
    MarkerText(1, "$1");
    MarkerText(2, "$2");
    PlaceholdersNone(a);
    PlaceholdersNone(b);
    PlaceholdersNone(c);
    PlaceholdersConcat(a, "$1");
    PlaceholdersConcat(a + "$1", b);
    PlaceholdersConcat(a + "$1" + b, "$2");
    PlaceholdersConcat(a + "$1" + b + "$2", c);
  }

  /** The reservations text regrouped around its two placeholders. */
  lemma MarkersShape(s: string, l: string, g: string, m1: string, o: string, lim: string, m2: string, t: string)
    ensures s + l + g + m1 + o + l + lim + m2 + t == (s + l + g) + m1 + (o + l + lim) + m2 + t
    ensures s + l + g + m1 + o + l + lim + m2 + t == (s + l) + (g + m1) + (o + l + lim + m2 + t)
    ensures s + l + g + m1 + o + l + lim + m2 + t == (s + l + g + m1 + o + l) + (lim + m2) + t
  {
  }

  /** The reservations text holds `$1` and then `$2`, and no other placeholder. */
  lemma ReservationsPlaceholders()
    ensures Placeholders(ReservationsSql) == [1, 2]
  {
    var a := ReservationsSelect + LineBreak + GuestFilter;
    var b := ReservationsOrder + LineBreak + "LIMIT ";
    ReservationsPiecesLack();
    MarkersShape(ReservationsSelect, LineBreak, GuestFilter, "$1", ReservationsOrder, "LIMIT ", "$2", ";\n    ");
    assert b[0] == '\n';
    TwoMarkers(a, b, ";\n    ");
  }

  /** `$1` is what the WHERE compares the guest id with, `$2` what LIMIT takes. */
  lemma ReservationsClauses()
    ensures IsInfix(GuestFilter + "$1", ReservationsSql)
    ensures IsInfix("LIMIT $2", ReservationsSql)
  {
    var s, l, g, o := ReservationsSelect, LineBreak, GuestFilter, ReservationsOrder;
    MarkersShape(s, l, g, "$1", o, "LIMIT ", "$2", ";\n    ");
    InfixOf(s + l, g + "$1", o + l + "LIMIT " + "$2" + ";\n    ");
    InfixOf(s + l + g + "$1" + o + l, "LIMIT " + "$2", ";\n    ");
    assert "LIMIT " + "$2" == "LIMIT $2";
  }

  /** The reservations query binds `$1` to the guest id and `$2` to the
      limit, which is 10 when the argument is `undefined`; the guest id is
      what the WHERE compares, the limit what LIMIT takes. */
  lemma ReservationsBinding(guestId: JsValue, limit: JsValue)
    ensures Placeholders(GetAllReservationsQuery(guestId, limit).text)
            == Span(1, |GetAllReservationsQuery(guestId, limit).params|)
    ensures GetAllReservationsQuery(guestId, limit).params[0] == guestId
    ensures limit.Undefined? ==> GetAllReservationsQuery(guestId, limit).params[1] == Num(10)
    ensures !limit.Undefined? ==> GetAllReservationsQuery(guestId, limit).params[1] == limit
    ensures IsInfix(GuestFilter + "$1", GetAllReservationsQuery(guestId, limit).text)
    ensures IsInfix("LIMIT $2", GetAllReservationsQuery(guestId, limit).text)
  {
    ReservationsClauses();
  }

  // ---------------------------------------------------------------------
  // addProperty
  // ---------------------------------------------------------------------

  /** The property object passed to `addProperty`; a field it lacks is `Undefined`. */
  datatype PropertyInput = PropertyInput(
    ownerId: JsValue,
    title: JsValue,
    description: JsValue,
    thumbnailPhotoUrl: JsValue,
    coverPhotoUrl: JsValue,
    costPerNight: JsValue,
    street: JsValue,
    city: JsValue,
    province: JsValue,
    postCode: JsValue,
    country: JsValue,
    parkingSpaces: JsValue,
    numberOfBathrooms: JsValue,
    numberOfBedrooms: JsValue)

  /** The columns the INSERT names, in the order it names them. */
  const PropertyColumns: seq<string> := [
    "owner_id", "title", "description", "thumbnail_photo_url", "cover_photo_url",
    "cost_per_night", "street", "city", "province", "post_code", "country",
    "parking_spaces", "number_of_bathrooms", "number_of_bedrooms"]

  /** The property's field named like a column: `property[name]`, or
      `undefined` when it has none. */
  function ColumnValue(p: PropertyInput, name: string): JsValue {
    if name == "owner_id" then p.ownerId
    else if name == "title" then p.title
    else if name == "description" then p.description
    else if name == "thumbnail_photo_url" then p.thumbnailPhotoUrl
    else if name == "cover_photo_url" then p.coverPhotoUrl
    else if name == "cost_per_night" then p.costPerNight
    else if name == "street" then p.street
    else if name == "city" then p.city
    else if name == "province" then p.province
    else if name == "post_code" then p.postCode
    else if name == "country" then p.country
    else if name == "parking_spaces" then p.parkingSpaces
    else if name == "number_of_bathrooms" then p.numberOfBathrooms
    else if name == "number_of_bedrooms" then p.numberOfBedrooms
    else Undefined
  }

  /** `items` separated by `sep`. */
  function Join(items: seq<string>, sep: string): string
    decreases |items|
  {
    if items == [] then ""
    else if |items| == 1 then items[0]
    else items[0] + sep + Join(items[1..], sep)
  }

  /** The placeholders `$first, $first+1, ...`, `n` of them, separated by `, `. */
  function Markers(first: nat, n: nat): string
    decreases n
  {
    if n == 0 then ""
    else if n == 1 then "$" + NatToString(first)
    else "$" + NatToString(first) + ", " + Markers(first + 1, n - 1)
  }

  const InsertHead: string := "\n    INSERT INTO properties" + "\n    ("
  const ColumnSeparator: string := ",\n    "
  const ValuesHead: string := ")\n    VALUES ("
  const InsertTail: string := ")\n    RETURNING *;\n  "

  /** The text of the INSERT: the column list and the VALUES list written
      from `PropertyColumns` and `$1` ... `$14`. */
  const InsertPropertySql: string :=
    InsertHead + Join(PropertyColumns, ColumnSeparator) + ValuesHead + Markers(1, 14) + InsertTail

  /** The values list of `addProperty`, written out field by field. */
  function InsertParams(p: PropertyInput): seq<JsValue> {
    [p.ownerId, p.title, p.description, p.thumbnailPhotoUrl, p.coverPhotoUrl,
     p.costPerNight, p.street, p.city, p.province, p.postCode, p.country,
     p.parkingSpaces, p.numberOfBathrooms, p.numberOfBedrooms]
  }

  /** The query of `addProperty(property)`: the INSERT's placeholders are
      `$1` ... `$14` in order, one per value, and the `i`-th value is the
      property's field of the `i`-th column. */
  function AddPropertyQuery(p: PropertyInput): (q: Query)
    ensures Placeholders(q.text) == Span(1, |q.params|)
    ensures |q.params| == |PropertyColumns|
    ensures forall i :: 0 <= i < |PropertyColumns| ==> q.params[i] == ColumnValue(p, PropertyColumns[i])
  {
    InsertParamsInColumnOrder(p);
    InsertPlaceholders();
    Query(InsertPropertySql, InsertParams(p))
  }

  lemma FirstColumnsInOrder(p: PropertyInput)
    ensures forall i :: 0 <= i < 5 ==> InsertParams(p)[i] == ColumnValue(p, PropertyColumns[i])
  {
    var cs, ps := PropertyColumns, InsertParams(p);
    assert ps[0] == ColumnValue(p, cs[0]) && ps[1] == ColumnValue(p, cs[1]);
    assert ps[2] == ColumnValue(p, cs[2]) && ps[3] == ColumnValue(p, cs[3]);
    assert ps[4] == ColumnValue(p, cs[4]);
  }

  lemma MiddleColumnsInOrder(p: PropertyInput)
    ensures forall i :: 5 <= i < 10 ==> InsertParams(p)[i] == ColumnValue(p, PropertyColumns[i])
  {
    var cs, ps := PropertyColumns, InsertParams(p);
    assert ps[5] == ColumnValue(p, cs[5]) && ps[6] == ColumnValue(p, cs[6]);
    assert ps[7] == ColumnValue(p, cs[7]) && ps[8] == ColumnValue(p, cs[8]);
    assert ps[9] == ColumnValue(p, cs[9]);
  }

  lemma LastColumnsInOrder(p: PropertyInput)
    ensures forall i :: 10 <= i < 14 ==> InsertParams(p)[i] == ColumnValue(p, PropertyColumns[i])
  {
    var cs, ps := PropertyColumns, InsertParams(p);
    assert ps[10] == ColumnValue(p, cs[10]) && ps[11] == ColumnValue(p, cs[11]);
    assert ps[12] == ColumnValue(p, cs[12]) && ps[13] == ColumnValue(p, cs[13]);
  }

  /** The `i`-th value of the list is the property's field of the `i`-th
      column: the list and the column list are in the same order. */
  lemma InsertParamsInColumnOrder(p: PropertyInput)
    ensures |InsertParams(p)| == |PropertyColumns| == 14
    ensures forall i :: 0 <= i < 14 ==> InsertParams(p)[i] == ColumnValue(p, PropertyColumns[i])
  {
    FirstColumnsInOrder(p);
    MiddleColumnsInOrder(p);
    LastColumnsInOrder(p);
  }

  lemma PlaceholdersOfMarkersHead(first: nat, n: nat, rest: string)
    requires n > 1
    ensures Placeholders(Markers(first, n) + rest) == [first] + Placeholders(Markers(first + 1, n - 1) + rest)
  {
    var later := Markers(first + 1, n - 1);
    assert Markers(first, n) + rest == "$" + NatToString(first) + (", " + (later + rest));
    PlaceholderMarker(first, ", " + (later + rest));
    PlaceholdersSkip(", ", later + rest);
  }

  lemma PlaceholdersOfOneMarker(first: nat, rest: string)
    requires rest == [] || !IsDigit(rest[0])
    ensures Placeholders(Markers(first, 1) + rest) == Span(first, 1) + Placeholders(rest)
  {
    PlaceholderMarker(first, rest);
    SpanOne(first);
  }

  /** A list of `$` markers holds exactly the placeholders it writes. */
  lemma {:induction false} PlaceholdersOfMarkers(first: nat, n: nat, rest: string)
    requires rest == [] || !IsDigit(rest[0])
    ensures Placeholders(Markers(first, n) + rest) == Span(first, n) + Placeholders(rest)
    decreases n
  {
    if n == 0 {
      assert Markers(first, n) + rest == rest;
    } else if n == 1 {
      PlaceholdersOfOneMarker(first, rest);
    } else {
      PlaceholdersOfMarkersHead(first, n, rest);
      PlaceholdersOfMarkers(first + 1, n - 1, rest);
      SpanConsAppend(first, n - 1, Placeholders(rest));
    }
  }


  /** Names without `$` joined by a separator without `$` hold no `$`. */
  lemma {:induction false} JoinLacks(items: seq<string>, sep: string, c: char)
    requires forall i :: 0 <= i < |items| ==> Lacks(items[i], c)
    requires Lacks(sep, c)
    ensures Lacks(Join(items, sep), c)
  {
    if |items| > 1 {
      JoinLacks(items[1..], sep, c);
      LacksConcat(items[0], sep, c);
      LacksConcat(items[0] + sep, Join(items[1..], sep), c);
    }
  }

  lemma ColumnsLackDollar()
    ensures forall i :: 0 <= i < |PropertyColumns| ==> Lacks(PropertyColumns[i], '$')
  {
    var cs := PropertyColumns;
    assert Lacks(cs[0], '$') && Lacks(cs[1], '$') && Lacks(cs[2], '$') && Lacks(cs[3], '$');
    assert Lacks(cs[4], '$') && Lacks(cs[5], '$') && Lacks(cs[6], '$') && Lacks(cs[7], '$');
    assert Lacks(cs[8], '$') && Lacks(cs[9], '$') && Lacks(cs[10], '$') && Lacks(cs[11], '$');
    assert Lacks(cs[12], '$') && Lacks(cs[13], '$');
  }

  lemma InsertPiecesLack()
    ensures Lacks(InsertHead, '$') && Lacks(ValuesHead, '$') && Lacks(InsertTail, '$')
  {
    assert Lacks("\n    INSERT INTO properties", '$') && Lacks("\n    (", '$');
    LacksConcat("\n    INSERT INTO properties", "\n    (", '$');
  }

  lemma ColumnListLacks()
    ensures Lacks(Join(PropertyColumns, ColumnSeparator), '$')
  {
    ColumnsLackDollar();
    assert Lacks(ColumnSeparator, '$');
    JoinLacks(PropertyColumns, ColumnSeparator, '$');
  }

  /** The INSERT up to its VALUES list holds no `$`. */
  lemma InsertHeadLacks()
    ensures Lacks(InsertHead + Join(PropertyColumns, ColumnSeparator) + ValuesHead, '$')
  {
    var columns := Join(PropertyColumns, ColumnSeparator);
    ColumnListLacks();
    InsertPiecesLack();
    LacksConcat(InsertHead, columns, '$');
    LacksConcat(InsertHead + columns, ValuesHead, '$');
  }

  /** The INSERT's placeholders are `$1` ... `$14`, in order. */
  lemma InsertPlaceholders()
    ensures Placeholders(InsertPropertySql) == Span(1, 14)
  {
    var head := InsertHead + Join(PropertyColumns, ColumnSeparator) + ValuesHead;
    var markers := Markers(1, 14);
    InsertHeadLacks();
    assert InsertPropertySql == head + (markers + InsertTail);
    PlaceholdersSkip(head, markers + InsertTail);
    PlaceholdersOfMarkers(1, 14, InsertTail);
    InsertPiecesLack();
    PlaceholdersNone(InsertTail);
    assert Span(1, 14) + [] == Span(1, 14);
  }
}
