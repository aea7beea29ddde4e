# LightBnB query builders in Dafny

This project models how the LightBnB web application's database layer
(`lightbnb_webapp/server/database.js`) puts together the SQL it hands to
PostgreSQL. Each query is two things: SQL text with positional placeholders
`$1`, `$2`, ... and the list of values those placeholders bind.

- `getAllProperties(options, limit = 10)` builds the property search step by
  step:
  - It starts from a fixed SELECT head.
  - When `owner_id` is truthy, it pushes its value and appends
    `WHERE owner_id = $n `.
  - When any of city, minimum price, maximum price or minimum rating is
    truthy, it appends `WHERE `.
  - For each of those four fields that is truthy, in that order, it pushes
    the value and appends `column op $n AND `. The city is pushed as `%city%`
    and compared with `LIKE`.
  - It cuts a trailing `AND `, pushes the limit and appends the GROUP BY /
    ORDER BY / `LIMIT $n` tail.

  Every `$n` is the length of the value list just after the push.
- `getAllReservations(guest_id, limit = 10)` uses a fixed text with `$1` for
  the guest and `$2` for the limit.
- `addProperty(property)` uses a fixed INSERT of 14 columns with `$1` ... `$14`
  and a list of the property's 14 fields in column order.

Four modules support the builders:

- **`JsValues`** models the JavaScript values that reach the builders, with
  JavaScript truthiness, the text a template literal `${v}` produces, and
  default parameters.
- **`SqlText`** reads SQL text the way the database reads the parts that
  matter here: the placeholders, in order, and keyword counts.
- **`Decimal`** writes and reads the decimal numerals after each `$`.
- **`PropertySearch`** gives the property search a declarative specification:
  - `SearchQueryText` and `SearchQueryParams` are written from the list of
    truthy fields.
  - The imperative builder `GetAllPropertiesQuery` appends to a string and a
    list, as the source does, and is proved to produce exactly that
    specification.

`SearchFacts` proves what the search query guarantees. `FixedQueries` does
the same for the two fixed queries.

The builder is one JavaScript function. The model splits it into three
methods run in sequence:

- `GetAllPropertiesQuery` handles the owner test and the `WHERE` test.
- `AddSearchFilters` handles the four search tests.
- `FinishQuery` cuts the trailing `AND ` and adds the limit and the tail.

Each method's contract states the string and list it leaves behind.

The query is modelled as written, including this case: when `owner_id` and a
search field are both truthy, the text holds `WHERE` twice
(`... WHERE owner_id = $1 WHERE city LIKE $2 ...`). `SearchFacts.WhereCount`
states exactly how many times `WHERE` occurs. Nothing in the database layer
joins the two parts with `AND`.

## Model

| member | source | states |
|---|---|---|
| PropertySearch.GetAllPropertiesQuery | lightbnb_webapp/server/database.js:120-181 | the query handed to `pool.query`, whose string and list are built by the owner test, the WHERE test, the four search tests, the AND cut and the limit tail, has exactly the text `SearchQueryText(options)` and the list `SearchQueryParams(options, limit)` |
| PropertySearch.AddSearchFilters | lightbnb_webapp/server/database.js:145-167 | after the four search tests, in order, the list holds the owner value and then each truthy search field's value, and the text holds each truthy field's `column op $n AND `, numbered after the owner's |
| PropertySearch.FinishQuery | lightbnb_webapp/server/database.js:169-181 | cutting a trailing `AND `, pushing the limit (10 when undefined) and appending GROUP BY / ORDER BY / `LIMIT $n` with n the new list length completes the specified text and list |
| PropertySearch.TrimStep | lightbnb_webapp/server/database.js:169-172 | the text ends in `AND ` exactly when a search field was written; cutting four characters in that case, or leaving the text alone otherwise, gives the select head and the WHERE parts with no dangling `AND ` |
| PropertySearch.OwnerStep | lightbnb_webapp/server/database.js:132-136 | a truthy `owner_id` gives the list `[owner text]` and the text `... WHERE owner_id = $1 `; a falsy one leaves both untouched |
| PropertySearch.WhereStep | lightbnb_webapp/server/database.js:140-143 | the second `WHERE ` is appended exactly when some search field is truthy, that is, when the search filter list is non-empty |
| PropertySearch.FieldStep | lightbnb_webapp/server/database.js:145-167 | a truthy field pushes its value and appends its comparison with the placeholder numbered by the new list length; a falsy field changes nothing |
| PropertySearch.FinalStep | lightbnb_webapp/server/database.js:176-181 | the limit is pushed raw after the filter values (10 when undefined), and the tail's placeholder is the new list length |
| SearchFacts.QueryPlaceholders | lightbnb_webapp/server/database.js:133-181 | the text's placeholders are `$1` ... `$N` in order of appearance, where N is the length of the list, so `$n` always names the n-th value |
| SearchFacts.ParamCount | lightbnb_webapp/server/database.js:123-176 | the list holds one value per truthy field plus one, and the last value is the limit, which is 10 when the argument is undefined |
| SearchFacts.FieldBinding | lightbnb_webapp/server/database.js:133-167 | a truthy field's value sits at the index given by the number of truthy fields tested before it; the city is `%city%` and the other fields are their template text; the text holds `column op $index+1` for that field |
| SearchFacts.FilterInText | lightbnb_webapp/server/database.js:133-167 | every comparison in the filter list is written in the text with the placeholder one past its index |
| SearchFacts.RankOrder | lightbnb_webapp/server/database.js:133-167 | values go into the list in test order: a truthy field tested earlier gets a lower index than any field tested later |
| SearchFacts.WhereCount | lightbnb_webapp/server/database.js:132-143 | `WHERE` occurs once if `owner_id` is truthy plus once if any search field is truthy: twice when both hold |
| SearchFacts.AndCount | lightbnb_webapp/server/database.js:145-172 | `AND ` occurs one time fewer than there are truthy search fields (zero when there are none), so only between two search comparisons |
| SearchFacts.NoTrailingAnd | lightbnb_webapp/server/database.js:169-172 | the text before the GROUP BY tail never ends in `AND ` |
| SearchFacts.NoFilters | lightbnb_webapp/server/database.js:120-181 | with no field truthy the text is the select head plus the tail with `$1`, and the list is `[limit]`, with 10 when the limit is undefined |
| SearchFacts.NoFiltersNoWhere | lightbnb_webapp/server/database.js:132-143 | with no field truthy the text holds no `WHERE` |
| SearchFacts.TextIgnoresValues | lightbnb_webapp/server/database.js:133-167 | two option objects truthy in the same fields give the same SQL text: values travel only in the list |
| FixedQueries.GetAllReservationsQuery | lightbnb_webapp/server/database.js:86-97 | the query is the source's fixed reservations text with the list `[guest_id, limit]`, the limit being 10 when undefined; the text's placeholders are `$1`, `$2`, one per value |
| FixedQueries.ReservationsBinding | lightbnb_webapp/server/database.js:86-97 | the reservations text's placeholders are `$1`, `$2` for a list of two; `$1` holds the guest id compared in the WHERE, and `$2` holds the limit taken by LIMIT, which is 10 when it is undefined |
| FixedQueries.ReservationsPlaceholders | lightbnb_webapp/server/database.js:88-97 | the reservations text holds `$1` and then `$2`, and no other placeholder |
| FixedQueries.ReservationsClauses | lightbnb_webapp/server/database.js:93-96 | `$1` follows `WHERE reservations.guest_id = ` and `$2` follows `LIMIT ` |
| FixedQueries.AddPropertyQuery | lightbnb_webapp/server/database.js:209-246 | the query is the fixed INSERT with the property's 14 fields in column order: its placeholders are `$1` ... `$14` for a list of 14, and the i-th value is the property's field named by the i-th column |
| FixedQueries.InsertParamsInColumnOrder | lightbnb_webapp/server/database.js:213-246 | the value list has 14 entries in the order of the column list: entry i is the property field of column i |
| FixedQueries.InsertPlaceholders | lightbnb_webapp/server/database.js:211-229 | the INSERT text's placeholders are `$1` ... `$14`, in order |
| Decimal.ValueOfNatToString | lightbnb_webapp/server/database.js:135 | the numeral written after `$` from the list length reads back as that length |

## Left out

- Running the queries is not modelled. That covers `pool.query`, the promises, `.then` / `.catch`, `console.log` and the rows returned. The model stops at the text and the list handed to `pool.query`.
- SQL semantics is not modelled. The model fixes which text is sent, not what PostgreSQL makes of it. It does not cover whether the double `WHERE` parses or what `LIKE` matches.
- The rest of `database.js` is outside the core: `getUserWithEmail`, `getUserWithId`, `addUser`, the JSON fixtures and the commented-out in-memory `addProperty`.
- JavaScript numbers are integers here (`Num(int)`): fractions, `NaN`, `Infinity` and `-0` are not modelled. Integers of magnitude 10^21 or more, which JavaScript writes in exponent form (`1e+21`), and integers beyond 2^53, which are not exact JavaScript numbers, are not modelled either: `TemplateString` writes every integer as a plain decimal numeral. Objects and arrays passed as option values are left out too, with their template text (`[object Object]`, comma-joined elements).
- `options` and `property` are taken to be objects. When either is `undefined` or `null` the source throws a `TypeError` at its first field read (database.js:133 and 232); that path is not modelled.
- `limit` is not validated by the source and is not here either: any value, including `null` or a string, is pushed as it comes. Only `undefined` is replaced by 10.
- FixedQueries.AddPropertyQuery: the INSERT text is written from the column list and the marker list `$1, ..., $14`. It spells the same characters as the source's literal, but the verifier does not check that spelling against the literal.
- The database's placeholder reader is modelled only as far as the builders need it. A `$` followed by digits is a placeholder. Quoting and comments in SQL are not considered, and none occur in these texts.
