# Jobly SQL-fragment builders

A Dafny model of the part of the Jobly data-access layer that writes SQL text
from sparse JavaScript objects:

- `sqlForPartialUpdate` (helpers/sql.js) turns an ordered, non-empty set of
  fields to change, together with a field-to-column rename map, into a SET list
  `"col1"=$1, "col2"=$2, …` and the list of new values in the same order.
- `Company.findAll` (models/company.js) turns an optional `{ nameLike,
  minEmployees, maxEmployees }` filter into the `WHERE …` text spliced before
  `ORDER BY name`. It rejects an inverted employee range.
- `Job.findAll` (models/job.js) does the same for `{ hasEquity, title,
  minSalary }` before `ORDER BY title`. Here the decision to write `WHERE ` rests
  on `hasEquity` alone.
- `Company.update` and `Job.update` put the SET list into an UPDATE statement.
  The key is bound as parameter `$(N+1)`, after the N values. `Job.update` first
  refuses to change `companyHandle`.

Modules:

- `Wrappers`: `Option`, `Result` and the `BadRequest` error with its message.
- `Decimal`: how JavaScript writes an integer into a string, and the parse that
  reads it back. The two are proved inverse between integers and canonical
  signed numerals, in both directions.
- `SqlText`: `Array.prototype.join`, and a scanner `Placeholders` that lists the
  `$k` markers of SQL text in order.
- `Sql`: helpers/sql.js.
- `Company`: models/company.js.
- `Job`: models/job.js.

Each `findAll` WHERE construction is an imperative method (`BuildWhere`). It
grows a `where` string and a `clauses` list branch by branch, as the code does.
It is proved equal to a declarative `Where` function: the conditions in their
fixed order, joined with `"AND "`. The properties are lemmas about `Where`.

The filter values are written into the SQL text literally, as the code does.
For the way `Job.findAll` treats a false `hasEquity`, see "## Findings".

Inputs are modelled as follows:

- A JavaScript object of fields to update is an ordered sequence of
  `(key, value)` entries.
- A value is `null`, a boolean, an integer or a string.
- A filter object is `None` (undefined) or a record. Each recognised key in it
  is `Some(value)` or `None`. The record also carries a count of any other keys,
  so "the object has keys" is `KeyCount(f) > 0`.

The placeholder properties (`SetColsPlaceholders`, `Company.UpdatePlaceholders`,
`Job.UpdatePlaceholders`) assume that the field names and their renamed columns
contain no `$`. Under that assumption, the markers in setCols are exactly `1..N`
in order, and the markers in the full UPDATE statement are exactly `1..N+1` in
order. So the k-th marker names the k-th parameter.

## Model

| member | source | states |
|---|---|---|
| `Sql.SqlForPartialUpdate` | helpers/sql.js:13-26 | empty data fails with BadRequest "No data" and nothing else fails; otherwise setCols is the assignment terms joined by ", ", and values has one entry per field, the i-th being the i-th field's value verbatim (null included) |
| `Sql.ColumnFor` | helpers/sql.js:19 | the column is the rename when the map has a non-empty one for the key, otherwise the key itself |
| `Sql.Assignments` | helpers/sql.js:18-20 | one term per key, the i-th being `"<column of key i>"=$<first+i>` |
| `Sql.SetColsPlaceholders` | helpers/sql.js:17-24 | the `$k` markers of setCols are exactly 1..N in order, N being the number of values |
| `Sql.RenamesMatterOnlyForDataKeys` | helpers/sql.js:18-20 | two rename maps that give the data's keys the same columns give the same result, so the order and other entries of the map do not matter |
| `Sql.RenameOneFieldExample` | helpers/sql.test.js:5-11 | `{firstName: "Sarah"}` with `{firstName: "first_name"}` gives `"first_name"=$1` and `["Sarah"]` |
| `Sql.FullListExample` | helpers/sql.test.js:39-55 | five fields with three renames give exactly the SET list `"first_name"=$1, "last_name"=$2, "password"=$3, "email"=$4, "is_admin"=$5` the test expects: the terms numbered 1..5 in the data's order, password and email unrenamed, and the five values in order; the rename map is a Dafny map, which has no order, so the order in which the test lists the renames cannot matter here |
| `Sql.UpdateStatementNumbered` | models/company.js:154-158 | an UPDATE statement made of the SET list and the key marker `$(N+1)`, with fixed text free of `$`, with field names and their columns free of `$`, and with the text after the SET list and after the key marker not starting with a digit, has markers exactly 1..N+1; both UPDATE templates meet these conditions |
| `SqlText.JoinSnoc` | helpers/sql.js:23 | `join` adds the separator and then the next part, so joining one more part appends separator and part to the joined rest |
| `SqlText.JoinStartsWithFirst` | models/company.js:80 | a joined non-empty list begins with its first part |
| `SqlText.PlaceholdersAppend` | helpers/sql.js:18-19 | the `$k` markers of two concatenated texts are those of the first followed by those of the second, when the second does not start with a digit |
| `SqlText.PlaceholderToken` | helpers/sql.js:19 | the token `$` followed by the numeral of k reads as exactly the one marker k |
| `Decimal.NatToString` | models/company.js:154 | the numeral is non-empty, all digits, with no leading zero |
| `Decimal.ParseNatToString` | models/company.js:154 | reading a rendered number back gives the number |
| `Decimal.NatToStringParse` | models/company.js:154 | rendering the value of a canonical numeral gives the numeral back |
| `Decimal.IntToString` | models/company.js:71-78 | a non-negative integer is written as its canonical numeral (digits only, no leading zero); a negative one as `-` followed by the canonical numeral of its magnitude, never `-0` |
| `Decimal.IntRoundTrip` | models/job.js:64 | reading a rendered integer back gives the integer |
| `Decimal.IntToStringParse` | models/job.js:64 | rendering the value of any canonical signed numeral gives the numeral back, so integers and canonical signed numerals correspond one to one |
| `Company.Where` | models/company.js:56-83 | the text is empty exactly when the filter is missing or has no keys; it fails with the range error exactly when the filter has keys and both bounds with min >= max; any other non-empty text starts with "WHERE " |
| `Company.BuildWhere` | models/company.js:56-83 | the step-by-step construction yields exactly `Company.Where` |
| `Company.UnfilteredQuery` | models/company.js:56-91 | a missing or key-less filter gives the query `… FROM companies ORDER BY name` |
| `Company.NameClauseFirst` | models/company.js:63-65 | with nameLike, the text starts `WHERE name ILIKE '%<nameLike>%' ` with the value embedded verbatim |
| `Company.BetweenWhenBothBounds` | models/company.js:66-72 | both bounds with min < max give exactly one `num_employees BETWEEN min AND max ` condition after any name condition |
| `Company.AtLeastWhenOnlyMin` | models/company.js:73-75 | only a minimum gives exactly one `num_employees >= min ` condition after any name condition |
| `Company.AtMostWhenOnlyMax` | models/company.js:77-79 | only a maximum gives exactly one `num_employees <= max ` condition after any name condition |
| `Company.NoEmployeeCondition` | models/company.js:63-81 | a name without bounds gives just `WHERE ` and the name condition |
| `Company.UnrecognisedKeysOnly` | models/company.js:60-81 | keys none of which is recognised give a bare `WHERE ` |
| `Company.InvertedRangeExamples` | models/company.js:67-70 | min 5 / max 5 and min 10 / max 5 are both rejected |
| `Company.RenamedColumns` | models/company.js:148-153 | update renames numEmployees to num_employees and logoUrl to logo_url and leaves every other field name as it is |
| `Company.Update` | models/company.js:147-164 | empty data fails with "No data" and nothing else fails; the statement is `UPDATE companies SET` with the builder's SET list under the numEmployees/logoUrl renames, then `WHERE handle = $(N+1)` and the RETURNING list; the parameters are the values followed by the handle |
| `Company.UpdatePlaceholders` | models/company.js:154-164 | every `$k` in the statement names the k-th parameter: the markers are 1..N+1 in order |
| `Job.Where` | models/job.js:45-69 | a missing or key-less filter gives empty text; a non-empty filter whose hasEquity is absent or true gives text starting "WHERE " |
| `Job.BuildWhere` | models/job.js:45-69 | the step-by-step construction yields exactly `Job.Where` |
| `Job.UnfilteredQuery` | models/job.js:46-78 | a missing or key-less filter gives the query `… FROM jobs ORDER BY title` |
| `Job.OpensWhereIff` | models/job.js:51-59 | for a non-empty filter, the text starts "WHERE " if and only if hasEquity is absent or true |
| `Job.EquityFirst` | models/job.js:51-55 | hasEquity true gives text starting `WHERE equity > 0 ` |
| `Job.HasEquityFalse` | models/job.js:51-67 | hasEquity false gives no WHERE and no equity condition, just the title and salary conditions joined |
| `Job.UnrecognisedKeysOnly` | models/job.js:50-67 | keys none of which is recognised, with hasEquity absent, give a bare `WHERE ` |
| `Job.HasEquityFalseAlone` | models/job.js:51-56 | hasEquity false with no title or salary gives empty text |
| `Job.AllThreeInOrder` | models/job.js:60-67 | all three filters give the conditions in the order equity, title, salary, joined with "AND " |
| `Job.RouteExample` | routes/jobs.test.js:148-165 | `{title: "j1", minSalary: 100, hasEquity: true}` gives `WHERE equity > 0 AND title ILIKE '%j1%' AND salary >= 100 ` |
| `Job.HasEquityFalseDropsWhere` | models/job.js:51-61 | as written, hasEquity false with a title gives the title condition with no WHERE in front |
| `Job.WhereIntended` | models/job.js:51-59 | corrected: the text is empty exactly when no condition applies, and otherwise is "WHERE " and the conditions joined; it is never a bare "WHERE " |
| `Job.IntendedAgrees` | models/job.js:51-67 | when hasEquity is absent or true and some condition applies, the code's text equals the corrected one |
| `Job.Update` | models/job.js:119-130 | a companyHandle field fails with "Cannot update company." before anything else; otherwise empty data fails with "No data"; it succeeds exactly in the remaining cases; the statement is `UPDATE jobs SET` with the builder's SET list under no renames, then `WHERE id = $(N+1)` and the RETURNING list; the parameters are the values followed by the id |
| `Job.NoRenames` | models/job.js:123 | with the empty rename map, the i-th term uses the i-th field's own name and marker i+1 |
| `Job.UpdatePlaceholders` | models/job.js:124-130 | every `$k` in the statement names the k-th parameter: the markers are 1..N+1 in order |

## Left out

- Every `db.query` call and everything that depends on its rows is left out, because it needs a database. This covers `create`, `get`, `remove`, the duplicate check in `Company.create`, and the `NotFoundError` thrown when no row comes back. The model stops at the SQL text and parameter list that would be sent.
- The meaning of `ILIKE`, `BETWEEN` and `ORDER BY` is left out: the database decides it. Only the text is modelled.
- `console.log(where)` in `Job.findAll` is left out, because it is I/O.
- `async`/`await` is left out. The model is synchronous.
- The multi-line template literals of the queries are written on one line with single spaces. Their newlines and indentation are not modelled.
- Values are modelled as null, booleans, integers and strings only. Fractional numbers, such as `equity`, are not modelled. `minEmployees`, `maxEmployees` and `minSalary` are integers, and `hasEquity` is a boolean.
- A filter value of another JavaScript type is not modelled. Examples are a numeric string, which `>=` would compare as text, or a non-string `nameLike`.
- The key order JavaScript gives integer-like keys is not modelled. Keys are an explicit ordered sequence.
- Properties inherited through the prototype chain are not modelled. One example is `jsToSql["constructor"]` on a plain object. The rename map is a Dafny `map` from names to names.
- Decimal.IntToString: agrees with JavaScript's `String(x)` only for integers of magnitude up to 2^53. The filter values are doubles: above 2^53 JavaScript writes the shortest digits that read back to the same double, padded with zeros (`String(2**60)` is `"1152921504606847000"`, where the model writes `"1152921504606846976"`), and from 10^21 on it uses exponent notation (`1e+21`); many integers in that range cannot be represented at all. So `BetweenClause`, `AtLeastClause`, `AtMostClause` and `SalaryClause` differ from the code for such magnitudes.
- Sql.UpdateStatementNumbered, Sql.SetColsPlaceholders, Company.UpdatePlaceholders, Job.UpdatePlaceholders: state the marker numbering only for field names and columns without `$`. This is a limit of the model's scanner `SqlText.Placeholders`, not of the code: the scanner would count a `$` followed by digits inside a double-quoted column name as a marker, while the database reads it as part of the identifier.

## Findings

| source | as written | input that shows it | evidently intended | confidence | as-written member | corrected member |
|---|---|---|---|---|---|---|
| models/job.js:51-59 | `WHERE ` is written only when `hasEquity` is absent or exactly `true`, but the title and salary conditions are added either way | `{ hasEquity: false, title: "j" }` gives `title ILIKE '%j%' `, so the query reads `… FROM jobs title ILIKE '%j%' ORDER BY title` | `WHERE ` whenever at least one condition follows, and no bare `WHERE ` when none does | high; not executed | `Job.HasEquityFalseDropsWhere` | `Job.WhereIntended` |

`Job.Where` and `Job.BuildWhere` keep the behaviour as written, because that
is what `findAll` runs. `Job.IntendedAgrees` shows that the two versions differ
only when `hasEquity` is false, or when no condition applies.
