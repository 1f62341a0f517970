/** The SQL text built by `Company.findAll` and `Company.update` (models/company.js). */
module Company {
  import opened Wrappers
  import opened Decimal
  import opened SqlText
  import opened Sql

  /** A `filters` object: the recognised keys, each present with its value or
      absent, and the number of any other keys it has. */
  datatype CompanyFilters = CompanyFilters(
    nameLike: Option<string>,
    minEmployees: Option<int>,
    maxEmployees: Option<int>,
    otherKeys: nat)

  /** `Object.keys(filters).length`. */
  function KeyCount(f: CompanyFilters): nat {
    (if f.nameLike.Some? then 1 else 0) + (if f.minEmployees.Some? then 1 else 0)
      + (if f.maxEmployees.Some? then 1 else 0) + f.otherKeys
  }

  const RangeError := BadRequest("minEmployees must be less than maxEmployees")

  /** Both bounds are given and the minimum is not below the maximum. */
  predicate RangeInverted(f: CompanyFilters) {
    f.minEmployees.Some? && f.maxEmployees.Some? && f.minEmployees.value >= f.maxEmployees.value
  }

  function NameClause(nameLike: string): string {
    "name ILIKE '%" + nameLike + "%' "
  }

  function BetweenClause(min: int, max: int): string {
    "num_employees BETWEEN " + IntToString(min) + " AND " + IntToString(max) + " "
  }

  function AtLeastClause(min: int): string {
    "num_employees >= " + IntToString(min) + " "
  }

  function AtMostClause(max: int): string {
    "num_employees <= " + IntToString(max) + " "
  }

  /** The employee-count condition for the bounds given. */
  function EmployeeClauses(min: Option<int>, max: Option<int>): seq<string> {
    match (min, max)
    case (Some(lo), Some(hi)) => [BetweenClause(lo, hi)]
    case (Some(lo), None) => [AtLeastClause(lo)]
    case (None, Some(hi)) => [AtMostClause(hi)]
    case (None, None) => []
  }

  /** The conditions of a filter, name before employee count. */
  function Clauses(f: CompanyFilters): seq<string> {
    (if f.nameLike.Some? then [NameClause(f.nameLike.value)] else [])
      + EmployeeClauses(f.minEmployees, f.maxEmployees)
  }

  /** The `where` text findAll splices into its query: empty for a missing or
      key-less filter, an error for an inverted range, and otherwise "WHERE "
      followed by the conditions joined with "AND ". */
  function Where(filters: Option<CompanyFilters>): (r: Result<string>)
    ensures r == Ok("") <==> filters.None? || KeyCount(filters.value) == 0
    ensures r.Err? <==> filters.Some? && KeyCount(filters.value) > 0 && RangeInverted(filters.value)
    ensures r.Err? ==> r.error == RangeError
    ensures r.Ok? && r.value != "" ==> "WHERE " <= r.value
  {
    if filters.None? || KeyCount(filters.value) == 0 then Ok("")
    else if RangeInverted(filters.value) then Err(RangeError)
    else Ok("WHERE " + Join(Clauses(filters.value), "AND "))
  }

  /** The `where` construction of findAll, step by step as the code does it. */
  method BuildWhere(filters: Option<CompanyFilters>) returns (r: Result<string>)
    ensures r == Where(filters)
  {
    var where := "";
    if filters.Some? {
      var f := filters.value;
      if KeyCount(f) != 0 {
        where := where + "WHERE ";
        var clauses: seq<string> := [];
        if f.nameLike.Some? {
          clauses := clauses + ["name ILIKE '%" + f.nameLike.value + "%' "];
        }
        if f.minEmployees.Some? {
          if f.maxEmployees.Some? {
            if f.minEmployees.value >= f.maxEmployees.value {
              return Err(BadRequest("minEmployees must be less than maxEmployees"));
            }
            clauses := clauses + ["num_employees BETWEEN " + IntToString(f.minEmployees.value)
                                  + " AND " + IntToString(f.maxEmployees.value) + " "];
          } else {
            clauses := clauses + ["num_employees >= " + IntToString(f.minEmployees.value) + " "];
          }
        } else if f.maxEmployees.Some? {
          clauses := clauses + ["num_employees <= " + IntToString(f.maxEmployees.value) + " "];
        }
        assert clauses == Clauses(f);
        var stringClauses := Join(clauses, "AND ");
        assert where == "WHERE ";
        where := where + stringClauses;
      }
    }
    r := Ok(where);
  }

  /** The query findAll runs up to its WHERE text, with the column list written on one line.
      Written as short literals joined by `+`, which keeps the verifier's work on them small. */
  const SelectCompanies :=
    "SELECT handle, name, description, " + "num_employees AS \"numEmployees\", " + "logo_url AS \"logoUrl\" FROM companies "

  /** The query findAll runs. */
  function FindAllSql(where: string): string {
    SelectCompanies + where + "ORDER BY name"
  }

  /** Without a filter, or with an empty one, findAll selects every company ordered by name. */
  lemma UnfilteredQuery(filters: Option<CompanyFilters>)
    requires filters.None? || KeyCount(filters.value) == 0
    ensures Where(filters).Ok?
    ensures FindAllSql(Where(filters).value) == SelectCompanies + "ORDER BY name"
  {
  }

  /** A name filter opens the clause, with its value embedded in the pattern verbatim. */
  lemma {:induction false} NameClauseFirst(f: CompanyFilters)
    requires f.nameLike.Some? && !RangeInverted(f)
    ensures Where(Some(f)).Ok?
    ensures "WHERE name ILIKE '%" + f.nameLike.value + "%' " <= Where(Some(f)).value
  {
    var v := f.nameLike.value;
    assert KeyCount(f) > 0;
    assert Clauses(f)[0] == NameClause(v);
    JoinStartsWithFirst(Clauses(f), "AND ");
    assert "WHERE name ILIKE '%" + v + "%' " == "WHERE " + NameClause(v);
  }

  /** The name condition, followed by the joining "AND ", when a name is given. */
  function NamePrefix(f: CompanyFilters): string {
    if f.nameLike.Some? then NameClause(f.nameLike.value) + "AND " else ""
  }

  lemma {:induction false} WhereWithEmployeeClause(f: CompanyFilters, c: string)
    requires !RangeInverted(f) && EmployeeClauses(f.minEmployees, f.maxEmployees) == [c]
    ensures Where(Some(f)) == Ok("WHERE " + NamePrefix(f) + c)
  {
    assert KeyCount(f) > 0;
    assert Where(Some(f)) == Ok("WHERE " + Join(Clauses(f), "AND "));
    if f.nameLike.Some? {
      var n := NameClause(f.nameLike.value);
      assert Clauses(f) == [n, c];
      JoinPair(n, c, "AND ");
      assert "WHERE " + (n + "AND " + c) == "WHERE " + (n + "AND ") + c;
    } else {
      assert Clauses(f) == [c] && NamePrefix(f) == "";
      assert "WHERE " + NamePrefix(f) + c == "WHERE " + c;
    }
  }

  /** Both bounds, in order: exactly one BETWEEN condition, after any name condition. */
  lemma BetweenWhenBothBounds(f: CompanyFilters)
    requires f.minEmployees.Some? && f.maxEmployees.Some? && f.minEmployees.value < f.maxEmployees.value
    ensures Where(Some(f)) == Ok("WHERE " + NamePrefix(f) + BetweenClause(f.minEmployees.value, f.maxEmployees.value))
  {
    WhereWithEmployeeClause(f, BetweenClause(f.minEmployees.value, f.maxEmployees.value));
  }

  /** Only a minimum: a single ">=" condition. */
  lemma AtLeastWhenOnlyMin(f: CompanyFilters)
    requires f.minEmployees.Some? && f.maxEmployees.None?
    ensures Where(Some(f)) == Ok("WHERE " + NamePrefix(f) + AtLeastClause(f.minEmployees.value))
  {
    WhereWithEmployeeClause(f, AtLeastClause(f.minEmployees.value));
  }

  /** Only a maximum: a single "<=" condition. */
  lemma AtMostWhenOnlyMax(f: CompanyFilters)
    requires f.minEmployees.None? && f.maxEmployees.Some?
    ensures Where(Some(f)) == Ok("WHERE " + NamePrefix(f) + AtMostClause(f.maxEmployees.value))
  {
    WhereWithEmployeeClause(f, AtMostClause(f.maxEmployees.value));
  }

  /** No bound: no employee condition; a name alone gives just its condition. */
  lemma NoEmployeeCondition(f: CompanyFilters)
    requires f.minEmployees.None? && f.maxEmployees.None? && f.nameLike.Some?
    ensures Where(Some(f)) == Ok("WHERE " + NameClause(f.nameLike.value))
  {
  }

  /** A filter with keys but none the code recognises yields a bare "WHERE ". */
  lemma UnrecognisedKeysOnly(f: CompanyFilters)
    requires f.nameLike.None? && f.minEmployees.None? && f.maxEmployees.None? && f.otherKeys > 0
    ensures Where(Some(f)) == Ok("WHERE ")
  {
    assert Clauses(f) == [];
    assert "WHERE " + "" == "WHERE ";
  }

  /** `{ minEmployees: 5, maxEmployees: 5 }` and `{ minEmployees: 10, maxEmployees: 5 }` are rejected. */
  lemma InvertedRangeExamples()
    ensures Where(Some(CompanyFilters(None, Some(5), Some(5), 0))) == Err(RangeError)
    ensures Where(Some(CompanyFilters(None, Some(10), Some(5), 0))) == Err(RangeError)
  {
  }

  /** The field renames `update` applies. */
  const Renames: map<string, string> := map["numEmployees" := "num_employees", "logoUrl" := "logo_url"]

  /** `update` renames exactly `numEmployees` and `logoUrl`. */
  lemma RenamedColumns(key: string)
    ensures ColumnFor(key, Renames)
            == if key == "numEmployees" then "num_employees"
               else if key == "logoUrl" then "logo_url"
               else key
  {
  }

  // Written as short literals joined by `+`, which keeps the verifier's work on them small.
  const UpdateReturning :=
    " RETURNING handle, " + "name, description, " + "num_employees " + "AS \"numEmployees\", "
      + "logo_url " + "AS \"logoUrl\""

  /** The fixed text of the UPDATE statement holds no `$` and the text after
      each marker does not start with a digit. */
  lemma FixedUpdateText()
    ensures NoDollar("UPDATE companies SET ") && NoDollar(" WHERE handle = ") && NoDollar(UpdateReturning)
    ensures NoDigitStart(" WHERE handle = ") && NoDigitStart(UpdateReturning)
  {
    ReturningDollarFree();
    assert UpdateReturning[0] == ' ';
  }

  lemma ReturningDollarFree()
    ensures NoDollar(UpdateReturning)
  {
    assert NoDollar(" RETURNING handle, ") && NoDollar("name, description, ");
    assert NoDollar("num_employees ") && NoDollar("AS \"numEmployees\", ");
    assert NoDollar("logo_url ") && NoDollar("AS \"logoUrl\"");
  }

  /** The UPDATE statement text around a SET list and the handle's marker. */
  function UpdateText(setCols: string, handleVarIdx: string): string {
    "UPDATE companies SET " + (setCols + (" WHERE handle = " + (handleVarIdx + UpdateReturning)))
  }

  /** The statement `update` runs: the SET list from the builder, the handle
      bound as one parameter past the values, and the values followed by the handle. */
  function Update(handle: string, data: seq<Entry>): (r: Result<Query>)
    ensures r.Err? <==> data == []
    ensures r.Err? ==> r.error == NoData
    ensures r.Ok? ==> r.value.params == Values(data) + [Str(handle)]
    ensures r.Ok? ==> r.value.text
                      == UpdateText(SqlForPartialUpdate(data, Renames).value.setCols, "$" + NatToString(|data| + 1))
  {
    match SqlForPartialUpdate(data, Renames)
    case Err(e) => Err(e)
    case Ok(frag) =>
      var handleVarIdx := "$" + NatToString(|frag.values| + 1);
      assert |frag.values| == |data|;
      Ok(Query(UpdateText(frag.setCols, handleVarIdx), frag.values + [Str(handle)]))
  }

  lemma {:induction false} RenamesKeepDollarFree(data: seq<Entry>)
    requires forall i :: 0 <= i < |data| ==> NoDollar(data[i].0)
    ensures DollarFreeColumns(data, Renames)
  {
    forall i | 0 <= i < |data| ensures NoDollar(ColumnFor(data[i].0, Renames)) {
      RenamedColumns(data[i].0);
    }
  }

  /** Every `$k` in the update statement names the k-th parameter: the markers are
      exactly 1..N+1 in order, for N fields and the handle. */
  lemma {:induction false} UpdatePlaceholders(handle: string, data: seq<Entry>)
    requires data != [] && forall i :: 0 <= i < |data| ==> NoDollar(data[i].0)
    ensures var r := Update(handle, data);
            r.Ok? && Placeholders(r.value.text) == Numbered(1, |r.value.params|)
  {
    RenamesKeepDollarFree(data);
    FixedUpdateText();
    UpdateStatementNumbered(data, Renames, "UPDATE companies SET ", " WHERE handle = ", UpdateReturning);
  }
}
