/** The SQL text built by `Job.findAll` and `Job.update` (models/job.js). */
module Job {
  import opened Wrappers
  import opened Decimal
  import opened SqlText
  import opened Sql

  /** A `filters` object: the recognised keys, each present with its value or
      absent, and the number of any other keys it has. */
  datatype JobFilters = JobFilters(
    hasEquity: Option<bool>,
    title: Option<string>,
    minSalary: Option<int>,
    otherKeys: nat)

  /** `Object.keys(filters).length`. */
  function KeyCount(f: JobFilters): nat {
    (if f.hasEquity.Some? then 1 else 0) + (if f.title.Some? then 1 else 0)
      + (if f.minSalary.Some? then 1 else 0) + f.otherKeys
  }

  const EquityClause := "equity > 0 "

  function TitleClause(title: string): string {
    "title ILIKE '%" + title + "%' "
  }

  function SalaryClause(minSalary: int): string {
    "salary >= " + IntToString(minSalary) + " "
  }

  /** The conditions of a filter, in the order equity, title, salary. */
  function Clauses(f: JobFilters): seq<string> {
    (if f.hasEquity == Some(true) then [EquityClause] else [])
      + (if f.title.Some? then [TitleClause(f.title.value)] else [])
      + (if f.minSalary.Some? then [SalaryClause(f.minSalary.value)] else [])
  }

  /** Whether the code writes "WHERE ": decided by `hasEquity` alone, which must
      be absent or exactly `true`. */
  predicate OpensWhere(f: JobFilters) {
    f.hasEquity != Some(false)
  }

  /** The `where` text findAll splices into its query, as the code builds it. */
  function Where(filters: Option<JobFilters>): (r: string)
    ensures filters.None? || KeyCount(filters.value) == 0 ==> r == ""
    ensures filters.Some? && KeyCount(filters.value) > 0 && OpensWhere(filters.value) ==> "WHERE " <= r
  {
    if filters.None? || KeyCount(filters.value) == 0 then ""
    else (if OpensWhere(filters.value) then "WHERE " else "") + Join(Clauses(filters.value), "AND ")
  }

  /** The `where` construction of findAll, step by step as the code does it. */
  method BuildWhere(filters: Option<JobFilters>) returns (where: string)
    ensures where == Where(filters)
  {
    where := "";
    if filters.Some? {
      var f := filters.value;
      if KeyCount(f) != 0 {
        var clauses: seq<string> := [];
        if f.hasEquity.Some? {
          if f.hasEquity.value == true {
            where := where + "WHERE ";
            clauses := clauses + ["equity > 0 "];
          }
        } else {
          where := where + "WHERE ";
        }
        if f.title.Some? {
          clauses := clauses + ["title ILIKE '%" + f.title.value + "%' "];
        }
        if f.minSalary.Some? {
          clauses := clauses + ["salary >= " + IntToString(f.minSalary.value) + " "];
        }
        assert clauses == Clauses(f);
        assert where == (if OpensWhere(f) then "WHERE " else "");
        var stringClauses := Join(clauses, "AND ");
        where := where + stringClauses;
      }
    }
  }

  /** The query findAll runs up to its WHERE text, with the column list written on one line.
      Written as short literals joined by `+`, which keeps the verifier's work on them small. */
  const SelectJobs := "SELECT id, title, salary, equity, " + "company_handle AS \"companyHandle\" FROM jobs "

  /** The query findAll runs. */
  function FindAllSql(where: string): string {
    SelectJobs + where + "ORDER BY title"
  }

  /** Without a filter, or with an empty one, findAll selects every job ordered by title. */
  lemma UnfilteredQuery(filters: Option<JobFilters>)
    requires filters.None? || KeyCount(filters.value) == 0
    ensures FindAllSql(Where(filters)) == SelectJobs + "ORDER BY title"
  {
  }

  /** No condition of a filter starts "WHERE ": each starts with its column name. */
  lemma {:induction false} ClausesNotWhere(f: JobFilters)
    requires Clauses(f) != []
    ensures !("WHERE " <= Join(Clauses(f), "AND "))
  {
    var cs := Clauses(f);
    JoinStartsWithFirst(cs, "AND ");
    assert cs[0][0] != 'W';
  }

  /** For a non-empty filter, the text opens with "WHERE " exactly when `hasEquity`
      is absent or `true`. */
  lemma {:induction false} OpensWhereIff(f: JobFilters)
    requires KeyCount(f) > 0
    ensures "WHERE " <= Where(Some(f)) <==> OpensWhere(f)
  {
    if !OpensWhere(f) {
      if Clauses(f) != [] {
        ClausesNotWhere(f);
      }
    }
  }

  /** `hasEquity: true` opens the clause with the equity condition. */
  lemma EquityFirst(f: JobFilters)
    requires f.hasEquity == Some(true)
    ensures "WHERE " + EquityClause <= Where(Some(f))
  {
  }

  /** `hasEquity` present but not `true`: no "WHERE " and no equity condition;
      the title and salary conditions are still joined and emitted. */
  lemma HasEquityFalse(f: JobFilters)
    requires f.hasEquity == Some(false)
    ensures Where(Some(f))
            == Join((if f.title.Some? then [TitleClause(f.title.value)] else [])
                    + (if f.minSalary.Some? then [SalaryClause(f.minSalary.value)] else []), "AND ")
  {
  }

  /** All three filters: the conditions in the order equity, title, salary. */
  lemma {:induction false} AllThreeInOrder(title: string, minSalary: int, otherKeys: nat)
    ensures Where(Some(JobFilters(Some(true), Some(title), Some(minSalary), otherKeys)))
            == "WHERE " + (EquityClause + "AND " + (TitleClause(title) + "AND " + SalaryClause(minSalary)))
  {
    var f := JobFilters(Some(true), Some(title), Some(minSalary), otherKeys);
    var cs := [EquityClause, TitleClause(title), SalaryClause(minSalary)];
    assert Clauses(f) == cs;
    assert cs[1..] == [cs[1], cs[2]];
    JoinPair(cs[1], cs[2], "AND ");
  }

  /** `{ title: "j1", minSalary: 100, hasEquity: true }`, as a request sends it. */
  lemma RouteExample()
    ensures Where(Some(JobFilters(Some(true), Some("j1"), Some(100), 0)))
            == "WHERE " + ("equity > 0 " + "AND " + ("title ILIKE '%j1%' " + "AND " + "salary >= 100 "))
  {
    AllThreeInOrder("j1", 100, 0);
    assert NatToString(100) == "100";
    assert TitleClause("j1") == "title ILIKE '%j1%' ";
    assert SalaryClause(100) == "salary >= 100 ";
  }

  /** `{ hasEquity: false }`, with no title or salary, selects every job, like an empty filter. */
  lemma HasEquityFalseAlone(otherKeys: nat)
    ensures Where(Some(JobFilters(Some(false), None, None, otherKeys))) == ""
  {
  }

  /** Keys of which none is recognised, with `hasEquity` absent: a bare "WHERE ",
      so the query reads `FROM jobs WHERE ORDER BY title`. */
  lemma UnrecognisedKeysOnly(otherKeys: nat)
    requires otherKeys > 0
    ensures Where(Some(JobFilters(None, None, None, otherKeys))) == "WHERE "
  {
    assert Clauses(JobFilters(None, None, None, otherKeys)) == [];
  }

  /** What the code evidently means: "WHERE " exactly when at least one condition follows. */
  function WhereIntended(filters: Option<JobFilters>): (r: string)
    ensures r == "" <==> filters.None? || Clauses(filters.value) == []
    ensures r != "" ==> r == "WHERE " + Join(Clauses(filters.value), "AND ")
    ensures r != "WHERE "
  {
    if filters.None? || Clauses(filters.value) == [] then ""
    else "WHERE " + Join(Clauses(filters.value), "AND ")
  }

  /** Where the code's opening decision is right, it agrees with the intended text. */
  lemma IntendedAgrees(f: JobFilters)
    requires OpensWhere(f) && Clauses(f) != []
    ensures Where(Some(f)) == WhereIntended(Some(f))
  {
  }

  /** `{ hasEquity: false, title: t }`: the code emits the title condition with no
      "WHERE " in front, so the query reads `FROM jobs title ILIKE ...`. */
  lemma {:induction false} HasEquityFalseDropsWhere(t: string)
    ensures var f := Some(JobFilters(Some(false), Some(t), None, 0));
            Where(f) == TitleClause(t)
            && !("WHERE " <= Where(f))
            && WhereIntended(f) == "WHERE " + TitleClause(t)
  {
    var f := JobFilters(Some(false), Some(t), None, 0);
    assert Clauses(f) == [TitleClause(t)];
    assert "" + TitleClause(t) == TitleClause(t);
    ClausesNotWhere(f);
  }

  const CompanyChange := BadRequest("Cannot update company.")

  /** `"companyHandle" in data`. */
  predicate HasKey(data: seq<Entry>, key: string) {
    exists i :: 0 <= i < |data| && data[i].0 == key
  }

  // Written as short literals joined by `+`, which keeps the verifier's work on them small.
  const JobReturning :=
    " RETURNING id, " + "title, salary, " + "equity, " + "company_handle " + "AS \"companyHandle\""

  /** The fixed text of the UPDATE statement holds no `$` and the text after
      each marker does not start with a digit. */
  lemma FixedUpdateText()
    ensures NoDollar("UPDATE jobs SET ") && NoDollar(" WHERE id = ") && NoDollar(JobReturning)
    ensures NoDigitStart(" WHERE id = ") && NoDigitStart(JobReturning)
  {
    ReturningDollarFree();
    assert JobReturning[0] == ' ';
  }

  lemma ReturningDollarFree()
    ensures NoDollar(JobReturning)
  {
    assert NoDollar(" RETURNING id, ") && NoDollar("title, salary, ") && NoDollar("equity, ");
    assert NoDollar("company_handle ") && NoDollar("AS \"companyHandle\"");
  }

  /** The UPDATE statement text around a SET list and the id's marker. */
  function UpdateText(setCols: string, idVarIdx: string): string {
    "UPDATE jobs SET " + (setCols + (" WHERE id = " + (idVarIdx + JobReturning)))
  }

  /** The statement `update` runs: rejected when it would change the company,
      otherwise the builder's SET list with no renames, the id bound one past the
      values, and the values followed by the id. */
  function Update(id: Value, data: seq<Entry>): (r: Result<Query>)
    ensures HasKey(data, "companyHandle") ==> r == Err(CompanyChange)
    ensures !HasKey(data, "companyHandle") && data == [] ==> r == Err(NoData)
    ensures r.Ok? <==> !HasKey(data, "companyHandle") && data != []
    ensures r.Ok? ==> r.value.params == Values(data) + [id]
    ensures r.Ok? ==> r.value.text
                      == UpdateText(SqlForPartialUpdate(data, map[]).value.setCols, "$" + NatToString(|data| + 1))
  {
    if HasKey(data, "companyHandle") then Err(CompanyChange)
    else
      match SqlForPartialUpdate(data, map[])
      case Err(e) => Err(e)
      case Ok(frag) =>
        var idVarIdx := "$" + NatToString(|frag.values| + 1);
        Ok(Query(UpdateText(frag.setCols, idVarIdx), frag.values + [id]))
  }

  /** With no renames every column is the field's own name. */
  lemma {:induction false} NoRenames(data: seq<Entry>)
    requires data != []
    ensures SqlForPartialUpdate(data, map[]).value.setCols
            == Join(seq(|data|, i requires 0 <= i < |data| => Assignment(data[i].0, i + 1)), ", ")
  {
    var terms := Assignments(Keys(data), map[], 1);
    assert terms == seq(|data|, i requires 0 <= i < |data| => Assignment(data[i].0, i + 1));
  }

  /** Every `$k` in the update statement names the k-th parameter: the markers are
      exactly 1..N+1 in order, for N fields and the id. */
  lemma {:induction false} UpdatePlaceholders(id: Value, data: seq<Entry>)
    requires data != [] && !HasKey(data, "companyHandle")
    requires forall i :: 0 <= i < |data| ==> NoDollar(data[i].0)
    ensures var r := Update(id, data);
            r.Ok? && Placeholders(r.value.text) == Numbered(1, |r.value.params|)
  {
    FixedUpdateText();
    UpdateStatementNumbered(data, map[], "UPDATE jobs SET ", " WHERE id = ", JobReturning);
  }
}
