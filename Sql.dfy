/** `sqlForPartialUpdate` (helpers/sql.js): the `SET` list of an UPDATE
    statement built from the fields a caller wants to change. */
module Sql {
  import opened Wrappers
  import opened Decimal
  import opened SqlText

  /** A value of the update data, bound as a query parameter verbatim. */
  datatype Value = Null | Bool(b: bool) | Int(i: int) | Str(s: string)

  /** One own property of `dataToUpdate`: the JavaScript field name and its new value. */
  type Entry = (string, Value)

  /** `{ setCols, values }`. */
  datatype Fragment = Fragment(setCols: string, values: seq<Value>)

  /** SQL text with positional parameters, and the parameters in order. */
  datatype Query = Query(text: string, params: seq<Value>)

  function Keys(data: seq<Entry>): seq<string> {
    seq(|data|, i requires 0 <= i < |data| => data[i].0)
  }

  /** `Object.values(data)`. */
  function Values(data: seq<Entry>): seq<Value> {
    seq(|data|, i requires 0 <= i < |data| => data[i].1)
  }

  /** `jsToSql[key] || key`: the renamed column when the map gives a non-empty
      name for the key, otherwise the key itself. */
  function ColumnFor(key: string, jsToSql: map<string, string>): (col: string)
    ensures key in jsToSql && jsToSql[key] != "" ==> col == jsToSql[key]
    ensures key !in jsToSql || jsToSql[key] == "" ==> col == key
  {
    if key in jsToSql && jsToSql[key] != "" then jsToSql[key] else key
  }

  /** `"<column>"=$<index>`. */
  function Assignment(column: string, index: nat): string {
    "\"" + column + "\"=$" + NatToString(index)
  }

  /** The assignment terms for `keys`, numbered from `first`. */
  function Assignments(keys: seq<string>, jsToSql: map<string, string>, first: nat): (terms: seq<string>)
    ensures |terms| == |keys|
    ensures forall i :: 0 <= i < |keys| ==> terms[i] == Assignment(ColumnFor(keys[i], jsToSql), first + i)
    decreases |keys|
  {
    if keys == [] then []
    else [Assignment(ColumnFor(keys[0], jsToSql), first)] + Assignments(keys[1..], jsToSql, first + 1)
  }

  /** The message of the error for an empty update. */
  const NoData := BadRequest("No data")

  /** Build `{ setCols, values }`: one assignment per field, numbered 1..N in
      field order and joined with ", ", and the field values in the same order. */
  function SqlForPartialUpdate(dataToUpdate: seq<Entry>, jsToSql: map<string, string>): (r: Result<Fragment>)
    ensures r.Err? <==> dataToUpdate == []
    ensures r.Err? ==> r.error == NoData
    ensures r.Ok? ==> r.value.setCols == Join(Assignments(Keys(dataToUpdate), jsToSql, 1), ", ")
    ensures r.Ok? ==> |r.value.values| == |dataToUpdate|
    ensures r.Ok? ==> forall i :: 0 <= i < |dataToUpdate| ==> r.value.values[i] == dataToUpdate[i].1
  {
    if |dataToUpdate| == 0 then Err(NoData)
    else
      var cols := Assignments(Keys(dataToUpdate), jsToSql, 1);
      Ok(Fragment(Join(cols, ", "), Values(dataToUpdate)))
  }

  /** No key of the data, and no column it is renamed to, contains `$`. */
  predicate DollarFreeColumns(data: seq<Entry>, jsToSql: map<string, string>) {
    forall i :: 0 <= i < |data| ==> NoDollar(ColumnFor(data[i].0, jsToSql))
  }

  lemma {:induction false} AssignmentPlaceholders(column: string, index: nat)
    requires NoDollar(column)
    ensures Placeholders(Assignment(column, index)) == [index]
  {
    var head := "\"" + column + "\"=";
    assert NoDollar(head) by {
      forall i | 0 <= i < |head| ensures head[i] != '$' {
        if 0 < i <= |column| { assert head[i] == column[i - 1]; }
      }
    }
    assert Assignment(column, index) == head + ("$" + NatToString(index));
    NoDollarPrefix(head, "$" + NatToString(index));
    PlaceholderToken(index);
  }

  /** Joined assignment terms carry the placeholders `first`, `first + 1`, ... in order. */
  lemma {:induction false} JoinedAssignmentsPlaceholders(keys: seq<string>, jsToSql: map<string, string>, first: nat)
    requires forall i :: 0 <= i < |keys| ==> NoDollar(ColumnFor(keys[i], jsToSql))
    ensures Placeholders(Join(Assignments(keys, jsToSql, first), ", ")) == Numbered(first, |keys|)
    decreases |keys|
  {
    var terms := Assignments(keys, jsToSql, first);
    if |keys| == 1 {
      AssignmentPlaceholders(ColumnFor(keys[0], jsToSql), first);
    } else if |keys| > 1 {
      var rest := Join(terms[1..], ", ");
      assert terms[1..] == Assignments(keys[1..], jsToSql, first + 1);
      assert forall i :: 0 <= i < |keys[1..]| ==> keys[1..][i] == keys[i + 1];
      JoinedAssignmentsPlaceholders(keys[1..], jsToSql, first + 1);
      AssignmentPlaceholders(ColumnFor(keys[0], jsToSql), first);
      assert Join(terms, ", ") == terms[0] + (", " + rest);
      PlaceholdersAppend(terms[0], ", " + rest);
      NoDollarPrefix(", ", rest);
      assert Placeholders(Join(terms, ", ")) == [first] + Numbered(first + 1, |keys| - 1);
    }
  }

  /** The `$k` markers of `setCols` are exactly 1..N in order, so the k-th marker
      names the k-th entry of `values`. */
  lemma {:induction false} SetColsPlaceholders(dataToUpdate: seq<Entry>, jsToSql: map<string, string>)
    requires dataToUpdate != [] && DollarFreeColumns(dataToUpdate, jsToSql)
    ensures var r := SqlForPartialUpdate(dataToUpdate, jsToSql);
            r.Ok? && Placeholders(r.value.setCols) == Numbered(1, |r.value.values|)
  {
    JoinedAssignmentsPlaceholders(Keys(dataToUpdate), jsToSql, 1);
  }

  /** An UPDATE statement `head SET-list mid $k tail` whose fixed text has no `$`
      carries the SET list's markers followed by `k`. */
  lemma {:induction false} UpdateStatementPlaceholders(head: string, setCols: string, mid: string, k: nat, tail: string)
    requires NoDollar(head) && NoDollar(mid) && NoDollar(tail)
    requires NoDigitStart(mid) && NoDigitStart(tail)
    ensures Placeholders(head + (setCols + (mid + ("$" + NatToString(k) + tail)))) == Placeholders(setCols) + [k]
  {
    var rest := mid + ("$" + NatToString(k) + tail);
    NoDollarPrefix(head, setCols + rest);
    PlaceholdersAppend(setCols, rest);
    MarkerBetween(mid, k, tail);
  }

  /** The full statement of an update: markers 1..N for the fields, then N+1 for the key. */
  lemma {:induction false} UpdateStatementNumbered(dataToUpdate: seq<Entry>, jsToSql: map<string, string>, head: string, mid: string, tail: string)
    requires dataToUpdate != [] && DollarFreeColumns(dataToUpdate, jsToSql)
    requires NoDollar(head) && NoDollar(mid) && NoDollar(tail)
    requires NoDigitStart(mid) && NoDigitStart(tail)
    ensures var frag := SqlForPartialUpdate(dataToUpdate, jsToSql).value;
            var k := |frag.values| + 1;
            Placeholders(head + (frag.setCols + (mid + ("$" + NatToString(k) + tail)))) == Numbered(1, k)
  {
    var frag := SqlForPartialUpdate(dataToUpdate, jsToSql).value;
    var n := |frag.values|;
    SetColsPlaceholders(dataToUpdate, jsToSql);
    UpdateStatementPlaceholders(head, frag.setCols, mid, n + 1, tail);
    NumberedSnoc(1, n);
  }

  /** The result depends on the rename map only through the columns it gives the
      data's own keys: neither the map's key order nor its entries for other keys matter. */
  lemma {:induction false} RenamesMatterOnlyForDataKeys(dataToUpdate: seq<Entry>, m1: map<string, string>, m2: map<string, string>)
    requires forall i :: 0 <= i < |dataToUpdate| ==> ColumnFor(dataToUpdate[i].0, m1) == ColumnFor(dataToUpdate[i].0, m2)
    ensures SqlForPartialUpdate(dataToUpdate, m1) == SqlForPartialUpdate(dataToUpdate, m2)
  {
    if dataToUpdate != [] {
      var ks := Keys(dataToUpdate);
      assert Assignments(ks, m1, 1) == Assignments(ks, m2, 1);
    }
  }

  /** `{firstName: "Sarah"}` renamed by `{firstName: "first_name"}`. */
  lemma RenameOneFieldExample()
    ensures SqlForPartialUpdate([("firstName", Str("Sarah"))], map["firstName" := "first_name"])
            == Ok(Fragment("\"first_name\"=$1", [Str("Sarah")]))
  {
    var data := [("firstName", Str("Sarah"))];
    var m := map["firstName" := "first_name"];
    assert NatToString(1) == "1";
    assert Keys(data) == ["firstName"] && Values(data) == [Str("Sarah")];
    assert ColumnFor("firstName", m) == "first_name";
    assert Assignment("first_name", 1) == "\"first_name\"=$1";
  }

  const SarahFields: seq<Entry> :=
    [("firstName", Str("Sarah")), ("lastName", Str("Michaels")), ("password", Str("sarah")),
     ("email", Str("email@email.com")), ("isAdmin", Bool(true))]

  /** The renames of the test, which lists them as isAdmin, lastName, firstName. */
  const SarahRenames: map<string, string> :=
    map["isAdmin" := "is_admin", "lastName" := "last_name", "firstName" := "first_name"]

  const SarahTerms: seq<string> :=
    ["\"first_name\"=$1", "\"last_name\"=$2", "\"password\"=$3", "\"email\"=$4", "\"is_admin\"=$5"]

  lemma SarahColumns()
    ensures ColumnFor("firstName", SarahRenames) == "first_name" && ColumnFor("lastName", SarahRenames) == "last_name"
    ensures ColumnFor("password", SarahRenames) == "password" && ColumnFor("email", SarahRenames) == "email"
    ensures ColumnFor("isAdmin", SarahRenames) == "is_admin"
  {
  }

  lemma SmallNumerals()
    ensures NatToString(1) == "1" && NatToString(2) == "2" && NatToString(3) == "3"
    ensures NatToString(4) == "4" && NatToString(5) == "5"
  {
  }

  lemma SarahTermsSpelled()
    ensures Assignment("first_name", 1) == SarahTerms[0] && Assignment("last_name", 2) == SarahTerms[1]
    ensures Assignment("password", 3) == SarahTerms[2] && Assignment("email", 4) == SarahTerms[3]
    ensures Assignment("is_admin", 5) == SarahTerms[4]
  {
    SmallNumerals();
  }

  lemma SarahAssignments()
    ensures Assignments(Keys(SarahFields), SarahRenames, 1) == SarahTerms
  {
    var ks := Keys(SarahFields);
    assert ks == ["firstName", "lastName", "password", "email", "isAdmin"];
    SarahColumns();
    SarahTermsSpelled();
    assert Assignment(ColumnFor(ks[0], SarahRenames), 1) == SarahTerms[0];
    assert Assignment(ColumnFor(ks[1], SarahRenames), 2) == SarahTerms[1];
    assert Assignment(ColumnFor(ks[2], SarahRenames), 3) == SarahTerms[2];
    assert Assignment(ColumnFor(ks[3], SarahRenames), 4) == SarahTerms[3];
    assert Assignment(ColumnFor(ks[4], SarahRenames), 5) == SarahTerms[4];
  }

  /** The terms joined, spelled out as the test expects them. */
  lemma SarahSetCols()
    ensures Join(SarahTerms, ", ")
            == "\"first_name\"=$1, " + ("\"last_name\"=$2, " + ("\"password\"=$3, "
               + ("\"email\"=$4, " + "\"is_admin\"=$5")))
  {
    var t := SarahTerms;
    assert Join(t[4..], ", ") == t[4];
    assert Join(t[3..], ", ") == t[3] + ", " + t[4];
    assert Join(t[2..], ", ") == t[2] + ", " + (t[3] + ", " + t[4]);
    assert Join(t[1..], ", ") == t[1] + ", " + (t[2] + ", " + (t[3] + ", " + t[4]));
  }

  /** Five fields, three of them renamed: the two unrenamed ones pass through, and
      the order is the data's, whatever the order in which the renames are listed. */
  lemma FullListExample()
    ensures SqlForPartialUpdate(SarahFields, SarahRenames)
            == Ok(Fragment("\"first_name\"=$1, " + ("\"last_name\"=$2, " + ("\"password\"=$3, "
                             + ("\"email\"=$4, " + "\"is_admin\"=$5"))),
                           [Str("Sarah"), Str("Michaels"), Str("sarah"), Str("email@email.com"), Bool(true)]))
  {
    SarahAssignments();
    SarahSetCols();
    assert Values(SarahFields) == [Str("Sarah"), Str("Michaels"), Str("sarah"), Str("email@email.com"), Bool(true)];
  }
}
