/** Text helpers over SQL strings: JavaScript's `Array.prototype.join`, and a
    scanner that lists the positional parameters `$1`, `$2`, ... a statement uses. */
module SqlText {
  import opened Decimal

  /** `parts.join(sep)`: the parts in order with `sep` between neighbours. */
  function Join(parts: seq<string>, sep: string): string
    decreases |parts|
  {
    if |parts| == 0 then ""
    else if |parts| == 1 then parts[0]
    else parts[0] + sep + Join(parts[1..], sep)
  }

  /** Joining one more part appends the separator and the part: the left-to-right
      accumulation `join` performs. */
  lemma {:induction false} JoinSnoc(parts: seq<string>, p: string, sep: string)
    requires |parts| > 0
    ensures Join(parts + [p], sep) == Join(parts, sep) + sep + p
    decreases |parts|
  {
    if |parts| == 1 {
      assert parts + [p] == [parts[0], p];
    } else {
      assert (parts + [p])[1..] == parts[1..] + [p];
      JoinSnoc(parts[1..], p, sep);
    }
  }

  /** A joined list begins with its first part. */
  lemma {:induction false} JoinStartsWithFirst(parts: seq<string>, sep: string)
    requires |parts| > 0
    ensures parts[0] <= Join(parts, sep)
  {
  }

  /** Joining two parts puts one separator between them. */
  lemma JoinPair(a: string, b: string, sep: string)
    ensures Join([a, b], sep) == a + sep + b
  {
  }

  predicate NoDollar(s: string) {
    '$' !in s
  }

  predicate NoDigitStart(s: string) {
    s == [] || !IsDigit(s[0])
  }

  /** Length of the run of digits that `s` starts with. */
  function DigitRun(s: string): (n: nat)
    ensures n <= |s|
    ensures n < |s| ==> !IsDigit(s[n])
    decreases |s|
  {
    if s == [] || !IsDigit(s[0]) then 0 else 1 + DigitRun(s[1..])
  }

  /** The numbers of the positional parameters in SQL text, in order of
      occurrence: each `$` followed by a maximal, non-empty run of digits. */
  function Placeholders(s: string): seq<nat>
    decreases |s|
  {
    if s == [] then []
    else if s[0] == '$' && DigitRun(s[1..]) > 0 then
      var n := DigitRun(s[1..]);
      [ParseDigits(s[1..1 + n])] + Placeholders(s[1 + n..])
    else Placeholders(s[1..])
  }

  /** `[lo, lo + 1, ..., lo + n - 1]`. */
  function Numbered(lo: nat, n: nat): (r: seq<nat>)
    ensures |r| == n && forall i :: 0 <= i < n ==> r[i] == lo + i
    decreases n
  {
    if n == 0 then [] else [lo] + Numbered(lo + 1, n - 1)
  }

  /** One more number at the end. */
  lemma NumberedSnoc(lo: nat, n: nat)
    ensures Numbered(lo, n) + [lo + n] == Numbered(lo, n + 1)
  {
    var a, b := Numbered(lo, n) + [lo + n], Numbered(lo, n + 1);
    assert forall i :: 0 <= i < n + 1 ==> a[i] == b[i];
  }

  /** Text without a `$` contributes no placeholder. */
  lemma {:induction false} NoDollarPrefix(a: string, b: string)
    requires NoDollar(a)
    ensures Placeholders(a + b) == Placeholders(b)
    decreases |a|
  {
    if a != [] {
      assert a == [a[0]] + a[1..];
      assert (a + b)[0] == a[0] != '$' && (a + b)[1..] == a[1..] + b;
      NoDollarPrefix(a[1..], b);
    } else {
      assert a + b == b;
    }
  }

  /** A digit run never crosses into text that does not start with a digit. */
  lemma {:induction false} DigitRunAppend(a: string, b: string)
    requires NoDigitStart(b)
    ensures DigitRun(a + b) == DigitRun(a)
    decreases |a|
  {
    if a != [] {
      assert (a + b)[0] == a[0] && (a + b)[1..] == a[1..] + b;
      DigitRunAppend(a[1..], b);
    }
  }

  /** Text that starts with a marker `$` and `n` digits. */
  lemma {:induction false} MarkerUnfold(s: string, n: nat)
    requires s != [] && s[0] == '$' && n == DigitRun(s[1..]) > 0
    ensures Placeholders(s) == [ParseDigits(s[1..1 + n])] + Placeholders(s[1 + n..])
  {
  }

  /** Appending text that does not start with a digit leaves a leading marker of `a` as it is. */
  lemma {:induction false} MarkerAppend(a: string, b: string, n: nat)
    requires NoDigitStart(b) && a != [] && a[0] == '$' && n == DigitRun(a[1..]) > 0
    ensures Placeholders(a + b) == [ParseDigits(a[1..1 + n])] + Placeholders(a[1 + n..] + b)
  {
    var ab := a + b;
    assert ab[1..] == a[1..] + b;
    assert 1 + n <= |a|;
    DigitRunAppend(a[1..], b);
    MarkerUnfold(ab, n);
    assert ab[1..1 + n] == a[1..1 + n];
    assert ab[1 + n..] == a[1 + n..] + b;
  }

  /** One step of PlaceholdersAppend: `a` does not start with a marker. */
  lemma {:induction false} AppendAfterOther(a: string, b: string)
    requires NoDigitStart(b) && a != [] && !(a[0] == '$' && DigitRun(a[1..]) > 0)
    requires Placeholders(a[1..] + b) == Placeholders(a[1..]) + Placeholders(b)
    ensures Placeholders(a + b) == Placeholders(a) + Placeholders(b)
  {
    var ab := a + b;
    assert ab[0] == a[0] && ab[1..] == a[1..] + b;
    DigitRunAppend(a[1..], b);
    assert Placeholders(ab) == Placeholders(a[1..] + b);
    assert Placeholders(a) == Placeholders(a[1..]);
  }

  /** Placeholders of a concatenation are those of the parts, provided the
      second part cannot extend a number the first part ends with. */
  lemma {:induction false} PlaceholdersAppend(a: string, b: string)
    requires NoDigitStart(b)
    ensures Placeholders(a + b) == Placeholders(a) + Placeholders(b)
    decreases |a|
  {
    if a == [] {
      assert a + b == b;
    } else if a[0] == '$' && DigitRun(a[1..]) > 0 {
      var n := DigitRun(a[1..]);
      PlaceholdersAppend(a[1 + n..], b);
      MarkerAppend(a, b, n);
      MarkerUnfold(a, n);
    } else {
      PlaceholdersAppend(a[1..], b);
      AppendAfterOther(a, b);
    }
  }

  lemma {:induction false} DigitRunAllDigits(s: string)
    requires AllDigits(s)
    ensures DigitRun(s) == |s|
    decreases |s|
  {
  }

  /** `"$" + k` is read back as the single placeholder `k`. */
  lemma {:induction false} PlaceholderToken(k: nat)
    ensures Placeholders("$" + NatToString(k)) == [k]
  {
    var d := NatToString(k);
    var s := "$" + d;
    assert s[1..] == d;
    DigitRunAllDigits(d);
    assert s[1..1 + |d|] == d && s[1 + |d|..] == [];
    ParseNatToString(k);
  }

  /** A single `$k` marker between text that has none gives just that placeholder. */
  lemma {:induction false} MarkerBetween(pre: string, k: nat, post: string)
    requires NoDollar(pre) && NoDollar(post) && NoDigitStart(post)
    ensures Placeholders(pre + ("$" + NatToString(k) + post)) == [k]
  {
    var token := "$" + NatToString(k);
    NoDollarPrefix(pre, token + post);
    PlaceholdersAppend(token, post);
    PlaceholderToken(k);
    NoDollarPrefix(post, []);
    assert post + [] == post;
  }
}
