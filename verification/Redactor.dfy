/** The exact-value pass of the redactor: registered values are cut out of a text and the token put in their place. */
module Redactor {
  import opened Common

  const TOKEN := "[REDACTED]"

  const MIN_EXACT_VALUE_LENGTH := 8

  // ---------------------------------------------------------------- texts

  ghost predicate OccursAt(s: string, v: string, i: int) {
    0 <= i <= |s| && StartsWith(s[i..], v)
  }

  ghost predicate Contains(s: string, v: string) {
    exists i :: OccursAt(s, v, i)
  }

  /** The text between occurrences of v, found from the left and never overlapping. */
  function Split(s: string, v: string): (parts: seq<string>)
    requires v != ""
    ensures |parts| >= 1
    decreases |s|
  {
    if s == "" then [""]
    else if StartsWith(s, v) then [""] + Split(s[|v|..], v)
    else
      var rest := Split(s[1..], v);
      [[s[0]] + rest[0]] + rest[1..]
  }

  function Join(parts: seq<string>, glue: string): string
    requires |parts| >= 1
  {
    if |parts| == 1 then parts[0] else parts[0] + glue + Join(parts[1..], glue)
  }

  /** The text with every occurrence of v, found from the left, written as the token. */
  function Replace(s: string, v: string): string
    requires v != ""
    decreases |s|
  {
    if s == "" then ""
    else if StartsWith(s, v) then TOKEN + Replace(s[|v|..], v)
    else [s[0]] + Replace(s[1..], v)
  }

  lemma {:induction false} JoinPrepend(c: char, first: string, rest: seq<string>, glue: string)
    ensures Join([[c] + first] + rest, glue) == [c] + Join([first] + rest, glue)
  {
    var shorter, longer := [first] + rest, [[c] + first] + rest;
    assert shorter[1..] == rest && longer[1..] == rest;
    if rest != [] {
      assert longer[0] + glue + Join(rest, glue) == [c] + (shorter[0] + glue + Join(rest, glue));
    }
  }

  lemma {:induction false} SplitJoins(s: string, v: string)
    requires v != ""
    ensures Join(Split(s, v), TOKEN) == Replace(s, v)
    decreases |s|
  {
    if s == "" {
    } else if StartsWith(s, v) {
      var rest := Split(s[|v|..], v);
      SplitJoins(s[|v|..], v);
      assert ([""] + rest)[1..] == rest;
      assert "" + TOKEN + Join(rest, TOKEN) == TOKEN + Join(rest, TOKEN);
    } else {
      SplitJoins(s[1..], v);
      var rest := Split(s[1..], v);
      JoinPrepend(s[0], rest[0], rest[1..], TOKEN);
      assert [rest[0]] + rest[1..] == rest;
    }
  }

  // ---------------------------------------------------------------- the values worth replacing

  predicate Usable(value: Option<string>) {
    value.Some? && |value.value| >= MIN_EXACT_VALUE_LENGTH
  }

  ghost predicate Distinct(values: seq<string>) {
    forall i, j :: 0 <= i < j < |values| ==> values[i] != values[j]
  }

  ghost predicate LongestFirst(values: seq<string>) {
    forall i, j :: 0 <= i < j < |values| ==> |values[i]| >= |values[j]|
  }

  /** Puts a value behind those that are at least as long. */
  function Insert(value: string, sorted: seq<string>): (r: seq<string>)
    ensures multiset(r) == multiset(sorted) + multiset{value}
  {
    if sorted == [] then [value]
    else if |sorted[0]| < |value| then
      assert [value] + sorted == [value] + sorted;
      [value] + sorted
    else
      assert sorted == [sorted[0]] + sorted[1..];
      [sorted[0]] + Insert(value, sorted[1..])
  }

  lemma {:induction false} InsertSorts(value: string, sorted: seq<string>)
    requires LongestFirst(sorted)
    ensures LongestFirst(Insert(value, sorted))
  {
    if sorted != [] && |sorted[0]| >= |value| {
      var rest := Insert(value, sorted[1..]);
      InsertSorts(value, sorted[1..]);
      forall j | 0 <= j < |rest|
        ensures |sorted[0]| >= |rest[j]|
      {
        assert rest[j] in multiset(rest);
        assert rest[j] == value || rest[j] in sorted[1..];
      }
    }
  }

  method SortLongestFirst(values: seq<string>) returns (sorted: seq<string>)
    ensures multiset(sorted) == multiset(values) && LongestFirst(sorted)
  {
    sorted := [];
    for i := 0 to |values|
      invariant multiset(sorted) == multiset(values[..i]) && LongestFirst(sorted)
    {
      InsertSorts(values[i], sorted);
      sorted := Insert(values[i], sorted);
      assert values[..i + 1] == values[..i] + [values[i]];
    }
    assert values[..|values|] == values;
  }

  lemma SameElements(a: seq<string>, b: seq<string>)
    requires multiset(a) == multiset(b)
    ensures forall v :: v in a <==> v in b
    ensures Distinct(a) ==> Distinct(b)
  {
    forall v
      ensures v in a <==> v in b
    {
      assert v in a <==> v in multiset(a);
      assert v in b <==> v in multiset(b);
    }
    if Distinct(a) {
      forall i, j | 0 <= i < j < |b|
        ensures b[i] != b[j]
      {
        OnceEach(a, b[i]);
        OnceThere(b, i, j);
      }
    }
  }

  lemma OnceThere(b: seq<string>, i: nat, j: nat)
    requires i < j < |b| && multiset(b)[b[i]] <= 1
    ensures b[i] != b[j]
  {
    assert b == b[..j] + [b[j]] + b[j + 1..];
    assert multiset(b) == multiset(b[..j]) + multiset{b[j]} + multiset(b[j + 1..]);
    assert b[i] == b[..j][i];
    assert b[i] in multiset(b[..j]);
  }

  lemma {:induction false} OnceEach(a: seq<string>, v: string)
    requires Distinct(a)
    ensures multiset(a)[v] <= 1
  {
    if a != [] {
      assert a == [a[0]] + a[1..];
      OnceEach(a[1..], v);
      if a[0] == v {
        assert v !in a[1..];
      }
    }
  }

  method UsableValues(values: seq<Option<string>>) returns (usable: seq<string>)
    ensures forall v :: v in usable <==> Some(v) in values && |v| >= MIN_EXACT_VALUE_LENGTH
    ensures Distinct(usable) && LongestFirst(usable)
  {
    var kept: seq<string> := [];
    for i := 0 to |values|
      invariant forall v :: v in kept <==> Some(v) in values[..i] && |v| >= MIN_EXACT_VALUE_LENGTH
      invariant Distinct(kept)
    {
      if Usable(values[i]) && values[i].value !in kept {
        kept := kept + [values[i].value];
      }
      assert values[..i + 1] == values[..i] + [values[i]];
    }
    assert values[..|values|] == values;
    usable := SortLongestFirst(kept);
    SameElements(kept, usable);
  }

  // ---------------------------------------------------------------- the pass

  predicate NoneEmpty(values: seq<string>) {
    forall i :: 0 <= i < |values| ==> values[i] != ""
  }

  function RedactAll(text: string, values: seq<string>): string
    requires NoneEmpty(values)
    decreases |values|
  {
    if values == [] then text else RedactAll(Replace(text, values[0]), values[1..])
  }

  method RedactText(text: string, values: seq<string>) returns (output: string)
    requires NoneEmpty(values)
    ensures output == RedactAll(text, values)
  {
    output := text;
    for i := 0 to |values|
      invariant RedactAll(text, values) == RedactAll(output, values[i..])
    {
      assert values[i..][1..] == values[i + 1..];
      SplitJoins(output, values[i]);
      output := Join(Split(output, values[i]), TOKEN);
    }
  }
}
