/**
 * What the exact-value pass does to a text, when no value can overlap the token.
 *
 * The text falls into pieces that were kept and words that were cut; the output is the same with the
 * token for every word.
 */
module RedactorProofs {
  import opened Common
  import opened Redactor

  // ---------------------------------------------------------------- pieces

  datatype Pieces = Last(kept: string) | More(kept: string, word: string, rest: Pieces)

  /** The text the pieces were cut from. */
  function Spell(p: Pieces): string {
    match p
    case Last(kept) => kept
    case More(kept, word, rest) => kept + word + Spell(rest)
  }

  /** The text with the token for every word. */
  function Show(p: Pieces): string {
    match p
    case Last(kept) => kept
    case More(kept, _, rest) => kept + TOKEN + Show(rest)
  }

  ghost predicate Clean(p: Pieces, v: string) {
    match p
    case Last(kept) => !Contains(kept, v)
    case More(kept, _, rest) => !Contains(kept, v) && Clean(rest, v)
  }

  ghost predicate WordsIn(p: Pieces, values: set<string>) {
    p.More? ==> p.word in values && WordsIn(p.rest, values)
  }

  function Prepend(c: char, p: Pieces): Pieces {
    match p
    case Last(kept) => Last([c] + kept)
    case More(kept, word, rest) => More([c] + kept, word, rest)
  }

  /** The pieces of one text around the occurrences of v. */
  function CutUp(s: string, v: string): Pieces
    requires v != ""
    decreases |s|
  {
    if s == "" then Last("")
    else if StartsWith(s, v) then More("", v, CutUp(s[|v|..], v))
    else Prepend(s[0], CutUp(s[1..], v))
  }

  /** p, then the word, then rest. */
  function Graft(p: Pieces, word: string, rest: Pieces): Pieces {
    match p
    case Last(kept) => More(kept, word, rest)
    case More(kept, w, more) => More(kept, w, Graft(more, word, rest))
  }

  /** Every kept piece cut up in turn; words that were cut before stay. */
  function Refine(p: Pieces, v: string): Pieces
    requires v != ""
  {
    match p
    case Last(kept) => CutUp(kept, v)
    case More(kept, word, rest) => Graft(CutUp(kept, v), word, Refine(rest, v))
  }

  lemma {:induction false} GraftReads(p: Pieces, word: string, rest: Pieces)
    ensures Spell(Graft(p, word, rest)) == Spell(p) + word + Spell(rest)
    ensures Show(Graft(p, word, rest)) == Show(p) + TOKEN + Show(rest)
  {
    if p.More? {
      GraftReads(p.rest, word, rest);
    }
  }

  lemma {:induction false} PrependReads(c: char, p: Pieces)
    ensures Spell(Prepend(c, p)) == [c] + Spell(p)
    ensures Show(Prepend(c, p)) == [c] + Show(p)
  {
    if p.More? {
      assert ([c] + p.kept) + p.word + Spell(p.rest) == [c] + (p.kept + p.word + Spell(p.rest));
      assert ([c] + p.kept) + TOKEN + Show(p.rest) == [c] + (p.kept + TOKEN + Show(p.rest));
    }
  }

  lemma {:induction false} CutUpSpells(s: string, v: string)
    requires v != ""
    ensures Spell(CutUp(s, v)) == s
    decreases |s|
  {
    if s == "" {
    } else if StartsWith(s, v) {
      CutUpSpells(s[|v|..], v);
      assert "" + v + s[|v|..] == s;
    } else {
      CutUpSpells(s[1..], v);
      PrependReads(s[0], CutUp(s[1..], v));
      assert [s[0]] + s[1..] == s;
    }
  }

  lemma {:induction false} CutUpShows(s: string, v: string)
    requires v != ""
    ensures Show(CutUp(s, v)) == Replace(s, v)
    decreases |s|
  {
    if s == "" {
    } else if StartsWith(s, v) {
      CutUpShows(s[|v|..], v);
      var rest := Replace(s[|v|..], v);
      assert "" + TOKEN + rest == TOKEN + rest;
    } else {
      CutUpShows(s[1..], v);
      PrependReads(s[0], CutUp(s[1..], v));
    }
  }

  // ---------------------------------------------------------------- values and the token

  /** v and the token agree wherever they lie over each other when the token is put at offset d of v. */
  predicate Agree(v: string, d: int) {
    forall i :: 0 <= i < |v| && 0 <= i - d < |TOKEN| ==> v[i] == TOKEN[i - d]
  }

  /** No way of laying v over the token, in part or in whole, agrees with it. */
  predicate Clear(v: string) {
    forall d :: -|TOKEN| < d < |v| ==> !Agree(v, d)
  }

  ghost predicate AllClear(values: seq<string>) {
    forall i :: 0 <= i < |values| ==> values[i] != "" && Clear(values[i])
  }

  lemma AgreeInside(v: string, d: int)
    requires d <= 0 && |v| - d <= |TOKEN| && Agree(v, d)
    ensures Contains(TOKEN, v)
  {
    assert TOKEN[-d..][..|v|] == v;
    assert OccursAt(TOKEN, v, -d);
  }

  /** A value with neither bracket in it can only lie inside the token. */
  lemma PlainIsClear(v: string)
    requires '[' !in v && ']' !in v && !Contains(TOKEN, v)
    ensures Clear(v)
  {
    forall d | -|TOKEN| < d < |v|
      ensures !Agree(v, d)
    {
      if d > 0 {
        assert v[d] != TOKEN[0];
      } else if |v| - d > |TOKEN| {
        assert v[d + 9] != TOKEN[9];
      } else if Agree(v, d) {
        AgreeInside(v, d);
      }
    }
  }

  /** An occurrence beside the token that lies over it agrees with it there. */
  lemma LyingOverAgrees(a: string, b: string, v: string, i: int)
    requires OccursAt(a + TOKEN + b, v, i)
    ensures Agree(v, |a| - i)
  {
    var s, d := a + TOKEN + b, |a| - i;
    forall k | 0 <= k < |v| && 0 <= k - d < |TOKEN|
      ensures v[k] == TOKEN[k - d]
    {
      assert s[i..][..|v|][k] == s[i + k];
    }
  }

  /** An occurrence of a clear value beside the token lies before it or after it. */
  lemma ClearApart(a: string, b: string, v: string, i: int)
    requires v != "" && Clear(v) && OccursAt(a + TOKEN + b, v, i)
    ensures i + |v| <= |a| || i >= |a| + |TOKEN|
  {
    LyingOverAgrees(a, b, v, i);
  }

  lemma {:induction false} ReplaceSkips(t: string, b: string, v: string)
    requires v != "" && forall j :: 0 <= j < |t| ==> !StartsWith((t + b)[j..], v)
    ensures Replace(t + b, v) == t + Replace(b, v)
  {
    if t == "" {
      assert t + b == b;
    } else {
      var s := t + b;
      assert s[0..] == s;
      assert s[1..] == t[1..] + b;
      forall j | 0 <= j < |t[1..]|
        ensures !StartsWith((t[1..] + b)[j..], v)
      {
        assert (t[1..] + b)[j..] == s[j + 1..];
      }
      ReplaceSkips(t[1..], b, v);
    }
  }

  lemma {:induction false} ReplaceAfter(b: string, v: string)
    requires v != "" && Clear(v)
    ensures Replace(TOKEN + b, v) == TOKEN + Replace(b, v)
  {
    forall j | 0 <= j < |TOKEN|
      ensures !StartsWith((TOKEN + b)[j..], v)
    {
      assert "" + TOKEN + b == TOKEN + b;
      if StartsWith((TOKEN + b)[j..], v) {
        ClearApart("", b, v, j);
      }
    }
    ReplaceSkips(TOKEN, b, v);
  }

  /** Whether a text starts with a clear value is settled before the token. */
  lemma StartsBefore(a: string, b: string, v: string)
    requires v != "" && Clear(v) && a != ""
    ensures StartsWith(a + TOKEN + b, v) <==> StartsWith(a, v)
  {
    var s := a + TOKEN + b;
    assert s[0..] == s;
    assert |v| <= |a| ==> s[..|v|] == a[..|v|];
    if StartsWith(s, v) {
      ClearApart(a, b, v, 0);
    }
  }

  /** How far one step of the scan moves, and what it writes. */
  function Moved(s: string, v: string): nat
    requires s != "" && v != ""
    ensures 0 < Moved(s, v) <= |s|
  {
    if StartsWith(s, v) then |v| else 1
  }

  function WrittenFor(s: string, v: string): string
    requires s != "" && v != ""
  {
    if StartsWith(s, v) then TOKEN else [s[0]]
  }

  lemma Regroup(a: string, b: string, c: string, d: string)
    ensures a + (b + c + d) == (a + b) + c + d
  {
  }

  lemma {:induction false} ReplaceMoves(s: string, v: string)
    requires s != "" && v != ""
    ensures Replace(s, v) == WrittenFor(s, v) + Replace(s[Moved(s, v)..], v)
  {
  }

  lemma MovesAlike(a: string, b: string, v: string)
    requires a != "" && v != "" && Clear(v)
    ensures var s := a + TOKEN + b;
      && Moved(s, v) == Moved(a, v) && WrittenFor(s, v) == WrittenFor(a, v)
      && s[Moved(s, v)..] == a[Moved(a, v)..] + TOKEN + b
  {
    StartsBefore(a, b, v);
  }

  /** Replacing a clear value leaves the token alone. */
  lemma {:induction false} ReplaceAround(a: string, b: string, v: string)
    requires v != "" && Clear(v)
    ensures Replace(a + TOKEN + b, v) == Replace(a, v) + TOKEN + Replace(b, v)
    decreases |a|
  {
    if a == "" {
      assert a + TOKEN + b == TOKEN + b;
      ReplaceAfter(b, v);
    } else {
      var rest, first, end := a[Moved(a, v)..], WrittenFor(a, v), Replace(b, v);
      MovesAlike(a, b, v);
      ReplaceMoves(a, v);
      ReplaceMoves(a + TOKEN + b, v);
      ReplaceAround(rest, b, v);
      Regroup(first, Replace(rest, v), TOKEN, end);
    }
  }

  lemma {:induction false} RefineReads(p: Pieces, v: string)
    requires v != "" && Clear(v)
    ensures Spell(Refine(p, v)) == Spell(p)
    ensures Show(Refine(p, v)) == Replace(Show(p), v)
  {
    CutUpSpells(p.kept, v);
    CutUpShows(p.kept, v);
    if p.More? {
      RefineReads(p.rest, v);
      GraftReads(CutUp(p.kept, v), p.word, Refine(p.rest, v));
      ReplaceAround(p.kept, Show(p.rest), v);
    }
  }

  // ---------------------------------------------------------------- what is kept

  lemma ContainsIn(s: string, from: nat, to: nat, v: string)
    requires from <= to <= |s| && Contains(s[from..to], v)
    ensures Contains(s, v)
  {
    var i :| OccursAt(s[from..to], v, i);
    assert s[from..to][i..][..|v|] == s[from + i..][..|v|];
    assert OccursAt(s, v, from + i);
  }

  lemma NothingContains(v: string)
    requires v != ""
    ensures !Contains("", v)
  {
  }

  lemma OccursAfter(c: char, k: string, v: string)
    requires Contains([c] + k, v)
    ensures StartsWith([c] + k, v) || Contains(k, v)
  {
    var i :| OccursAt([c] + k, v, i);
    assert ([c] + k)[0..] == [c] + k;
    if i > 0 {
      assert ([c] + k)[i..] == k[i - 1..];
      assert OccursAt(k, v, i - 1);
    }
  }

  lemma StartsLonger(short: string, long: string, v: string)
    requires short <= long && StartsWith(short, v)
    ensures StartsWith(long, v)
  {
    assert short[..|v|] == long[..|v|];
  }

  /** No kept piece holds v, and the first is where the text begins. */
  lemma {:induction false} CutUpCleans(s: string, v: string)
    requires v != ""
    ensures Clean(CutUp(s, v), v)
    ensures CutUp(s, v).kept <= s
    decreases |s|
  {
    NothingContains(v);
    if s == "" {
    } else if StartsWith(s, v) {
      CutUpCleans(s[|v|..], v);
    } else {
      CutUpCleans(s[1..], v);
      var k := CutUp(s[1..], v).kept;
      assert [s[0]] + k <= s;
      if Contains([s[0]] + k, v) {
        OccursAfter(s[0], k, v);
        StartsLonger([s[0]] + k, s, v);
      }
    }
  }

  lemma {:induction false} CutUpKeeps(s: string, v: string, u: string)
    requires v != "" && u != "" && !Contains(s, u)
    ensures Clean(CutUp(s, v), u)
    decreases |s|
  {
    NothingContains(u);
    if s == "" {
    } else if StartsWith(s, v) {
      NotInSlice(s, |v|, |s|, u);
      CutUpKeeps(s[|v|..], v, u);
    } else {
      NotInSlice(s, 1, |s|, u);
      CutUpKeeps(s[1..], v, u);
      CutUpCleans(s, v);
      var k := CutUp(s, v).kept;
      assert s[0..|k|] == k;
      NotInSlice(s, 0, |k|, u);
    }
  }

  lemma NotInSlice(s: string, from: nat, to: nat, v: string)
    requires from <= to <= |s| && !Contains(s, v)
    ensures !Contains(s[from..to], v)
    ensures to == |s| ==> !Contains(s[from..], v)
  {
    if Contains(s[from..to], v) {
      ContainsIn(s, from, to, v);
    }
    if to == |s| {
      assert s[from..to] == s[from..];
    }
  }

  lemma {:induction false} GraftCleans(p: Pieces, word: string, rest: Pieces, v: string)
    requires Clean(p, v) && Clean(rest, v)
    ensures Clean(Graft(p, word, rest), v)
  {
    if p.More? {
      GraftCleans(p.rest, word, rest, v);
    }
  }

  lemma {:induction false} RefineCleans(p: Pieces, v: string)
    requires v != ""
    ensures Clean(Refine(p, v), v)
  {
    CutUpCleans(p.kept, v);
    if p.More? {
      RefineCleans(p.rest, v);
      GraftCleans(CutUp(p.kept, v), p.word, Refine(p.rest, v), v);
    }
  }

  lemma {:induction false} RefineKeeps(p: Pieces, v: string, u: string)
    requires v != "" && u != "" && Clean(p, u)
    ensures Clean(Refine(p, v), u)
  {
    CutUpKeeps(p.kept, v, u);
    if p.More? {
      RefineKeeps(p.rest, v, u);
      GraftCleans(CutUp(p.kept, v), p.word, Refine(p.rest, v), u);
    }
  }

  // ---------------------------------------------------------------- the whole pass

  function RefineAll(p: Pieces, values: seq<string>): Pieces
    requires NoneEmpty(values)
    decreases |values|
  {
    if values == [] then p else RefineAll(Refine(p, values[0]), values[1..])
  }

  lemma {:induction false} RefineAllReads(p: Pieces, values: seq<string>)
    requires AllClear(values)
    ensures Spell(RefineAll(p, values)) == Spell(p)
    ensures Show(RefineAll(p, values)) == RedactAll(Show(p), values)
    decreases |values|
  {
    if values != [] {
      RefineReads(p, values[0]);
      RefineAllReads(Refine(p, values[0]), values[1..]);
    }
  }

  lemma {:induction false} RefineAllKeeps(p: Pieces, values: seq<string>, u: string)
    requires NoneEmpty(values) && u != "" && Clean(p, u)
    ensures Clean(RefineAll(p, values), u)
    decreases |values|
  {
    if values != [] {
      RefineKeeps(p, values[0], u);
      RefineAllKeeps(Refine(p, values[0]), values[1..], u);
    }
  }

  lemma {:induction false} RefineAllCleans(p: Pieces, values: seq<string>, u: string)
    requires NoneEmpty(values) && u in values
    ensures Clean(RefineAll(p, values), u)
    decreases |values|
  {
    var first, rest := values[0], values[1..];
    assert values == [first] + rest;
    if u == first {
      RefineCleans(p, u);
      RefineAllKeeps(Refine(p, first), rest, u);
    } else {
      RefineAllCleans(Refine(p, first), rest, u);
    }
  }

  lemma {:induction false} CutUpWords(s: string, v: string, values: set<string>)
    requires v != "" && v in values
    ensures WordsIn(CutUp(s, v), values)
    decreases |s|
  {
    if s != "" {
      CutUpWords(s[if StartsWith(s, v) then |v| else 1..], v, values);
    }
  }

  lemma {:induction false} GraftWords(p: Pieces, word: string, rest: Pieces, values: set<string>)
    requires WordsIn(p, values) && word in values && WordsIn(rest, values)
    ensures WordsIn(Graft(p, word, rest), values)
  {
    if p.More? {
      GraftWords(p.rest, word, rest, values);
    }
  }

  lemma {:induction false} RefineWords(p: Pieces, v: string, values: set<string>)
    requires v != "" && v in values && WordsIn(p, values)
    ensures WordsIn(Refine(p, v), values)
  {
    CutUpWords(p.kept, v, values);
    if p.More? {
      RefineWords(p.rest, v, values);
      GraftWords(CutUp(p.kept, v), p.word, Refine(p.rest, v), values);
    }
  }

  lemma {:induction false} RefineAllWords(p: Pieces, values: seq<string>, all: set<string>)
    requires NoneEmpty(values) && (forall i :: 0 <= i < |values| ==> values[i] in all) && WordsIn(p, all)
    ensures WordsIn(RefineAll(p, values), all)
    decreases |values|
  {
    if values != [] {
      RefineWords(p, values[0], all);
      RefineAllWords(Refine(p, values[0]), values[1..], all);
    }
  }

  function Elements(values: seq<string>): set<string> {
    set v | v in values
  }

  /**
   * The text falls into kept pieces and cut words, every word a value; the output is the same with the
   * token for each word; and no kept piece holds any value.
   */
  lemma Decomposition(text: string, values: seq<string>) returns (p: Pieces)
    requires AllClear(values)
    ensures p == RefineAll(Last(text), values)
    ensures Spell(p) == text && Show(p) == RedactAll(text, values)
    ensures WordsIn(p, Elements(values)) && forall u :: u in values ==> Clean(p, u)
  {
    p := RefineAll(Last(text), values);
    RefineAllReads(Last(text), values);
    RefineAllWords(Last(text), values, Elements(values));
    forall u | u in values
      ensures Clean(p, u)
    {
      RefineAllCleans(Last(text), values, u);
    }
  }

  lemma {:induction false} CleanShows(p: Pieces, v: string)
    requires v != "" && Clear(v) && Clean(p, v)
    ensures !Contains(Show(p), v)
  {
    if p.More? {
      CleanShows(p.rest, v);
      var s := Show(p);
      if Contains(s, v) {
        var i :| OccursAt(s, v, i);
        ClearApart(p.kept, Show(p.rest), v, i);
        OneSide(p.kept, Show(p.rest), v, i);
      }
    }
  }

  lemma OneSide(a: string, b: string, v: string, i: int)
    requires OccursAt(a + TOKEN + b, v, i) && (i + |v| <= |a| || i >= |a| + |TOKEN|)
    ensures Contains(a, v) || Contains(b, v)
  {
    var s := a + TOKEN + b;
    if i + |v| <= |a| {
      assert a[i..][..|v|] == s[i..][..|v|];
      assert OccursAt(a, v, i);
    } else {
      var j := i - |a| - |TOKEN|;
      assert b[j..] == s[i..];
      assert OccursAt(b, v, j);
    }
  }

  /** The output holds no registered value. */
  lemma {:induction false} OutputIsClean(text: string, values: seq<string>, v: string)
    requires AllClear(values) && v in values
    ensures !Contains(RedactAll(text, values), v)
  {
    var p := Decomposition(text, values);
    CleanShows(p, v);
  }

  lemma {:induction false} NothingToReplace(s: string, v: string)
    requires v != "" && !Contains(s, v)
    ensures Replace(s, v) == s
    decreases |s|
  {
    if s != "" {
      assert s[0..] == s;
      assert StartsWith(s, v) ==> OccursAt(s, v, 0);
      NotInSlice(s, 1, |s|, v);
      NothingToReplace(s[1..], v);
      assert s == [s[0]] + s[1..];
    }
  }

  lemma {:induction false} NothingToRedact(s: string, values: seq<string>)
    requires NoneEmpty(values) && forall i :: 0 <= i < |values| ==> !Contains(s, values[i])
    ensures RedactAll(s, values) == s
    decreases |values|
  {
    if values != [] {
      NothingToReplace(s, values[0]);
      NothingToRedact(s, values[1..]);
    }
  }

  /** A second pass changes nothing. */
  lemma {:induction false} PassIsIdempotent(text: string, values: seq<string>)
    requires AllClear(values)
    ensures RedactAll(RedactAll(text, values), values) == RedactAll(text, values)
  {
    var output := RedactAll(text, values);
    forall i | 0 <= i < |values|
      ensures !Contains(output, values[i])
    {
      OutputIsClean(text, values, values[i]);
    }
    NothingToRedact(output, values);
  }

  // ---------------------------------------------------------------- why the longest come first

  /** Some cut word of at least that length lies, in part or in whole, between the two positions of the text. */
  ghost predicate Hit(p: Pieces, from: int, to: int, length: nat) {
    p.More? && (
      || (|p.word| >= length && |p.kept| < to && from < |p.kept| + |p.word|)
      || Hit(p.rest, from - |p.kept| - |p.word|, to - |p.kept| - |p.word|, length))
  }

  ghost predicate AllLong(p: Pieces, length: nat) {
    p.More? ==> |p.word| >= length && AllLong(p.rest, length)
  }

  lemma OccursInHead(head: string, s: string, v: string, at: int)
    requires head <= s && OccursAt(s, v, at) && at + |v| <= |head|
    ensures Contains(head, v)
  {
    assert head[at..][..|v|] == s[at..][..|v|];
    assert OccursAt(head, v, at);
  }

  lemma {:induction false} OccurrenceIsHit(p: Pieces, v: string, at: int, length: nat)
    requires Clean(p, v) && AllLong(p, length) && OccursAt(Spell(p), v, at)
    ensures Hit(p, at, at + |v|, length)
  {
    var s := Spell(p);
    match p
    case Last(kept) =>
    case More(kept, word, rest) =>
      var n := |kept| + |word|;
      if at + |v| <= |kept| {
        OccursInHead(kept, s, v, at);
      } else if at >= n {
        assert Spell(rest)[at - n..] == s[at..];
        OccurrenceIsHit(rest, v, at - n, length);
      }
  }

  lemma {:induction false} GraftHits(p: Pieces, word: string, rest: Pieces, from: int, to: int, length: nat)
    requires var n := |Spell(p)|;
      || (|word| >= length && n < to && from < n + |word|)
      || Hit(rest, from - n - |word|, to - n - |word|, length)
    ensures Hit(Graft(p, word, rest), from, to, length)
  {
    if p.More? {
      var n := |p.kept| + |p.word|;
      GraftHits(p.rest, word, rest, from - n, to - n, length);
    }
  }

  lemma {:induction false} RefineHits(p: Pieces, v: string, from: int, to: int, length: nat)
    requires v != "" && Hit(p, from, to, length)
    ensures Hit(Refine(p, v), from, to, length)
  {
    var n := |p.kept| + |p.word|;
    CutUpSpells(p.kept, v);
    if Hit(p.rest, from - n, to - n, length) {
      RefineHits(p.rest, v, from - n, to - n, length);
    }
    GraftHits(CutUp(p.kept, v), p.word, Refine(p.rest, v), from, to, length);
  }

  lemma {:induction false} RefineAllHits(p: Pieces, values: seq<string>, from: int, to: int, length: nat)
    requires NoneEmpty(values) && Hit(p, from, to, length)
    ensures Hit(RefineAll(p, values), from, to, length)
    decreases |values|
  {
    if values != [] {
      RefineHits(p, values[0], from, to, length);
      RefineAllHits(Refine(p, values[0]), values[1..], from, to, length);
    }
  }

  lemma {:induction false} CutUpLong(s: string, v: string, length: nat)
    requires v != "" && |v| >= length
    ensures AllLong(CutUp(s, v), length)
    decreases |s|
  {
    if s != "" {
      CutUpLong(s[if StartsWith(s, v) then |v| else 1..], v, length);
    }
  }

  lemma {:induction false} GraftLong(p: Pieces, word: string, rest: Pieces, length: nat)
    requires AllLong(p, length) && |word| >= length && AllLong(rest, length)
    ensures AllLong(Graft(p, word, rest), length)
  {
    if p.More? {
      GraftLong(p.rest, word, rest, length);
    }
  }

  lemma {:induction false} RefineLong(p: Pieces, v: string, length: nat)
    requires v != "" && |v| >= length && AllLong(p, length)
    ensures AllLong(Refine(p, v), length) && Spell(Refine(p, v)) == Spell(p)
  {
    CutUpLong(p.kept, v, length);
    CutUpSpells(p.kept, v);
    if p.More? {
      RefineLong(p.rest, v, length);
      GraftLong(CutUp(p.kept, v), p.word, Refine(p.rest, v), length);
      GraftReads(CutUp(p.kept, v), p.word, Refine(p.rest, v));
    }
  }

  lemma {:induction false} LongestCover(p: Pieces, values: seq<string>, v: string, at: int)
    requires NoneEmpty(values) && LongestFirst(values) && v in values
    requires AllLong(p, |v|) && OccursAt(Spell(p), v, at)
    ensures Hit(RefineAll(p, values), at, at + |v|, |v|)
    decreases |values|
  {
    var first, rest := values[0], values[1..];
    var k :| 0 <= k < |values| && values[k] == v;
    assert |first| >= |values[k]|;
    RefineLong(p, first, |v|);
    if k == 0 {
      RefineCleans(p, v);
      OccurrenceIsHit(Refine(p, first), v, at, |v|);
      RefineAllHits(Refine(p, first), rest, at, at + |v|, |v|);
    } else {
      assert rest[k - 1] == v;
      LongestCover(Refine(p, first), rest, v, at);
    }
  }

  /**
   * Every occurrence of a value in the text meets a cut word that is no shorter, so a longer value is
   * never left in part because of a shorter one.
   */
  lemma {:induction false} OccurrencesAreCut(text: string, values: seq<string>, v: string, at: int)
    requires NoneEmpty(values) && LongestFirst(values) && v in values && OccursAt(text, v, at)
    ensures Hit(RefineAll(Last(text), values), at, at + |v|, |v|)
  {
    LongestCover(Last(text), values, v, at);
  }

  // ---------------------------------------------------------------- where it fails

  /** A usable value that lies inside the token survives its own redaction, and each pass changes the text again. */
  lemma ValueInsideToken()
    ensures var v := "REDACTED";
      && |v| >= MIN_EXACT_VALUE_LENGTH && !Clear(v)
      && Contains(RedactAll(v, [v]), v) && RedactAll(RedactAll(v, [v]), [v]) != RedactAll(v, [v])
  {
    var v := "REDACTED";
    assert Agree(v, -1);
    assert v[..|v|] == v && v[|v|..] == "";
    assert RedactAll(v, [v]) == Replace(v, v) == TOKEN;
    assert TOKEN[1..][..8] == v;
    assert OccursAt(TOKEN, v, 1);
    assert TOKEN[..8][0] != v[0];
    assert TOKEN[1..][|v|..] == "]";
    assert RedactAll(TOKEN, [v]) == Replace(TOKEN, v);
    assert Replace(TOKEN, v) == "[" + (TOKEN + Replace("]", v));
    assert Replace(TOKEN, v)[1] == '[';
  }

  /** The text around v that makes its replacement spell v again, when v agrees with the token at offset d. */
  function Before(v: string, d: int): string
    requires d < |v|
  {
    if d > 0 then v[..d] else ""
  }

  function Behind(v: string, d: int): string
    requires -|TOKEN| < d
  {
    if d + |TOKEN| < |v| then v[d + |TOKEN|..] else ""
  }

  lemma ShownAgain(v: string, d: int, k: nat)
    requires -|TOKEN| < d < |v| && Agree(v, d) && k < |v|
    ensures var output, at := Before(v, d) + (TOKEN + Behind(v, d)), if d > 0 then 0 else -d;
      at + k < |output| && output[at + k] == v[k]
  {
    if k >= d && k - d < |TOKEN| {
      assert v[k] == TOKEN[k - d];
    }
  }

  lemma SpelledOccurs(s: string, v: string, at: nat)
    requires at + |v| <= |s| && forall k :: 0 <= k < |v| ==> s[at + k] == v[k]
    ensures OccursAt(s, v, at)
  {
    assert s[at..][..|v|] == v;
  }

  lemma SpellsAgain(v: string, d: int)
    requires -|TOKEN| < d < |v| && Agree(v, d)
    ensures Contains(Before(v, d) + (TOKEN + Behind(v, d)), v)
  {
    var output, at := Before(v, d) + (TOKEN + Behind(v, d)), if d > 0 then 0 else -d;
    forall k | 0 <= k < |v|
      ensures at + k < |output| && output[at + k] == v[k]
    {
      ShownAgain(v, d, k);
    }
    SpelledOccurs(output, v, at);
  }

  lemma {:induction false} ReplaceFirst(v: string, post: string)
    requires v != "" && |post| < |v|
    ensures Replace(v + post, v) == TOKEN + post
  {
    assert (v + post)[..|v|] == v && (v + post)[|v|..] == post;
    NoRoom(post, v);
    NothingToReplace(post, v);
  }

  /**
   * v agrees with the token at some offset, and in what comes before the token v does not already begin
   * sooner: then a text can be redacted into v.
   */
  ghost predicate LeaksAt(v: string, d: int) {
    && -|TOKEN| < d < |v| && Agree(v, d)
    && forall q :: 0 <= q < d ==> !StartsWith((Before(v, d) + v)[q..], v)
  }

  ghost predicate Leaky(v: string) {
    exists d :: LeaksAt(v, d)
  }

  lemma StartsSooner(a: string, post: string, v: string, q: nat)
    requires q < |a| && StartsWith((a + (v + post))[q..], v)
    ensures StartsWith((a + v)[q..], v)
  {
    assert (a + (v + post))[q..][..|v|] == (a + v)[q..][..|v|];
  }

  /** Some text keeps such a value. */
  lemma {:induction false} LeakyLeaks(v: string, d: int) returns (text: string)
    requires v != "" && LeaksAt(v, d)
    ensures Survives(v, text)
  {
    var pre, post := Before(v, d), Behind(v, d);
    text := pre + (v + post);
    forall q | 0 <= q < |pre|
      ensures !StartsWith((pre + (v + post))[q..], v)
    {
      if StartsWith((pre + (v + post))[q..], v) {
        StartsSooner(pre, post, v, q);
      }
    }
    ReplaceSkips(pre, v + post, v);
    ReplaceFirst(v, post);
    SpellsAgain(v, d);
  }

  lemma NoRoom(s: string, v: string)
    requires |s| < |v|
    ensures !Contains(s, v)
  {
  }

  /** No occurrence begins in what is kept before the first cut, and v follows it if anything was cut. */
  ghost predicate FirstCut(s: string, v: string, p: Pieces)
    requires v != ""
  {
    && p.kept <= s && (forall j :: 0 <= j < |p.kept| ==> !StartsWith(s[j..], v))
    && (p.Last? ==> p.kept == s)
    && (p.More? ==> StartsWith(s[|p.kept|..], v) && p.rest == CutUp(s[|p.kept| + |v|..], v))
  }

  lemma FirstCutLater(c: char, s: string, v: string, p: Pieces)
    requires v != "" && FirstCut(s, v, p) && !StartsWith([c] + s, v)
    ensures FirstCut([c] + s, v, Prepend(c, p))
  {
    var longer, n := [c] + s, |p.kept|;
    forall j | 0 <= j < n + 1
      ensures !StartsWith(longer[j..], v)
    {
      assert longer[j..] == if j == 0 then longer else s[j - 1..];
    }
    assert longer[n + 1..] == s[n..];
    assert p.More? ==> longer[n + 1 + |v|..] == s[n + |v|..];
  }

  lemma {:induction false} CutUpCutsFirst(s: string, v: string)
    requires v != ""
    ensures FirstCut(s, v, CutUp(s, v))
    decreases |s|
  {
    if s == "" {
    } else if StartsWith(s, v) {
      assert s[0..] == s;
    } else {
      CutUpCutsFirst(s[1..], v);
      assert s == [s[0]] + s[1..];
      FirstCutLater(s[0], s[1..], v, CutUp(s[1..], v));
    }
  }

  lemma BeginsInKept(kept: string, s: string, shown: string, v: string, i: nat)
    requires kept <= s && kept <= shown && OccursAt(shown, v, i) && i + |v| <= |kept|
    ensures StartsWith(s[i..], v)
  {
    assert shown[i..][..|v|] == s[i..][..|v|];
  }

  /** What an occurrence over the token takes from the text is there followed by v. */
  lemma SoonerInText(s: string, kept: string, v: string, i: nat, q: nat)
    requires kept <= s && StartsWith(s[|kept|..], v) && i <= |kept| && |kept| - i <= |v|
    requires v[..|kept| - i] == kept[i..] && q < |kept| - i
    ensures StartsWith((v[..|kept| - i] + v)[q..], v) ==> StartsWith(s[i + q..], v)
  {
    var d := |kept| - i;
    var there := v[..d] + v;
    assert s[i..|kept|] == kept[i..] && s[|kept|..][..|v|] == v;
    assert s[i..][..d + |v|] == there;
    assert there[q..][..|v|] == s[i + q..][..|v|];
  }

  lemma OverFirstCut(s: string, kept: string, v: string, after: string, i: nat)
    requires v != "" && kept <= s && StartsWith(s[|kept|..], v)
    requires forall j :: 0 <= j < |kept| ==> !StartsWith(s[j..], v)
    requires OccursAt(kept + TOKEN + after, v, i) && |kept| < i + |v| && i < |kept| + |TOKEN|
    ensures LeaksAt(v, |kept| - i)
  {
    var d := |kept| - i;
    LyingOverAgrees(kept, after, v, i);
    if d > 0 {
      var shown := kept + TOKEN + after;
      assert shown[i..][..|v|][..d] == kept[i..];
      forall q | 0 <= q < d
        ensures !StartsWith((Before(v, d) + v)[q..], v)
      {
        SoonerInText(s, kept, v, i, q);
      }
    }
  }

  lemma BehindToken(kept: string, after: string, v: string, i: int)
    requires OccursAt(kept + TOKEN + after, v, i) && i >= |kept| + |TOKEN|
    ensures OccursAt(after, v, i - |kept| - |TOKEN|)
  {
    assert after[i - |kept| - |TOKEN|..] == (kept + TOKEN + after)[i..];
  }

  /** An occurrence in a text of which one word was cut leaks there, or lies behind the token. */
  lemma LeaksOrLater(s: string, kept: string, v: string, after: string, i: nat)
    requires v != "" && kept <= s && StartsWith(s[|kept|..], v)
    requires forall j :: 0 <= j < |kept| ==> !StartsWith(s[j..], v)
    requires OccursAt(kept + TOKEN + after, v, i)
    ensures Leaky(v) || (i >= |kept| + |TOKEN| && OccursAt(after, v, i - |kept| - |TOKEN|))
  {
    if i >= |kept| + |TOKEN| {
      BehindToken(kept, after, v, i);
    } else if |kept| < i + |v| {
      OverFirstCut(s, kept, v, after, i);
      assert LeaksAt(v, |kept| - i);
    } else {
      assert kept <= kept + TOKEN + after;
      BeginsInKept(kept, s, kept + TOKEN + after, v, i);
    }
  }

  /** A value that is left in some text is of that kind. */
  lemma {:induction false} LeftIsLeaky(s: string, v: string, i: nat)
    requires v != "" && OccursAt(Show(CutUp(s, v)), v, i)
    ensures Leaky(v)
    decreases |s|
  {
    CutUpCutsFirst(s, v);
    match CutUp(s, v)
    case Last(kept) =>
      BeginsInKept(kept, s, kept, v, i);
    case More(kept, _, rest) =>
      LeaksOrLater(s, kept, v, Show(rest), i);
      if !Leaky(v) {
        LeftIsLeaky(s[|kept| + |v|..], v, i - |kept| - |TOKEN|);
      }
  }

  /** Whether a value is left in a text from which it was to be removed. */
  ghost predicate Survives(v: string, text: string)
    requires v != ""
  {
    Contains(Replace(text, v), v)
  }

  /** The values that never survive their own redaction are exactly those that do not leak. */
  lemma {:induction false} SurvivesExactlyIfLeaky(v: string)
    requires v != ""
    ensures Leaky(v) <==> exists text :: Survives(v, text)
  {
    if Leaky(v) {
      var d :| LeaksAt(v, d);
      var text := LeakyLeaks(v, d);
      assert Survives(v, text);
    }
    if text :| Survives(v, text) {
      CutUpShows(text, v);
      var i :| OccursAt(Replace(text, v), v, i);
      LeftIsLeaky(text, v, i);
    }
  }

  /** An occurrence before the one that was put there makes v begin like the token. */
  lemma EarlierBegins(v: string, d: int, q: int)
    requires 0 <= q < d < |v| && Agree(v, d) && StartsWith((v[..d] + v)[q..], v)
    ensures v[0] == TOKEN[0]
  {
    var s := v[..d] + v;
    assert s[q..][..|v|][d] == s[q + d] == v[q];
    assert s[q..][..|v|][0] == s[q] == v[q];
    assert v[d] == TOKEN[0];
  }

  lemma UnclearIsLeaky(v: string, d: int)
    requires v != "" && v[0] != TOKEN[0] && -|TOKEN| < d < |v| && Agree(v, d)
    ensures LeaksAt(v, d)
  {
    forall q | 0 <= q < d
      ensures !StartsWith((Before(v, d) + v)[q..], v)
    {
      if StartsWith((Before(v, d) + v)[q..], v) {
        EarlierBegins(v, d, q);
      }
    }
  }

  /** Of the values that do not begin like the token, exactly the clear ones never survive. */
  lemma {:induction false} CleanExactlyIfClear(v: string)
    requires v != "" && v[0] != TOKEN[0]
    ensures Clear(v) <==> forall text :: !Survives(v, text)
  {
    SurvivesExactlyIfLeaky(v);
    if !Clear(v) {
      var d :| -|TOKEN| < d < |v| && Agree(v, d);
      UnclearIsLeaky(v, d);
    }
  }

  // ---------------------------------------------------------------- values that begin like the token, and values in company

  /** Registered values, v among them and the others clear. */
  ghost predicate Company(values: seq<string>, v: string) {
    && Distinct(values) && LongestFirst(values) && NoneEmpty(values) && v in values
    && forall i :: 0 <= i < |values| ==> |values[i]| >= MIN_EXACT_VALUE_LENGTH && (values[i] == v || Clear(values[i]))
  }

  ghost predicate SurvivesAmong(v: string, values: seq<string>, text: string)
    requires NoneEmpty(values)
  {
    Contains(RedactAll(text, values), v)
  }

  function Repeated(c: char, n: nat): string {
    seq(n, _ => c)
  }

  lemma OccurrenceBegins(s: string, u: string, i: int)
    requires u != "" && OccursAt(s, u, i)
    ensures u[0] in s
  {
    assert s[i..][..|u|][0] == u[0];
  }

  lemma {:induction false} WithoutFirst(s: string, u: string)
    requires u != "" && u[0] !in s
    ensures !Contains(s, u)
  {
    forall i
      ensures !OccursAt(s, u, i)
    {
      if OccursAt(s, u, i) {
        OccurrenceBegins(s, u, i);
      }
    }
  }

  lemma RepeatedIsClear(c: char, n: nat)
    requires c !in TOKEN && n > 0
    ensures Clear(Repeated(c, n))
  {
    var u := Repeated(c, n);
    assert TOKEN[0] == '[' && TOKEN[9] == ']';
    assert u[0] == c;
    WithoutFirst(TOKEN, u);
    PlainIsClear(u);
  }

  lemma FirstIsThere(s: string, u: string, j: nat)
    requires u != "" && j < |s| && s[j] != u[0]
    ensures !StartsWith(s[j..], u)
  {
    assert |u| <= |s[j..]| ==> s[j..][..|u|][0] == s[j];
  }

  /** An occurrence that neither side has room for takes something of what is between them. */
  lemma AcrossTakes(pre: string, u: string, post: string, v: string, i: int) returns (k: nat)
    requires u != "" && |pre| < |v| && |post| < |v| && OccursAt(pre + (u + post), v, i)
    ensures k < |u| && u[k] in v
  {
    var s := pre + (u + post);
    assert i + |v| <= |s|;
    var at := if i < |pre| then |pre| - i else 0;
    k := i + at - |pre|;
    assert s[i..][..|v|][at] == v[at] && s[i + at] == u[k];
    assert v[at] in v;
  }

  /** Another value between them is what v cannot reach over. */
  lemma NotAcross(pre: string, u: string, post: string, v: string)
    requires u != "" && |pre| < |v| && |post| < |v| && forall k :: 0 <= k < |u| ==> u[k] !in v
    ensures !Contains(pre + (u + post), v)
  {
    forall i
      ensures !OccursAt(pre + (u + post), v, i)
    {
      if OccursAt(pre + (u + post), v, i) {
        var k := AcrossTakes(pre, u, post, v, i);
      }
    }
  }

  lemma {:induction false} ReplaceBetween(pre: string, u: string, post: string)
    requires u != "" && u[0] !in pre && u[0] !in post
    ensures Replace(pre + (u + post), u) == pre + (TOKEN + post)
  {
    forall j | 0 <= j < |pre|
      ensures !StartsWith((pre + (u + post))[j..], u)
    {
      FirstIsThere(pre + (u + post), u, j);
    }
    ReplaceSkips(pre, u + post, u);
    assert (u + post)[..|u|] == u && (u + post)[|u|..] == post;
    WithoutFirst(post, u);
    NothingToReplace(post, u);
  }

  /** Where v was overlapped only by its own occurrences, another value uncovers it. */
  lemma {:induction false} UnclearLeaksAmong(v: string, d: int, c: char)
    requires |v| >= MIN_EXACT_VALUE_LENGTH && c !in v && c !in TOKEN
    requires -|TOKEN| < d < |v| && Agree(v, d)
    ensures var u := Repeated(c, MIN_EXACT_VALUE_LENGTH);
      Company([v, u], v) && SurvivesAmong(v, [v, u], Before(v, d) + (u + Behind(v, d)))
  {
    var u, pre, post := Repeated(c, MIN_EXACT_VALUE_LENGTH), Before(v, d), Behind(v, d);
    var text := pre + (u + post);
    RepeatedIsClear(c, MIN_EXACT_VALUE_LENGTH);
    NotAcross(pre, u, post, v);
    NothingToReplace(text, v);
    ReplaceBetween(pre, u, post);
    SpellsAgain(v, d);
    assert [v, u][1..] == [u] && [u][1..] == [];
    assert RedactAll(text, [v, u]) == RedactAll(Replace(text, v), [u]) == Replace(text, u);
  }

  /**
   * Among clear values, exactly the clear ones are never left; for every value of usable length that
   * lacks some character the token lacks too.
   */
  lemma {:induction false} CleanInCompanyExactlyIfClear(v: string, c: char)
    requires |v| >= MIN_EXACT_VALUE_LENGTH && c !in v && c !in TOKEN
    ensures Clear(v) <==> forall values, text :: Company(values, v) ==> !SurvivesAmong(v, values, text)
  {
    if Clear(v) {
      forall values, text | Company(values, v)
        ensures !SurvivesAmong(v, values, text)
      {
        OutputIsClean(text, values, v);
      }
    } else {
      var d :| -|TOKEN| < d < |v| && Agree(v, d);
      UnclearLeaksAmong(v, d, c);
      var u := Repeated(c, MIN_EXACT_VALUE_LENGTH);
      assert Company([v, u], v) && SurvivesAmong(v, [v, u], Before(v, d) + (u + Behind(v, d)));
    }
  }

  /** A value that overlaps the token and yet never survives on its own: before the token it has already begun. */
  lemma HiddenOverlap()
    ensures !Clear(HIDDEN) && !Leaky(HIDDEN)
  {
    assert Agree(HIDDEN, 8);
    forall d
      ensures !LeaksAt(HIDDEN, d)
    {
      if d == 8 {
        assert (HIDDEN[..8] + HIDDEN)[0..] == HIDDEN[..8] + HIDDEN;
        assert (HIDDEN[..8] + HIDDEN)[..11] == HIDDEN;
        assert StartsWith((Before(HIDDEN, 8) + HIDDEN)[0..], HIDDEN);
      } else if -|TOKEN| < d < |HIDDEN| {
        OnlyThere(d);
      }
    }
  }

  const HIDDEN := "[REabcde[RE"

  lemma OnlyThere(d: int)
    requires -|TOKEN| < d < |HIDDEN| && d != 8
    ensures !Agree(HIDDEN, d)
  {
    if d > 0 {
      assert HIDDEN[d] != TOKEN[0];
    } else if d == 0 {
      assert HIDDEN[3] != TOKEN[3];
    } else {
      assert HIDDEN[0] != TOKEN[-d];
    }
  }
}
