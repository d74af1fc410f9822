/** Detecting that a shell command pushed to a remote, from its words and from its output. */
module PushDetector {
  import opened Common

  /** Global git options that consume the word after them. */
  const GIT_OPTIONS_WITH_VALUE := {"-c", "-C", "--config-env", "--exec-path", "--git-dir", "--namespace", "--work-tree"}

  datatype ShellOutcome = ShellOutcome(command: string, output: string, exitCode: Option<int>)

  predicate IsSeparator(c: char) {
    c in {';', '&', '|', '\n'}
  }

  /** The characters a regular expression's `\s` matches. */
  predicate IsSpace(c: char) {
    || c in {'\t', '\n', '\U{000b}', '\U{000c}', '\r', ' ', '\U{00a0}', '\U{1680}', '\U{2028}', '\U{2029}'}
    || c in {'\U{202f}', '\U{205f}', '\U{3000}', '\U{feff}'}
    || '\U{2000}' <= c <= '\U{200a}'
  }

  /** The pieces between single separators; one more than there are separators. */
  function Segments(s: string): (parts: seq<string>)
    ensures |parts| >= 1
  {
    if s == "" then [""]
    else
      var rest := Segments(s[1..]);
      if IsSeparator(s[0]) then [""] + rest else [[s[0]] + rest[0]] + rest[1..]
  }

  /** The pieces between runs of whitespace; empty at an end that is whitespace. */
  function Words(s: string): (words: seq<string>)
    ensures |words| >= 1
  {
    if s == "" then [""]
    else
      var rest := Words(s[1..]);
      if IsSpace(s[0]) then
        if |s| > 1 && IsSpace(s[1]) then rest else [""] + rest
      else [[s[0]] + rest[0]] + rest[1..]
  }

  function IndexOf(words: seq<string>, word: string): (i: int)
    ensures -1 <= i < |words|
    ensures i >= 0 ==> words[i] == word && word !in words[..i]
    ensures i == -1 ==> word !in words
  {
    if words == [] then -1
    else if words[0] == word then 0
    else
      var i := IndexOf(words[1..], word);
      if i == -1 then -1 else i + 1
  }

  predicate IsOption(word: string) {
    word != "" && word[0] == '-'
  }

  /** The first word that is neither an option nor the value of one. */
  function Subcommand(words: seq<string>): Option<string>
    decreases |words|
  {
    if words == [] then None
    else if !IsOption(words[0]) then Some(words[0])
    else if words[0] in GIT_OPTIONS_WITH_VALUE then
      if |words| == 1 then None else Subcommand(words[2..])
    else Subcommand(words[1..])
  }

  function SubcommandFrom(words: seq<string>, index: nat): Option<string> {
    if index <= |words| then Subcommand(words[index..]) else None
  }

  /** One turn of the scan: stop at a word that is no option, else skip it and the value it takes. */
  lemma SubcommandStep(words: seq<string>, index: nat)
    requires index < |words|
    ensures SubcommandFrom(words, index) ==
            if !IsOption(words[index]) then Some(words[index])
            else SubcommandFrom(words, index + if words[index] in GIT_OPTIONS_WITH_VALUE then 2 else 1)
  {
    var rest := words[index..];
    assert rest[0] == words[index];
    assert rest[1..] == words[index + 1..];
    if index + 1 < |words| {
      assert rest[2..] == words[index + 2..];
    }
  }

  method SegmentPushes(segment: string) returns (pushes: bool)
    ensures pushes <==> PushWords(Words(segment))
  {
    var words := Words(segment);
    var git := IndexOf(words, "git");
    if git == -1 {
      return false;
    }
    var index := git + 1;
    while index < |words| && IsOption(words[index])
      invariant git < index
      invariant SubcommandFrom(words, git + 1) == SubcommandFrom(words, index)
    {
      SubcommandStep(words, index);
      index := index + if words[index] in GIT_OPTIONS_WITH_VALUE then 2 else 1;
    }
    if index < |words| {
      SubcommandStep(words, index);
    }
    pushes := index < |words| && words[index] == "push";
  }

  predicate PushWords(words: seq<string>) {
    var git := IndexOf(words, "git");
    git != -1 && SubcommandFrom(words, git + 1) == Some("push")
  }

  predicate InvokesGitPush(command: string) {
    exists segment :: segment in Segments(command) && PushWords(Words(segment))
  }

  method CommandPushes(command: string) returns (pushes: bool)
    ensures pushes <==> InvokesGitPush(command)
  {
    var segments := Segments(command);
    for i := 0 to |segments|
      invariant forall k :: 0 <= k < i ==> !PushWords(Words(segments[k]))
    {
      var found := SegmentPushes(segments[i]);
      if found {
        return true;
      }
    }
    return false;
  }

  // ---------------------------------------------------------------- output of a push

  predicate IsLineEnd(c: char) {
    c in {'\n', '\r', '\U{2028}', '\U{2029}'}
  }

  predicate LineStart(s: string, i: nat)
    requires i <= |s|
  {
    i == 0 || IsLineEnd(s[i - 1])
  }

  const REMOTE_FORMS := ["http://", "https://", "git@", "ssh://", "file://", "/"]

  predicate NamesRemote(s: string) {
    exists form :: form in REMOTE_FORMS && StartsWith(s, "To " + form)
  }

  /** A line begins with "To " and the form of a remote. */
  predicate HasPushBanner(output: string) {
    exists i :: 0 <= i <= |output| && LineStart(output, i) && NamesRemote(output[i..])
  }

  /** An arrow between two whitespace characters. */
  predicate HasRefUpdate(output: string) {
    exists i :: 0 <= i && i + 4 <= |output| && IsSpace(output[i]) && output[i + 1..i + 3] == "->" && IsSpace(output[i + 3])
  }

  predicate LooksLikeGitPush(outcome: ShellOutcome) {
    && outcome.exitCode == Some(0)
    && (InvokesGitPush(outcome.command) || (HasPushBanner(outcome.output) && HasRefUpdate(outcome.output)))
  }

  // ---------------------------------------------------------------- the grammar

  /** A run of options, each followed by its value when it takes one. */
  ghost predicate OptionRun(words: seq<string>)
    decreases |words|
  {
    || words == []
    || (IsOption(words[0]) && words[0] !in GIT_OPTIONS_WITH_VALUE && OptionRun(words[1..]))
    || (|words| >= 2 && words[0] in GIT_OPTIONS_WITH_VALUE && OptionRun(words[2..]))
  }

  /** words = prefix without "git", "git", a run of options, "push", anything. */
  ghost predicate PushGrammar(words: seq<string>, git: nat, push: nat) {
    && git < push < |words|
    && "git" !in words[..git] && words[git] == "git"
    && OptionRun(words[git + 1..push]) && words[push] == "push"
  }

  ghost predicate FitsPush(words: seq<string>) {
    exists git: nat, push: nat :: PushGrammar(words, git, push)
  }

  lemma {:induction false} SubcommandAfterOptions(words: seq<string>, n: nat)
    requires n < |words| && OptionRun(words[..n]) && !IsOption(words[n])
    ensures Subcommand(words) == Some(words[n])
    decreases n
  {
    if n > 0 {
      if words[0] !in GIT_OPTIONS_WITH_VALUE {
        assert words[..n][1..] == words[1..][..n - 1];
        SubcommandAfterOptions(words[1..], n - 1);
      } else {
        assert words[..n][2..] == words[2..][..n - 2];
        SubcommandAfterOptions(words[2..], n - 2);
      }
    }
  }

  lemma {:induction false} SubcommandSplits(words: seq<string>) returns (n: nat)
    requires Subcommand(words).Some?
    ensures n < |words| && OptionRun(words[..n]) && !IsOption(words[n]) && words[n] == Subcommand(words).value
    decreases |words|
  {
    if !IsOption(words[0]) {
      n := 0;
    } else if words[0] in GIT_OPTIONS_WITH_VALUE {
      var m := SubcommandSplits(words[2..]);
      n := m + 2;
      assert words[..n][2..] == words[2..][..m];
    } else {
      var m := SubcommandSplits(words[1..]);
      n := m + 1;
      assert words[..n][1..] == words[1..][..m];
    }
  }

  /** Whatever the scan accepts fits the grammar. */
  lemma ScanFits(words: seq<string>)
    requires PushWords(words)
    ensures FitsPush(words)
  {
    var git := IndexOf(words, "git");
    var after := words[git + 1..];
    var n := SubcommandSplits(after);
    assert after[..n] == words[git + 1..git + 1 + n];
    assert after[n] == words[git + 1 + n];
    assert PushGrammar(words, git, git + 1 + n);
  }

  lemma {:induction false} FirstIndexUnique(words: seq<string>, word: string, b: nat)
    requires b < |words| && words[b] == word && word !in words[..b]
    ensures IndexOf(words, word) == b
  {
    if b > 0 {
      assert words[..b][0] == words[0];
      assert words[1..][..b - 1] == words[..b][1..];
      FirstIndexUnique(words[1..], word, b - 1);
    }
  }

  /** Whatever fits the grammar is accepted by the scan. */
  lemma FitsScan(words: seq<string>, git: nat, push: nat)
    requires PushGrammar(words, git, push)
    ensures PushWords(words)
  {
    FirstIndexUnique(words, "git", git);
    var after := words[git + 1..];
    assert after[..push - git - 1] == words[git + 1..push];
    assert after[push - git - 1] == words[push];
    SubcommandAfterOptions(after, push - git - 1);
  }

  lemma {:induction false} SegmentsSplit(a: string, c: char, b: string)
    requires IsSeparator(c)
    ensures Segments(a + [c] + b) == Segments(a) + Segments(b)
  {
    if a == "" {
      assert a + [c] + b == [c] + b;
      assert ([c] + b)[1..] == b;
    } else {
      assert (a + [c] + b)[1..] == a[1..] + [c] + b;
      SegmentsSplit(a[1..], c, b);
    }
  }

  /** Detection on a command with a separator is detection on either side of it. */
  lemma DetectionSplits(a: string, c: char, b: string)
    requires IsSeparator(c)
    ensures InvokesGitPush(a + [c] + b) <==> InvokesGitPush(a) || InvokesGitPush(b)
  {
    SegmentsSplit(a, c, b);
    var all := Segments(a + [c] + b);
    assert forall s :: s in all <==> s in Segments(a) || s in Segments(b);
  }

  lemma FitsExactly(words: seq<string>)
    ensures PushWords(words) <==> FitsPush(words)
  {
    if PushWords(words) {
      ScanFits(words);
    }
    if FitsPush(words) {
      var git: nat, push: nat :| PushGrammar(words, git, push);
      FitsScan(words, git, push);
    }
  }

  lemma {:induction false} SomeFitExactly(parts: seq<string>)
    ensures (exists segment :: segment in parts && PushWords(Words(segment)))
        <==> exists segment :: segment in parts && FitsPush(Words(segment))
  {
    if segment :| segment in parts && PushWords(Words(segment)) {
      FitsExactly(Words(segment));
      assert FitsPush(Words(segment));
    }
    if segment :| segment in parts && FitsPush(Words(segment)) {
      FitsExactly(Words(segment));
      assert PushWords(Words(segment));
    }
  }

  /** A command is reported exactly when the words of one of its segments fit the grammar. */
  lemma {:induction false} DetectionIsGrammar(command: string)
    ensures InvokesGitPush(command) <==> exists segment :: segment in Segments(command) && FitsPush(Words(segment))
  {
    SomeFitExactly(Segments(command));
  }

  /** `Segments` cuts a command at its separators and nowhere else. */
  lemma {:induction false} SegmentsCut(s: string, i: nat)
    requires i < |Segments(s)|
    ensures forall c :: c in Segments(s)[i] ==> !IsSeparator(c)
  {
    if s != "" {
      var rest := Segments(s[1..]);
      if IsSeparator(s[0]) {
        if i > 0 {
          SegmentsCut(s[1..], i - 1);
        }
      } else {
        SegmentsCut(s[1..], i);
      }
    }
  }

  // ---------------------------------------------------------------- what the words are

  ghost predicate SpaceFree(word: string) {
    forall c :: c in word ==> !IsSpace(c)
  }

  ghost predicate AllSpace(gap: string) {
    gap != "" && forall c :: c in gap ==> IsSpace(c)
  }

  /** The text words and the gaps between them spell. */
  ghost function Interleave(words: seq<string>, gaps: seq<string>): string
    requires |words| == |gaps| + 1
    decreases |words|
  {
    if gaps == [] then words[0] else words[0] + gaps[0] + Interleave(words[1..], gaps[1..])
  }

  /** words and gaps alternate to spell s, and no word but the first or the last is empty. */
  ghost predicate Cut(s: string, words: seq<string>, gaps: seq<string>) {
    && |words| == |gaps| + 1 && Interleave(words, gaps) == s
    && (forall i :: 0 <= i < |words| ==> SpaceFree(words[i]))
    && (forall i :: 0 <= i < |gaps| ==> AllSpace(gaps[i]))
    && (forall i :: 0 < i < |gaps| ==> words[i] != "")
    && (s != "" && !IsSpace(s[0]) ==> words[0] != "")
    && (s != "" && IsSpace(s[0]) ==> words[0] == "" && |gaps| > 0)
    && (s == "" ==> gaps == [])
  }

  lemma ExtendWord(c: char, s: string, words: seq<string>, gaps: seq<string>)
    requires Cut(s, words, gaps) && !IsSpace(c)
    ensures Cut([c] + s, [[c] + words[0]] + words[1..], gaps)
  {
    var longer := [[c] + words[0]] + words[1..];
    assert longer[1..] == words[1..];
    assert Interleave(longer, gaps) == [c] + s;
  }

  lemma ExtendGap(c: char, s: string, words: seq<string>, gaps: seq<string>)
    requires Cut(s, words, gaps) && IsSpace(c) && s != "" && IsSpace(s[0])
    ensures Cut([c] + s, words, [[c] + gaps[0]] + gaps[1..])
  {
    var longer := [[c] + gaps[0]] + gaps[1..];
    assert longer[1..] == gaps[1..];
    assert Interleave(words, longer) == [c] + s;
  }

  lemma NewGap(c: char, s: string, words: seq<string>, gaps: seq<string>)
    requires Cut(s, words, gaps) && IsSpace(c) && (s != "" ==> !IsSpace(s[0]))
    ensures Cut([c] + s, [""] + words, [[c]] + gaps)
  {
    var w, g := [""] + words, [[c]] + gaps;
    assert w[1..] == words && g[1..] == gaps;
    assert Interleave(w, g) == [c] + s;
  }

  /** `Words` cuts a text at its maximal runs of whitespace. */
  lemma {:induction false} WordsCutAtGaps(s: string) returns (gaps: seq<string>)
    ensures Cut(s, Words(s), gaps)
  {
    if s == "" {
      gaps := [];
    } else {
      var rest := WordsCutAtGaps(s[1..]);
      assert s == [s[0]] + s[1..];
      if !IsSpace(s[0]) {
        gaps := rest;
        ExtendWord(s[0], s[1..], Words(s[1..]), rest);
      } else if |s| > 1 && IsSpace(s[1]) {
        gaps := [[s[0]] + rest[0]] + rest[1..];
        ExtendGap(s[0], s[1..], Words(s[1..]), rest);
      } else {
        gaps := [[s[0]]] + rest;
        NewGap(s[0], s[1..], Words(s[1..]), rest);
      }
    }
  }

  // ---------------------------------------------------------------- the output

  /** The lines of a text. */
  function Lines(s: string): (lines: seq<string>)
    ensures |lines| >= 1
  {
    if s == "" then [""]
    else
      var rest := Lines(s[1..]);
      if IsLineEnd(s[0]) then [""] + rest else [[s[0]] + rest[0]] + rest[1..]
  }

  ghost predicate OneLine(s: string) {
    forall i :: 0 <= i < |s| ==> !IsLineEnd(s[i])
  }

  lemma {:induction false} LineThenRest(line: string, end: char, rest: string)
    requires OneLine(line) && IsLineEnd(end)
    ensures Lines(line + [end] + rest) == [line] + Lines(rest)
  {
    var s := line + [end] + rest;
    if line == "" {
      assert s[1..] == rest;
    } else {
      assert s[1..] == line[1..] + [end] + rest;
      LineThenRest(line[1..], end, rest);
      assert ([line[1..]] + Lines(rest))[1..] == Lines(rest);
      assert [line[0]] + line[1..] == line;
    }
  }

  lemma {:induction false} LastLine(line: string)
    requires OneLine(line)
    ensures Lines(line) == [line]
  {
    if line != "" {
      LastLine(line[1..]);
      assert [line[0]] + line[1..] == line;
    }
  }

  lemma FormIsOneLine(form: string)
    requires form in REMOTE_FORMS
    ensures OneLine("To " + form)
  {
    var i :| 0 <= i < |REMOTE_FORMS| && REMOTE_FORMS[i] == form;
    assert i < 6;
  }

  /** The first line, what ends it, and what follows. */
  lemma {:induction false} FirstLine(s: string) returns (end: char, tail: string)
    ensures OneLine(Lines(s)[0])
    ensures |Lines(s)| == 1 ==> s == Lines(s)[0]
    ensures |Lines(s)| > 1 ==>
      IsLineEnd(end) && s == Lines(s)[0] + [end] + tail && |tail| < |s| && Lines(s)[1..] == Lines(tail)
  {
    end, tail := ' ', "";
    if s != "" {
      if IsLineEnd(s[0]) {
        end, tail := s[0], s[1..];
        assert s == "" + [s[0]] + tail;
        assert ([""] + Lines(tail))[1..] == Lines(tail);
      } else {
        end, tail := FirstLine(s[1..]);
        var rest := Lines(s[1..]);
        assert Lines(s)[1..] == rest[1..];
        assert s == [s[0]] + s[1..];
        if |rest| > 1 {
          Prepended(s[0], rest[0], end, tail);
        }
      }
    }
  }

  lemma Prepended<T>(first: T, line: seq<T>, end: T, tail: seq<T>)
    ensures [first] + (line + [end] + tail) == ([first] + line) + [end] + tail
  {
  }

  /** What names a remote names it in its first line. */
  lemma NamedOnOneLine(line: string, rest: string)
    requires OneLine(line) && (rest == "" || IsLineEnd(rest[0]))
    ensures NamesRemote(line + rest) <==> NamesRemote(line)
  {
    var s := line + rest;
    assert rest != "" ==> IsLineEnd(s[|line|]);
    forall form | form in REMOTE_FORMS
      ensures StartsWith(s, "To " + form) <==> StartsWith(line, "To " + form)
    {
      FormIsOneLine(form);
      StartsInFirst(line, rest, "To " + form);
    }
  }

  lemma StartsInFirst(line: string, rest: string, prefix: string)
    requires OneLine(prefix) && (rest == "" || IsLineEnd(rest[0]))
    ensures StartsWith(line + rest, prefix) <==> StartsWith(line, prefix)
  {
    var s := line + rest;
    assert rest != "" ==> IsLineEnd(s[|line|]);
    assert StartsWith(s, prefix) ==> forall k :: 0 <= k < |prefix| ==> s[k] == prefix[k];
    assert |prefix| <= |line| ==> s[..|prefix|] == line[..|prefix|];
  }

  lemma BannerInFirst(line: string, end: char, tail: string)
    requires OneLine(line) && IsLineEnd(end)
    ensures NamesRemote(line) ==> HasPushBanner(line + [end] + tail)
  {
    var s := line + [end] + tail;
    assert s[0..] == s == line + ([end] + tail);
    NamedOnOneLine(line, [end] + tail);
  }

  lemma BannerInRest(line: string, end: char, tail: string)
    requires IsLineEnd(end) && HasPushBanner(tail)
    ensures HasPushBanner(line + [end] + tail)
  {
    var s := line + [end] + tail;
    var i :| 0 <= i <= |tail| && LineStart(tail, i) && NamesRemote(tail[i..]);
    assert s[|line| + 1 + i..] == tail[i..];
    assert LineStart(s, |line| + 1 + i);
  }

  /** A line that starts after the first one is a line of the rest. */
  lemma LineOfRest(line: string, end: char, tail: string, i: nat)
    requires OneLine(line) && IsLineEnd(end) && 0 < i <= |line + [end] + tail| && LineStart(line + [end] + tail, i)
    ensures i > |line| && (line + [end] + tail)[i..] == tail[i - |line| - 1..] && LineStart(tail, i - |line| - 1)
  {
    var s := line + [end] + tail;
    assert forall k :: 0 <= k < |line| ==> s[k] == line[k];
  }

  lemma BannerInEither(line: string, end: char, tail: string)
    requires OneLine(line) && IsLineEnd(end) && HasPushBanner(line + [end] + tail)
    ensures NamesRemote(line) || HasPushBanner(tail)
  {
    var s := line + [end] + tail;
    var i :| 0 <= i <= |s| && LineStart(s, i) && NamesRemote(s[i..]);
    if i == 0 {
      assert s[0..] == line + ([end] + tail);
      NamedOnOneLine(line, [end] + tail);
    } else {
      LineOfRest(line, end, tail, i);
    }
  }

  /** A banner is a line of the output that begins with "To " and the form of a remote. */
  lemma {:induction false} BannerIsALine(output: string)
    ensures HasPushBanner(output) <==> exists k :: 0 <= k < |Lines(output)| && NamesRemote(Lines(output)[k])
    decreases |output|
  {
    var end, tail := FirstLine(output);
    var lines := Lines(output);
    if |lines| == 1 {
      BannerOfOneLine(output);
    } else {
      BannerInFirst(lines[0], end, tail);
      if HasPushBanner(tail) {
        BannerInRest(lines[0], end, tail);
      }
      if HasPushBanner(output) {
        BannerInEither(lines[0], end, tail);
      }
      BannerIsALine(tail);
      assert forall k :: 0 < k < |lines| ==> lines[k] == Lines(tail)[k - 1];
      assert forall k :: 0 <= k < |Lines(tail)| ==> lines[k + 1] == Lines(tail)[k];
    }
  }

  lemma BannerOfOneLine(output: string)
    requires OneLine(output)
    ensures HasPushBanner(output) <==> NamesRemote(output)
  {
    assert output[0..] == output;
    if HasPushBanner(output) {
      var i :| 0 <= i <= |output| && LineStart(output, i) && NamesRemote(output[i..]);
      assert i == 0;
    }
  }

  /**
   * A command is taken for a push exactly if it succeeded, and either one of its segments fits the grammar, or
   * its output holds a line that names the remote it went to and an arrow between two spaces.
   */
  lemma DetectedExactly(outcome: ShellOutcome)
    ensures LooksLikeGitPush(outcome) <==>
      && outcome.exitCode == Some(0)
      && (|| (exists segment :: segment in Segments(outcome.command) && FitsPush(Words(segment)))
          || (HasRefUpdate(outcome.output)
              && exists k :: 0 <= k < |Lines(outcome.output)| && NamesRemote(Lines(outcome.output)[k])))
  {
    DetectionIsGrammar(outcome.command);
    BannerIsALine(outcome.output);
  }

  lemma BannerIsFound(before: string, form: string, rest: string)
    requires form in REMOTE_FORMS && (before == "" || IsLineEnd(before[|before| - 1]))
    ensures HasPushBanner(before + (("To " + form) + rest))
  {
    var start := "To " + form;
    var output := before + (start + rest);
    assert output[|before|..] == start + rest;
    assert (start + rest)[..|start|] == start;
    assert LineStart(output, |before|) && NamesRemote(output[|before|..]);
  }

  lemma ArrowIsFound(before: string, after: string)
    ensures HasRefUpdate(before + " -> " + after)
  {
    var output, j := before + " -> " + after, |before|;
    assert output[j] == ' ' && output[j + 1..j + 3] == "->" && output[j + 3] == ' ';
  }

  lemma Regrouped<T>(a: seq<T>, b: seq<T>, c: seq<T>, d: seq<T>, e: seq<T>)
    ensures a + (b + (c + d + e)) == (a + b + c) + d + e
  {
  }

  /** What git prints of a push is detected, whatever precedes the two lines and stands between them. */
  lemma PushIsDetected(command: string, before: string, form: string, middle: string, to: string)
    requires form in REMOTE_FORMS && (before == "" || IsLineEnd(before[|before| - 1]))
    ensures LooksLikeGitPush(ShellOutcome(command, before + (("To " + form) + (middle + " -> " + to)), Some(0)))
  {
    BannerIsFound(before, form, middle + " -> " + to);
    ArrowIsFound(before + ("To " + form) + middle, to);
    Regrouped(before, "To " + form, middle, " -> ", to);
  }
}
