/**
 Workspace slugs: the normaliser, written as the source's five replacements, and the
 search for a slug no other workspace has.
 */
module Slug {
  import opened Wrappers

  // What the language says about characters: how each is lower-cased, and which are
  // white space.
  datatype Chars = Chars(lower: char -> string, space: char -> bool)

  predicate Alnum(c: char) {
    'a' <= c <= 'z' || '0' <= c <= '9'
  }

  predicate SlugChar(c: char) {
    Alnum(c) || c == '-'
  }

  ghost predicate Proper(u: Chars) {
    forall c: char :: (SlugChar(c) ==> u.lower(c) == [c] && !u.space(c)) && (u.space(c) ==> u.lower(c) == [c])
  }

  // ---- The normaliser -------------------------------------------------------------------

  // How many characters at the front satisfy p.
  function RunLength(s: string, p: char -> bool): (k: nat)
    ensures k <= |s| && (forall i :: 0 <= i < k ==> p(s[i])) && (k < |s| ==> !p(s[k]))
  {
    if s == "" || !p(s[0]) then 0 else 1 + RunLength(s[1..], p)
  }

  // Every maximal run of at least `least` characters satisfying p becomes one dash.
  function Replace(s: string, p: char -> bool, least: nat): string
    decreases |s|
  {
    if s == "" then ""
    else
      var k := RunLength(s, p);
      if k == 0 then [s[0]] + Replace(s[1..], p, least)
      else (if k >= least then "-" else s[..k]) + Replace(s[k..], p, least)
  }

  function Lower(u: Chars, s: string): string {
    if s == "" then "" else u.lower(s[0]) + Lower(u, s[1..])
  }

  function TrimStart(u: Chars, s: string): string {
    s[RunLength(s, u.space)..]
  }

  function TrimEnd(u: Chars, s: string): string {
    if s != "" && u.space(s[|s| - 1]) then TrimEnd(u, s[..|s| - 1]) else s
  }

  function Trim(u: Chars, s: string): string {
    TrimEnd(u, TrimStart(u, s))
  }

  // One dash at either end is dropped.
  function StripEnds(s: string): string {
    var t := if s != "" && s[0] == '-' then s[1..] else s;
    if t != "" && t[|t| - 1] == '-' then t[..|t| - 1] else t
  }

  predicate Unsafe(c: char) {
    !SlugChar(c)
  }

  predicate Dash(c: char) {
    c == '-'
  }

  function Gap(u: Chars): char -> bool {
    c => u.space(c) || c == '_'
  }

  function Sanitize(u: Chars, s: string): string {
    StripEnds(Replace(Replace(Replace(Lower(u, Trim(u, s)), Gap(u), 1), Unsafe, 1), Dash, 2))
  }

  // ---- What it means: the words of the text, joined by dashes --------------------------------

  // The maximal runs of letters and digits.
  function Words(s: string): (words: seq<string>)
    ensures s != "" && Alnum(s[0]) ==> words != []
  {
    if s == "" then []
    else if !Alnum(s[0]) then Words(s[1..])
    else if |s| == 1 || !Alnum(s[1]) then [[s[0]]] + Words(s[1..])
    else
      var words := Words(s[1..]);
      [[s[0]] + words[0]] + words[1..]
  }

  function Dashed(words: seq<string>): string {
    if words == [] then ""
    else if |words| == 1 then words[0]
    else words[0] + "-" + Dashed(words[1..])
  }

  predicate Breaks(s: string) {
    forall i :: 0 <= i < |s| ==> !Alnum(s[i])
  }

  lemma {:induction false} WordsSkip(a: string, b: string)
    requires Breaks(a)
    ensures Words(a + b) == Words(b)
  {
    if a == "" {
      assert a + b == b;
    } else {
      assert (a + b)[0] == a[0] && (a + b)[1..] == a[1..] + b;
      WordsSkip(a[1..], b);
    }
  }

  lemma {:induction false} WordsDropEnd(a: string, b: string)
    requires Breaks(b)
    ensures Words(a + b) == Words(a)
  {
    if a == "" {
      WordsSkip(b, "");
      assert a + b == b + "";
    } else {
      assert (a + b)[0] == a[0] && (a + b)[1..] == a[1..] + b;
      WordsDropEnd(a[1..], b);
      assert |a| > 1 ==> (a + b)[1] == a[1];
      assert |a| == 1 && b != "" ==> (a + b)[1] == b[0];
    }
  }

  ghost predicate Separates(p: char -> bool) {
    forall c: char :: p(c) ==> !Alnum(c)
  }

  // Alike in words, and in how they begin.
  predicate SameWords(a: string, b: string) {
    Words(a) == Words(b) && (a == "" <==> b == "") && (a != "" && b != "" ==> (Alnum(a[0]) <==> Alnum(b[0])))
  }

  lemma {:induction false} SameAfterBreaks(head: string, a: string, head': string, b: string)
    requires Breaks(head) && Breaks(head') && head != "" && head' != "" && Words(a) == Words(b)
    ensures SameWords(head + a, head' + b)
  {
    WordsSkip(head, a);
    WordsSkip(head', b);
  }

  lemma RunKeepsWords(s: string, k: nat, head: string, r: string)
    requires 0 < k <= |s| && Breaks(s[..k]) && Breaks(head) && head != "" && Words(r) == Words(s[k..])
    ensures SameWords(head + r, s)
  {
    SameAfterBreaks(head, r, s[..k], s[k..]);
    assert s[..k] + s[k..] == s;
  }

  // Replacing separators by dashes keeps the words.
  lemma {:induction false} ReplaceKeepsWords(s: string, p: char -> bool, least: nat)
    requires Separates(p)
    ensures SameWords(Replace(s, p, least), s)
    decreases |s|
  {
    if s != "" {
      var k := RunLength(s, p);
      if k == 0 {
        ReplaceKeepsWords(s[1..], p, least);
        WordsExtend(s[0], Replace(s[1..], p, least), s[1..]);
        assert [s[0]] + s[1..] == s;
      } else {
        ReplaceKeepsWords(s[k..], p, least);
        RunKeepsWords(s, k, if k >= least then "-" else s[..k], Replace(s[k..], p, least));
      }
    }
  }

  lemma WordsExtend(c: char, a: string, b: string)
    requires SameWords(a, b)
    ensures SameWords([c] + a, [c] + b)
  {
    assert ([c] + a)[1..] == a && ([c] + b)[1..] == b;
  }

  lemma {:induction false} LowerSplits(u: Chars, a: string, b: string)
    ensures Lower(u, a + b) == Lower(u, a) + Lower(u, b)
  {
    if a == "" {
      assert a + b == b;
    } else {
      assert (a + b)[0] == a[0] && (a + b)[1..] == a[1..] + b;
      LowerSplits(u, a[1..], b);
    }
  }

  lemma {:induction false} LowerKeeps(u: Chars, s: string)
    requires Proper(u) && forall i :: 0 <= i < |s| ==> SlugChar(s[i]) || u.space(s[i])
    ensures Lower(u, s) == s
  {
    if s != "" {
      LowerKeeps(u, s[1..]);
      assert [s[0]] + s[1..] == s;
    }
  }

  predicate Spaces(u: Chars, s: string) {
    forall i :: 0 <= i < |s| ==> u.space(s[i])
  }

  lemma {:induction false} TrimEndSplits(u: Chars, s: string) returns (end: string)
    ensures s == TrimEnd(u, s) + end && Spaces(u, end)
  {
    if s != "" && u.space(s[|s| - 1]) {
      end := TrimEndSplits(u, s[..|s| - 1]);
      end := end + [s[|s| - 1]];
    } else {
      end := "";
    }
  }

  lemma SpacesBreak(u: Chars, s: string)
    requires Proper(u) && Spaces(u, s)
    ensures Breaks(Lower(u, s))
  {
    LowerKeeps(u, s);
  }

  lemma LeadingSpaces(u: Chars, start: string, rest: string)
    requires Proper(u) && Spaces(u, start)
    ensures Words(Lower(u, start + rest)) == Words(Lower(u, rest))
  {
    LowerSplits(u, start, rest);
    SpacesBreak(u, start);
    WordsSkip(Lower(u, start), Lower(u, rest));
  }

  lemma TrailingSpaces(u: Chars, text: string, end: string)
    requires Proper(u) && Spaces(u, end)
    ensures Words(Lower(u, text + end)) == Words(Lower(u, text))
  {
    LowerSplits(u, text, end);
    SpacesBreak(u, end);
    WordsDropEnd(Lower(u, text), Lower(u, end));
  }

  lemma {:induction false} TrimKeepsWords(u: Chars, s: string)
    requires Proper(u)
    ensures Words(Lower(u, Trim(u, s))) == Words(Lower(u, s))
  {
    var start, rest := s[..RunLength(s, u.space)], TrimStart(u, s);
    var end := TrimEndSplits(u, rest);
    assert s == start + rest;
    LeadingSpaces(u, start, rest);
    TrailingSpaces(u, Trim(u, s), end);
  }

  // ---- The shape of a slug --------------------------------------------------------------------

  predicate SlugText(s: string) {
    forall i :: 0 <= i < |s| ==> SlugChar(s[i])
  }

  predicate SingleDashes(s: string) {
    forall i :: 0 < i < |s| ==> s[i - 1] != '-' || s[i] != '-'
  }

  // Letters and digits in runs joined by single dashes.
  predicate Shaped(s: string) {
    SlugText(s) && SingleDashes(s) && (s != "" ==> s[0] != '-' && s[|s| - 1] != '-')
  }

  lemma {:induction false} ReplaceIsSlugText(s: string, p: char -> bool, least: nat)
    requires forall i :: 0 <= i < |s| ==> SlugChar(s[i]) || (p(s[i]) && least <= 1)
    ensures SlugText(Replace(s, p, least))
    decreases |s|
  {
    if s != "" {
      var k := RunLength(s, p);
      ReplaceIsSlugText(s[if k == 0 then 1 else k..], p, least);
    }
  }

  lemma {:induction false} CollapseLeavesSingleDashes(s: string)
    ensures var r := Replace(s, Dash, 2);
      SingleDashes(r) && (r != "" ==> s != "" && (r[0] == '-' <==> s[0] == '-'))
    decreases |s|
  {
    if s != "" {
      var k := RunLength(s, Dash);
      CollapseLeavesSingleDashes(s[if k == 0 then 1 else k..]);
    }
  }

  lemma {:induction false} ShapedIsItsWords(s: string)
    requires Shaped(s)
    ensures Dashed(Words(s)) == s
    decreases |s|
  {
    if |s| > 1 {
      if s[1] == '-' {
        assert Alnum(s[0]) && |s| > 2 && s[2] != '-';
        ShapedIsItsWords(s[2..]);
        assert s == [s[0]] + ("-" + s[2..]);
        DashedNewWord(s[0], s[2..]);
      } else {
        ShapedIsItsWords(s[1..]);
        assert s == [s[0]] + s[1..];
        DashedLongerWord(s[0], s[1..]);
      }
    }
  }

  lemma NewWord(c: char, rest: string)
    requires Alnum(c)
    ensures Words([c] + ("-" + rest)) == [[c]] + Words(rest)
  {
    var s := [c] + ("-" + rest);
    assert s[0] == c && s[1] == '-' && s[1..] == "-" + rest;
    WordsSkip("-", rest);
  }

  lemma DashedNewWord(c: char, rest: string)
    requires Alnum(c) && rest != "" && Alnum(rest[0])
    ensures Dashed(Words([c] + ("-" + rest))) == [c] + ("-" + Dashed(Words(rest)))
  {
    NewWord(c, rest);
    DashedFirst([c], Words(rest));
  }

  lemma DashedFirst(word: string, words: seq<string>)
    requires words != []
    ensures Dashed([word] + words) == word + ("-" + Dashed(words))
  {
    assert ([word] + words)[1..] == words;
  }

  lemma LongerWord(c: char, rest: string)
    requires Alnum(c) && rest != "" && Alnum(rest[0])
    ensures Words([c] + rest) == [[c] + Words(rest)[0]] + Words(rest)[1..]
  {
    var s := [c] + rest;
    assert s[0] == c && s[1] == rest[0] && s[1..] == rest;
  }

  lemma DashedLonger(c: char, words: seq<string>)
    requires words != []
    ensures Dashed([[c] + words[0]] + words[1..]) == [c] + Dashed(words)
  {
    var longer := [[c] + words[0]] + words[1..];
    assert longer[0] == [c] + words[0] && longer[1..] == words[1..];
    if |words| > 1 {
      assert [c] + (words[0] + "-" + Dashed(words[1..])) == [c] + words[0] + "-" + Dashed(words[1..]);
    }
  }

  lemma DashedLongerWord(c: char, rest: string)
    requires Alnum(c) && rest != "" && Alnum(rest[0])
    ensures Dashed(Words([c] + rest)) == [c] + Dashed(Words(rest))
  {
    LongerWord(c, rest);
    DashedLonger(c, Words(rest));
  }

  lemma StripKeepsWords(s: string)
    ensures Words(StripEnds(s)) == Words(s)
  {
    var t := if s != "" && s[0] == '-' then s[1..] else s;
    if t != "" && t[|t| - 1] == '-' {
      WordsDropEnd(t[..|t| - 1], "-");
      assert t == t[..|t| - 1] + "-";
    }
  }

  lemma {:induction false} SanitizeKeepsWords(u: Chars, s: string)
    requires Proper(u)
    ensures Words(Sanitize(u, s)) == Words(Lower(u, s))
  {
    var lowered := Lower(u, Trim(u, s));
    var spaced := Replace(lowered, Gap(u), 1);
    var safe := Replace(spaced, Unsafe, 1);
    TrimKeepsWords(u, s);
    ReplaceKeepsWords(lowered, Gap(u), 1);
    ReplaceKeepsWords(spaced, Unsafe, 1);
    ReplaceKeepsWords(safe, Dash, 2);
    StripKeepsWords(Replace(safe, Dash, 2));
  }

  lemma StripShapes(s: string)
    requires SlugText(s) && SingleDashes(s)
    ensures Shaped(StripEnds(s))
  {
  }

  lemma {:induction false} LastStepsShape(spaced: string)
    ensures Shaped(StripEnds(Replace(Replace(spaced, Unsafe, 1), Dash, 2)))
  {
    var safe := Replace(spaced, Unsafe, 1);
    ReplaceIsSlugText(spaced, Unsafe, 1);
    ReplaceIsSlugText(safe, Dash, 2);
    CollapseLeavesSingleDashes(safe);
    StripShapes(Replace(safe, Dash, 2));
  }

  // The five replacements amount to this: the runs of letters and digits of the
  // lower-cased text, joined by dashes.
  lemma {:induction false} SanitizeJoinsWords(u: Chars, s: string)
    requires Proper(u)
    ensures Sanitize(u, s) == Dashed(Words(Lower(u, s))) && Shaped(Sanitize(u, s))
  {
    SanitizeKeepsWords(u, s);
    LastStepsShape(Replace(Lower(u, Trim(u, s)), Gap(u), 1));
    ShapedIsItsWords(Sanitize(u, s));
  }

  lemma {:induction false} SanitizeKeepsSlugs(u: Chars, s: string)
    requires Proper(u) && Shaped(s)
    ensures Sanitize(u, s) == s
  {
    SanitizeJoinsWords(u, s);
    LowerKeeps(u, s);
    ShapedIsItsWords(s);
  }

  lemma {:induction false} SanitizeIsIdempotent(u: Chars, s: string)
    requires Proper(u)
    ensures Sanitize(u, Sanitize(u, s)) == Sanitize(u, s)
  {
    SanitizeJoinsWords(u, s);
    SanitizeKeepsSlugs(u, Sanitize(u, s));
  }

  // ---- Candidates ------------------------------------------------------------------------------

  function Decimal(n: nat): (digits: string)
    ensures digits != "" && forall i :: 0 <= i < |digits| ==> '0' <= digits[i] <= '9'
  {
    var last := [('0' as int + n % 10) as char];
    if n < 10 then last else Decimal(n / 10) + last
  }

  lemma {:induction false} DecimalIsInjective(n: nat, m: nat)
    requires Decimal(n) == Decimal(m)
    ensures n == m
    decreases n + m
  {
    assert Decimal(n)[|Decimal(n)| - 1] == ('0' as int + n % 10) as char;
    assert Decimal(m)[|Decimal(m)| - 1] == ('0' as int + m % 10) as char;
    assert n % 10 == m % 10;
    if n >= 10 && m >= 10 {
      assert Decimal(n / 10) == Decimal(n)[..|Decimal(n)| - 1] == Decimal(m / 10);
      DecimalIsInjective(n / 10, m / 10);
    }
  }

  function Suffixed(u: Chars, base: string, n: nat): string {
    var s := Sanitize(u, base + "-" + Decimal(n));
    if s != "" then s else "workspace-" + Decimal(n)
  }

  // The slug tried at an attempt, the base itself first.
  function Tried(u: Chars, base: string, attempt: nat): string {
    if attempt == 0 then base else Suffixed(u, base, attempt)
  }

  lemma SuffixIsKept(u: Chars, base: string, n: nat)
    requires Proper(u) && Shaped(base) && base != ""
    ensures Suffixed(u, base, n) == base + "-" + Decimal(n)
  {
    var s := base + "-" + Decimal(n);
    assert Shaped(s) by {
      assert forall i :: 0 <= i < |Decimal(n)| ==> Alnum(Decimal(n)[i]) && Decimal(n)[i] != '-';
    }
    SanitizeKeepsSlugs(u, s);
  }

  lemma TriedAreDistinct(u: Chars, base: string, i: nat, j: nat)
    requires Proper(u) && Shaped(base) && base != "" && Tried(u, base, i) == Tried(u, base, j)
    ensures i == j
  {
    SuffixIsKept(u, base, i);
    SuffixIsKept(u, base, j);
    var head := base + "-";
    assert Decimal(i) == (head + Decimal(i))[|head|..] && Decimal(j) == (head + Decimal(j))[|head|..];
    if i != 0 && j != 0 {
      DecimalIsInjective(i, j);
    }
  }

  // ---- The search -------------------------------------------------------------------------------

  const ATTEMPTS := 20

  function Tries(u: Chars, base: string): nat -> string {
    (attempt: nat) => Tried(u, base, attempt)
  }

  ghost predicate AllTaken(tries: nat -> string, taken: set<string>, n: nat) {
    forall i: nat :: i <= n ==> tries(i) in taken
  }

  // The first free slug of those tried, or the fallback when all are taken.
  ghost predicate Found(tries: nat -> string, taken: set<string>, fallback: string, slug: string) {
    if AllTaken(tries, taken, ATTEMPTS) then slug == fallback
    else exists k: nat :: k <= ATTEMPTS && slug == tries(k) && slug !in taken
                  && forall i: nat :: i < k ==> tries(i) in taken
  }

  method Search(tries: nat -> string, taken: set<string>, fallback: string) returns (slug: string)
    ensures Found(tries, taken, fallback, slug)
  {
    if tries(0) !in taken { return tries(0); }
    for attempt: nat := 1 to ATTEMPTS + 1
      invariant AllTaken(tries, taken, attempt - 1)
    {
      if tries(attempt) !in taken { return tries(attempt); }
    }
    slug := fallback;
  }

  lemma {:induction false} Pigeonhole(names: seq<string>, taken: set<string>)
    requires forall i :: 0 <= i < |names| ==> names[i] in taken
    requires forall i, j :: 0 <= i < j < |names| ==> names[i] != names[j]
    ensures |names| <= |taken|
  {
    if names != [] {
      var last := names[|names| - 1];
      Pigeonhole(names[..|names| - 1], taken - {last});
    }
  }

  lemma AllTakenNeedsAsMany(u: Chars, base: string, taken: set<string>, n: nat)
    requires Proper(u) && Shaped(base) && base != "" && AllTaken(Tries(u, base), taken, n)
    ensures |taken| > n
  {
    var tries := Tries(u, base);
    var names := seq(n + 1, i requires 0 <= i <= n => tries(i));
    forall i, j | 0 <= i < j < |names| ensures names[i] != names[j] {
      if names[i] == names[j] {
        TriedAreDistinct(u, base, i, j);
      }
    }
    Pigeonhole(names, taken);
  }

  // The tries never repeat, so the time is fallen back on only when 21 slugs are
  // taken, and the answer is free unless the one with the time is taken as well.
  lemma SearchFindsFreeIff(u: Chars, base: string, taken: set<string>, fallback: string, slug: string)
    requires Proper(u) && Shaped(base) && base != "" && Found(Tries(u, base), taken, fallback, slug)
    ensures |taken| <= ATTEMPTS ==> slug !in taken
    ensures slug !in taken <==> !AllTaken(Tries(u, base), taken, ATTEMPTS) || fallback !in taken
  {
    if AllTaken(Tries(u, base), taken, ATTEMPTS) {
      AllTakenNeedsAsMany(u, base, taken, ATTEMPTS);
    }
  }

  lemma {:induction false} SubsetSize(a: set<string>, b: set<string>)
    requires a <= b
    ensures |a| <= |b|
  {
    if a != {} {
      var s :| s in a;
      SubsetSize(a - {s}, b - {s});
    }
  }

  // ---- The two callers ---------------------------------------------------------------------------

  function BeforeAt(email: string): string {
    if email == "" || email[0] == '@' then "" else [email[0]] + BeforeAt(email[1..])
  }

  // The trimmed name, or the part of the e-mail before its "@".
  function SeedText(u: Chars, name: Option<string>, email: string): string {
    var trimmed := if name.Some? then Trim(u, name.value) else "";
    if trimmed != "" then trimmed else if BeforeAt(email) != "" then BeforeAt(email) else "workspace"
  }

  function OrWorkspace(s: string): (slug: string)
    ensures slug != ""
    ensures Shaped(s) ==> Shaped(slug)
  {
    if s != "" then s else "workspace"
  }

  function Seed(u: Chars, name: Option<string>, email: string): string {
    OrWorkspace(Sanitize(u, SeedText(u, name, email)))
  }

  lemma SeedIsSlug(u: Chars, name: Option<string>, email: string)
    requires Proper(u)
    ensures Seed(u, name, email) != "" && Shaped(Seed(u, name, email))
  {
    var text := SeedText(u, name, email);
    SanitizeJoinsWords(u, text);
    assert Shaped(OrWorkspace(Sanitize(u, text)));
  }

  // A slug from the words of a text, or a fixed one if it has none.
  function WordsOr(u: Chars, text: string): string {
    var words := Words(Lower(u, text));
    if words == [] then "workspace" else Dashed(words)
  }

  lemma {:induction false} AllSpaces(u: Chars, s: string)
    ensures Trim(u, s) == "" <==> Spaces(u, s)
  {
    var rest := TrimStart(u, s);
    var end := TrimEndSplits(u, rest);
    assert s == s[..RunLength(s, u.space)] + rest;
    if rest != "" {
      assert rest[0] == s[RunLength(s, u.space)];
      assert TrimEnd(u, rest) == "" ==> rest == end;
    }
  }

  // A name with more than white space gives the seed, whatever the e-mail is.
  lemma {:induction false} NameGivesSeed(u: Chars, name: string, email: string)
    requires Proper(u) && !Spaces(u, name)
    ensures Seed(u, Some(name), email) == WordsOr(u, name)
  {
    AllSpaces(u, name);
    SanitizeJoinsWords(u, Trim(u, name));
    TrimKeepsWords(u, name);
    WordsAreNotEmpty(Lower(u, name));
  }

  lemma {:induction false} LocalPart(local: string, domain: string)
    requires '@' !in local
    ensures BeforeAt(local + "@" + domain) == local && BeforeAt(local) == local
  {
    if local == "" {
      assert ("" + "@" + domain)[0] == '@';
    } else {
      LocalPart(local[1..], domain);
      assert local + "@" + domain == [local[0]] + (local[1..] + "@" + domain);
      assert [local[0]] + local[1..] == local;
    }
  }

  // Without one, what stands before the "@" of the e-mail does.
  lemma {:induction false} EmailGivesSeed(u: Chars, name: Option<string>, local: string, domain: string)
    requires Proper(u) && '@' !in local && local != "" && (name.Some? ==> Spaces(u, name.value))
    ensures Seed(u, name, local + "@" + domain) == WordsOr(u, local)
  {
    if name.Some? {
      AllSpaces(u, name.value);
    }
    LocalPart(local, domain);
    SanitizeJoinsWords(u, local);
    WordsAreNotEmpty(Lower(u, local));
  }

  // The slugs of the other workspaces.
  function Others(rows: map<nat, string>, excluded: Option<nat>): set<string> {
    set id | id in rows && excluded != Some(id) :: rows[id]
  }

  // Signing up: any existing workspace's slug is taken.
  method ResolveUnique(u: Chars, name: Option<string>, email: string, rows: map<nat, string>, now: nat)
    returns (slug: string)
    requires Proper(u)
    ensures var base := Seed(u, name, email);
      Found(Tries(u, base), Others(rows, None), Suffixed(u, base, now), slug)
    ensures |rows| <= ATTEMPTS ==> slug !in Others(rows, None)
  {
    var base, taken := Seed(u, name, email), Others(rows, None);
    slug := Search(Tries(u, base), taken, Suffixed(u, base, now));
    SeedIsSlug(u, name, email);
    SearchFindsFreeIff(u, base, taken, Suffixed(u, base, now), slug);
    OthersSize(rows, None);
  }

  // Naming or renaming: a text with no letter or digit is refused, and a workspace
  // may keep its own slug.
  method Ensure(u: Chars, input: string, rows: map<nat, string>, excluded: Option<nat>, now: nat)
    returns (slug: Option<string>)
    requires Proper(u)
    ensures slug.None? <==> Words(Lower(u, input)) == []
    ensures var base := Sanitize(u, input);
      slug.Some? ==> Found(Tries(u, base), Others(rows, excluded), Suffixed(u, base, now), slug.value)
  {
    var base := Sanitize(u, input);
    SanitizeJoinsWords(u, input);
    WordsAreNotEmpty(Lower(u, input));
    if base == "" { return None; }
    var found := Search(Tries(u, base), Others(rows, excluded), Suffixed(u, base, now));
    slug := Some(found);
  }

  lemma {:induction false} WordsAreNotEmpty(s: string)
    ensures Dashed(Words(s)) == "" <==> Words(s) == []
    ensures Words(s) != [] ==> Words(s)[0] != ""
  {
    if s != "" {
      WordsAreNotEmpty(s[1..]);
    }
  }

  lemma KeepsOwnSlug(u: Chars, rows: map<nat, string>, id: nat, fallback: string, slug: string)
    requires Proper(u) && id in rows && Shaped(rows[id]) && rows[id] != ""
    requires forall i, j :: i in rows && j in rows && rows[i] == rows[j] ==> i == j
    requires Found(Tries(u, Sanitize(u, rows[id])), Others(rows, Some(id)), fallback, slug)
    ensures slug == rows[id]
  {
    SanitizeKeepsSlugs(u, rows[id]);
    assert Tries(u, rows[id])(0) == rows[id] && rows[id] !in Others(rows, Some(id));
  }

  lemma {:induction false} OthersSize(rows: map<nat, string>, excluded: Option<nat>)
    ensures |Others(rows, excluded)| <= |rows|
    decreases |rows|
  {
    if rows != map[] {
      var id :| id in rows;
      OthersSize(rows - {id}, excluded);
      var rest := Others(rows - {id}, excluded);
      assert Others(rows, excluded) <= rest + {rows[id]};
      SubsetSize(Others(rows, excluded), rest + {rows[id]});
    }
  }
}
