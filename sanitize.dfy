/** The two title sanitisers of utils/utils.go, over Dafny characters.

    SanitizeURLTitle lower-cases a title, replaces every maximal run of
    characters outside [a-z0-9] by one '-', and trims '-' from both ends; the
    result is the slug of the document's URL. SanitizeFilename replaces spaces
    by '_' and deletes every character outside [A-Za-z0-9_-]; the result names
    files and collection directories. Lower-casing is ASCII only. */
module Sanitize {

  predicate IsLowerAlnum(c: char) { 'a' <= c <= 'z' || '0' <= c <= '9' }

  predicate IsSlugChar(c: char) { IsLowerAlnum(c) || c == '-' }

  predicate IsFilenameChar(c: char) {
    'a' <= c <= 'z' || 'A' <= c <= 'Z' || '0' <= c <= '9' || c == '_' || c == '-'
  }

  predicate AllSlugChars(s: string) { forall i :: 0 <= i < |s| ==> IsSlugChar(s[i]) }

  predicate AllFilenameChars(s: string) { forall i :: 0 <= i < |s| ==> IsFilenameChar(s[i]) }

  predicate NoDoubleHyphen(s: string) {
    forall i :: 0 < i < |s| ==> !(s[i - 1] == '-' && s[i] == '-')
  }

  /** The shape every slug has: [a-z0-9-] only, no "--", no hyphen at either end. */
  predicate IsSlug(s: string) {
    && AllSlugChars(s)
    && NoDoubleHyphen(s)
    && (s != [] ==> s[0] != '-' && s[|s| - 1] != '-')
  }

  /** The characters of s that satisfy p, in order. */
  function Filter(p: char -> bool, s: string): string {
    if s == [] then [] else (if p(s[0]) then [s[0]] else []) + Filter(p, s[1..])
  }

  // ---------------------------------------------------------------------------
  // SanitizeURLTitle: strings.ToLower, regexp `[^a-z0-9]+` -> "-", strings.Trim "-"

  function LowerChar(c: char): char {
    if 'A' <= c <= 'Z' then (c as int + 32) as char else c
  }

  function ToLower(s: string): (r: string)
    ensures |r| == |s|
  {
    seq(|s|, i requires 0 <= i < |s| => LowerChar(s[i]))
  }

  /** Drops the leading run of characters outside [a-z0-9]. */
  function SkipRun(s: string): (r: string)
    ensures |r| <= |s|
  {
    if s != [] && !IsLowerAlnum(s[0]) then SkipRun(s[1..]) else s
  }

  /** The regular-expression replacement: each maximal run of characters outside
      [a-z0-9] becomes a single '-'. */
  function CollapseRuns(s: string): string
    decreases |s|
  {
    if s == [] then []
    else if IsLowerAlnum(s[0]) then [s[0]] + CollapseRuns(s[1..])
    else "-" + CollapseRuns(SkipRun(s[1..]))
  }

  function TrimLeftHyphens(s: string): string {
    if s != [] && s[0] == '-' then TrimLeftHyphens(s[1..]) else s
  }

  function TrimRightHyphens(s: string): string {
    if s != [] && s[|s| - 1] == '-' then TrimRightHyphens(s[..|s| - 1]) else s
  }

  /** strings.Trim(s, "-"). */
  function TrimHyphens(s: string): string {
    TrimRightHyphens(TrimLeftHyphens(s))
  }

  function SanitizeURLTitle(title: string): string {
    TrimHyphens(CollapseRuns(ToLower(title)))
  }

  // ---------------------------------------------------------------------------
  // SanitizeFilename: strings.ReplaceAll " " -> "_", regexp `[^a-zA-Z0-9_-]` -> ""

  function SpacesToUnderscores(s: string): (r: string)
    ensures |r| == |s|
  {
    seq(|s|, i requires 0 <= i < |s| => if s[i] == ' ' then '_' else s[i])
  }

  function SanitizeFilename(title: string): string {
    Filter(IsFilenameChar, SpacesToUnderscores(title))
  }

  // ---------------------------------------------------------------------------
  // Lemmas about Filter

  /** Filter keeps only characters satisfying p and never lengthens. */
  lemma {:induction false} FilterShape(p: char -> bool, s: string)
    ensures |Filter(p, s)| <= |s|
    ensures forall i :: 0 <= i < |Filter(p, s)| ==> p(Filter(p, s)[i])
    decreases |s|
  {
    if s != [] {
      FilterShape(p, s[1..]);
    }
  }

  lemma {:induction false} FilterAppend(p: char -> bool, a: string, b: string)
    ensures Filter(p, a + b) == Filter(p, a) + Filter(p, b)
    decreases |a|
  {
    if a == [] {
      assert a + b == b;
    } else {
      var head := if p(a[0]) then [a[0]] else [];
      assert (a + b)[0] == a[0];
      assert (a + b)[1..] == a[1..] + b;
      assert Filter(p, a + b) == head + Filter(p, a[1..] + b);
      FilterAppend(p, a[1..], b);
      assert Filter(p, a) == head + Filter(p, a[1..]);
    }
  }

  lemma {:induction false} FilterNone(p: char -> bool, s: string)
    requires forall i :: 0 <= i < |s| ==> !p(s[i])
    ensures Filter(p, s) == []
    decreases |s|
  {
    if s != [] {
      FilterNone(p, s[1..]);
    }
  }

  lemma {:induction false} FilterAll(p: char -> bool, s: string)
    requires forall i :: 0 <= i < |s| ==> p(s[i])
    ensures Filter(p, s) == s
    decreases |s|
  {
    if s != [] {
      FilterAll(p, s[1..]);
    }
  }

  // ---------------------------------------------------------------------------
  // Lemmas about SanitizeURLTitle

  /** After a skipped run comes a letter or digit, or nothing. */
  lemma {:induction false} SkipRunStopsAtAlnum(s: string)
    ensures SkipRun(s) == [] || IsLowerAlnum(SkipRun(s)[0])
    decreases |s|
  {
    if s != [] && !IsLowerAlnum(s[0]) {
      SkipRunStopsAtAlnum(s[1..]);
    }
  }

  /** Collapsing runs leaves only [a-z0-9-] with no "--"; it empties only the
      empty string and starts with the first character or the hyphen that
      replaced it. */
  lemma {:induction false} CollapseRunsShape(s: string)
    ensures var r := CollapseRuns(s);
      && AllSlugChars(r) && NoDoubleHyphen(r)
      && |r| <= |s|
      && (r == [] <==> s == [])
      && (r != [] ==> r[0] == (if IsLowerAlnum(s[0]) then s[0] else '-'))
    decreases |s|
  {
    if s != [] {
      var t, r;
      if IsLowerAlnum(s[0]) {
        t := CollapseRuns(s[1..]);
        CollapseRunsShape(s[1..]);
        r := [s[0]] + t;
      } else {
        var u := SkipRun(s[1..]);
        SkipRunStopsAtAlnum(s[1..]);
        t := CollapseRuns(u);
        CollapseRunsShape(u);
        r := "-" + t;
      }
      assert r == CollapseRuns(s);
      forall i | 0 < i < |r| ensures !(r[i - 1] == '-' && r[i] == '-') {
        assert r[i] == t[i - 1];
        if i > 1 {
          assert r[i - 1] == t[i - 2];
        }
      }
      forall i | 0 <= i < |r| ensures IsSlugChar(r[i]) {
        if i > 0 {
          assert r[i] == t[i - 1];
        }
      }
    }
  }

  /** TrimLeftHyphens returns a suffix that does not start with '-', and drops
      only hyphens. */
  lemma {:induction false} TrimLeftHyphensShape(s: string)
    ensures var r := TrimLeftHyphens(s);
      && |r| <= |s| && r == s[|s| - |r|..]
      && (r == [] || r[0] != '-')
      && (forall i :: 0 <= i < |s| - |r| ==> s[i] == '-')
    decreases |s|
  {
    if s != [] && s[0] == '-' {
      TrimLeftHyphensShape(s[1..]);
    }
  }

  /** TrimRightHyphens returns a prefix that does not end with '-', and drops
      only hyphens. */
  lemma {:induction false} TrimRightHyphensShape(s: string)
    ensures var r := TrimRightHyphens(s);
      && |r| <= |s| && r == s[..|r|]
      && (r == [] || r[|r| - 1] != '-')
      && (forall i :: |r| <= i < |s| ==> s[i] == '-')
    decreases |s|
  {
    if s != [] && s[|s| - 1] == '-' {
      TrimRightHyphensShape(s[..|s| - 1]);
    }
  }

  /** Substrings keep the character class and the absence of "--". */
  lemma SubstringKeepsShape(s: string, a: nat, b: nat)
    requires a <= b <= |s|
    requires AllSlugChars(s) && NoDoubleHyphen(s)
    ensures AllSlugChars(s[a..b]) && NoDoubleHyphen(s[a..b])
  {
    var t := s[a..b];
    forall i | 0 < i < |t| ensures !(t[i - 1] == '-' && t[i] == '-') {
      assert t[i - 1] == s[a + i - 1] && t[i] == s[a + i];
    }
  }

  /** Every output is a slug: only [a-z0-9-], never "--", never a hyphen at
      either end; and it is never longer than the title. */
  lemma SanitizeURLTitleIsSlug(title: string)
    ensures IsSlug(SanitizeURLTitle(title))
    ensures |SanitizeURLTitle(title)| <= |title|
  {
    var c := CollapseRuns(ToLower(title));
    var l := TrimLeftHyphens(c);
    var r := TrimRightHyphens(l);
    CollapseRunsShape(ToLower(title));
    TrimLeftHyphensShape(c);
    TrimRightHyphensShape(l);
    SubstringKeepsShape(c, |c| - |l|, |c|);
    SubstringKeepsShape(l, 0, |r|);
  }

  /** A slug is left unchanged by every stage of the pipeline. */
  lemma {:induction false} CollapseRunsOfSlugChars(s: string)
    requires AllSlugChars(s) && NoDoubleHyphen(s)
    ensures CollapseRuns(s) == s
    decreases |s|
  {
    if s != [] {
      SubstringKeepsShape(s, 1, |s|);
      CollapseRunsOfSlugChars(s[1..]);
      if !IsLowerAlnum(s[0]) {
        assert s[1..] == [] || IsLowerAlnum(s[1]);
        assert SkipRun(s[1..]) == s[1..];
      }
    }
  }

  lemma SlugIsFixedPoint(s: string)
    requires IsSlug(s)
    ensures SanitizeURLTitle(s) == s
  {
    assert ToLower(s) == s;
    CollapseRunsOfSlugChars(s);
  }

  /** The slugs are exactly the fixed points of SanitizeURLTitle. */
  lemma SanitizeURLTitleFixedPoints(s: string)
    ensures SanitizeURLTitle(s) == s <==> IsSlug(s)
  {
    if IsSlug(s) {
      SlugIsFixedPoint(s);
    } else {
      SanitizeURLTitleIsSlug(s);
    }
  }

  lemma SanitizeURLTitleIdempotent(title: string)
    ensures SanitizeURLTitle(SanitizeURLTitle(title)) == SanitizeURLTitle(title)
  {
    SanitizeURLTitleIsSlug(title);
    SlugIsFixedPoint(SanitizeURLTitle(title));
  }

  lemma {:induction false} SkipRunKeepsAlnum(s: string)
    ensures Filter(IsLowerAlnum, SkipRun(s)) == Filter(IsLowerAlnum, s)
    decreases |s|
  {
    if s != [] && !IsLowerAlnum(s[0]) {
      SkipRunKeepsAlnum(s[1..]);
    }
  }

  lemma {:induction false} CollapseRunsKeepsAlnum(s: string)
    ensures Filter(IsLowerAlnum, CollapseRuns(s)) == Filter(IsLowerAlnum, s)
    decreases |s|
  {
    if s != [] {
      if IsLowerAlnum(s[0]) {
        CollapseRunsKeepsAlnum(s[1..]);
      } else {
        SkipRunKeepsAlnum(s[1..]);
        CollapseRunsKeepsAlnum(SkipRun(s[1..]));
      }
    }
  }

  lemma {:induction false} TrimLeftHyphensKeepsAlnum(s: string)
    ensures Filter(IsLowerAlnum, TrimLeftHyphens(s)) == Filter(IsLowerAlnum, s)
    decreases |s|
  {
    if s != [] && s[0] == '-' {
      TrimLeftHyphensKeepsAlnum(s[1..]);
    }
  }

  lemma {:induction false} TrimRightHyphensKeepsAlnum(s: string)
    ensures Filter(IsLowerAlnum, TrimRightHyphens(s)) == Filter(IsLowerAlnum, s)
    decreases |s|
  {
    if s != [] && s[|s| - 1] == '-' {
      var init := s[..|s| - 1];
      TrimRightHyphensKeepsAlnum(init);
      assert s == init + [s[|s| - 1]];
      FilterAppend(IsLowerAlnum, init, [s[|s| - 1]]);
    }
  }

  /** No letter or digit is lost, added or reordered: the alphanumeric
      characters of the slug are those of the lower-cased title, in order. */
  lemma SanitizeURLTitleKeepsAlnum(title: string)
    ensures Filter(IsLowerAlnum, SanitizeURLTitle(title)) == Filter(IsLowerAlnum, ToLower(title))
  {
    var c := CollapseRuns(ToLower(title));
    CollapseRunsKeepsAlnum(ToLower(title));
    TrimLeftHyphensKeepsAlnum(c);
    TrimRightHyphensKeepsAlnum(TrimLeftHyphens(c));
  }

  lemma SanitizeURLTitleEmpty()
    ensures SanitizeURLTitle("") == ""
  {
  }

  // ---------------------------------------------------------------------------
  // Lemmas about SanitizeFilename

  /** Only [A-Za-z0-9_-] survives, and the name is never longer than the title. */
  lemma SanitizeFilenameShape(title: string)
    ensures AllFilenameChars(SanitizeFilename(title))
    ensures |SanitizeFilename(title)| <= |title|
  {
    FilterShape(IsFilenameChar, SpacesToUnderscores(title));
  }

  /** SanitizeFilename works character by character: it distributes over
      concatenation, and a single character becomes "_" (a space), itself (an
      allowed character) or nothing. The two facts determine the function. */
  lemma SanitizeFilenameAppend(a: string, b: string)
    ensures SanitizeFilename(a + b) == SanitizeFilename(a) + SanitizeFilename(b)
  {
    assert SpacesToUnderscores(a + b) == SpacesToUnderscores(a) + SpacesToUnderscores(b);
    FilterAppend(IsFilenameChar, SpacesToUnderscores(a), SpacesToUnderscores(b));
  }

  lemma SanitizeFilenameChar(c: char)
    ensures SanitizeFilename([c]) ==
      if c == ' ' then "_" else if IsFilenameChar(c) then [c] else ""
  {
    var u := SpacesToUnderscores([c]);
    assert u == [if c == ' ' then '_' else c];
    assert u[1..] == [];
    assert Filter(IsFilenameChar, u) == (if IsFilenameChar(u[0]) then [u[0]] else []) + Filter(IsFilenameChar, []);
  }

  /** The names made only of allowed characters are exactly the fixed points. */
  lemma SanitizeFilenameFixedPoints(s: string)
    ensures SanitizeFilename(s) == s <==> AllFilenameChars(s)
  {
    if AllFilenameChars(s) {
      assert SpacesToUnderscores(s) == s;
      FilterAll(IsFilenameChar, s);
    } else {
      SanitizeFilenameShape(s);
    }
  }

  lemma SanitizeFilenameIdempotent(title: string)
    ensures SanitizeFilename(SanitizeFilename(title)) == SanitizeFilename(title)
  {
    SanitizeFilenameShape(title);
    SanitizeFilenameFixedPoints(SanitizeFilename(title));
  }

  /** "My Doc!" is saved as My_Doc.md: the space becomes '_', the '!' goes. */
  lemma SanitizeFilenameExample()
    ensures SanitizeFilename("My Doc!") == "My_Doc"
  {
    assert SpacesToUnderscores("My Doc!") == "My_Doc" + "!";
    FilterAppend(IsFilenameChar, "My_Doc", "!");
    FilterAll(IsFilenameChar, "My_Doc");
    FilterNone(IsFilenameChar, "!");
  }

  /** A collection named "HR Team" gets the directory HR_Team. */
  lemma SanitizeFilenameCollectionExample()
    ensures SanitizeFilename("HR Team") == "HR_Team"
  {
    assert SpacesToUnderscores("HR Team") == "HR_Team";
    FilterAll(IsFilenameChar, "HR_Team");
  }

  lemma CollapseRunsCons(c: char, s: string)
    ensures CollapseRuns([c] + s) ==
      if IsLowerAlnum(c) then [c] + CollapseRuns(s) else "-" + CollapseRuns(SkipRun(s))
  {
    assert ([c] + s)[1..] == s;
  }

  lemma CollapseRunsExample()
    ensures CollapseRuns("my doc!") == "my-doc-"
  {
    CollapseRunsSpaceDoc();
    CollapseRunsCons('y', " doc!");
    assert "y doc!" == ['y'] + " doc!";
    assert CollapseRuns("y doc!") == "y-doc-";
    CollapseRunsCons('m', "y doc!");
    assert "my doc!" == ['m'] + "y doc!";
  }

  lemma CollapseRunsSpaceDoc()
    ensures CollapseRuns(" doc!") == "-doc-"
  {
    CollapseRunsDoc();
    CollapseRunsCons(' ', "doc!");
    assert " doc!" == [' '] + "doc!";
    assert SkipRun("doc!") == "doc!";
  }

  lemma CollapseRunsDoc()
    ensures CollapseRuns("doc!") == "doc-"
  {
    CollapseRunsCons('!', "");
    assert "!" == ['!'] + "";
    CollapseRunsCons('c', "!");
    assert "c!" == ['c'] + "!";
    CollapseRunsCons('o', "c!");
    assert "oc!" == ['o'] + "c!";
    CollapseRunsCons('d', "oc!");
    assert "doc!" == ['d'] + "oc!";
  }

  lemma SanitizeURLTitleExample()
    ensures SanitizeURLTitle("My Doc!") == "my-doc"
  {
    assert ToLower("My Doc!") == "my doc!";
    CollapseRunsExample();
    TrimHyphensExample();
  }

  lemma TrimHyphensExample()
    ensures TrimHyphens("my-doc-") == "my-doc"
  {
    assert TrimLeftHyphens("my-doc-") == "my-doc-";
    assert "my-doc-"[..6] == "my-doc";
    assert TrimRightHyphens("my-doc-") == "my-doc";
  }
}
