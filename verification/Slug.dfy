/** slugify and normalizeLocationName: chains of string passes, and the one-pass reading of
    a name that they are proved equal to. */
module Slug {
  import opened Text

  predicate IsAlnum(c: char) {
    'a' <= c <= 'z' || '0' <= c <= '9'
  }

  predicate IsSlugChar(c: char) {
    IsAlnum(c) || c == '-'
  }

  predicate IsHyphen(c: char) {
    c == '-'
  }

  /** Takes one hyphen off each end. */
  function StripEdges(s: string): string {
    var t := if s != "" && s[0] == '-' then s[1..] else s;
    if t != "" && t[|t| - 1] == '-' then t[..|t| - 1] else t
  }

  function Slugify(name: string): string {
    var lowered := Trim(Lower(name));
    var hyphened := CollapseSpaces(lowered, '-');
    var kept := Filter(IsSlugChar, hyphened);
    StripEdges(Collapse(kept, IsHyphen, '-', false))
  }

  function Capitalize(word: string): string {
    if word == "" then "" else [UpperChar(word[0])] + Lower(word[1..])
  }

  function NormalizeLocationName(name: string): string {
    var trimmed := CollapseSpaces(Trim(name), ' ');
    if trimmed == "" then ""
    else Join(MapSeq(Capitalize, Split(trimmed, ' ')), ' ')
  }

  /** The text whose slug `resolveLocationFromSlugs` looks up for a column value. */
  function LookupSlug(column: string): string {
    var normalized := NormalizeLocationName(column);
    Slugify(if normalized != "" then normalized else Trim(column))
  }

  /** No two adjacent hyphens. */
  predicate Spread(s: string) {
    forall i :: 0 <= i < |s| - 1 ==> s[i] != '-' || s[i + 1] != '-'
  }

  /** Hyphen-separated non-empty runs of [a-z0-9], or nothing. */
  predicate IsSlug(s: string) {
    && (forall c :: c in s ==> IsSlugChar(c))
    && (s != "" ==> s[0] != '-' && s[|s| - 1] != '-')
    && Spread(s)
  }

  // ---------- the one-pass reading ----------

  datatype Kind = Keep | Separator | Drop

  function KindOf(c: char): Kind {
    if IsAlnum(LowerChar(c)) then Keep
    else if IsSpace(c) || c == '-' then Separator
    else Drop
  }

  /** Reads a name once: kept characters go out in lower case, and one hyphen goes out
      before a kept character that follows a separator and is not the first. */
  function Read(s: string, started: bool, pending: bool): string {
    if s == "" then ""
    else match KindOf(s[0])
      case Keep => (if started && pending then "-" else "") + [LowerChar(s[0])] + Read(s[1..], true, false)
      case Separator => Read(s[1..], started, true)
      case Drop => Read(s[1..], started, pending)
  }

  lemma {:induction false} ReadBeforeStart(s: string, p: bool, q: bool)
    ensures Read(s, false, p) == Read(s, false, q)
  {
    if s != "" && KindOf(s[0]).Drop? {
      ReadBeforeStart(s[1..], p, q);
    }
  }

  lemma {:induction false} ReadCaseBlind(s: string, t: string, started: bool, pending: bool)
    requires |s| == |t|
    requires forall i :: 0 <= i < |s| ==> LowerChar(s[i]) == LowerChar(t[i])
    ensures Read(s, started, pending) == Read(t, started, pending)
  {
    if s != "" {
      assert LowerChar(s[0]) == LowerChar(t[0]);
      forall i | 0 <= i < |s[1..]| ensures LowerChar(s[1..][i]) == LowerChar(t[1..][i]) {
        assert LowerChar(s[i + 1]) == LowerChar(t[i + 1]);
      }
      var started', pending' := started || KindOf(s[0]).Keep?, if KindOf(s[0]).Keep? then false else KindOf(s[0]).Separator? || pending;
      ReadCaseBlind(s[1..], t[1..], started', pending');
    }
  }

  /** Nothing that is kept: no output. */
  lemma {:induction false} ReadNothing(s: string, started: bool, pending: bool)
    requires forall i :: 0 <= i < |s| ==> !KindOf(s[i]).Keep?
    ensures Read(s, started, pending) == ""
  {
    if s != "" {
      forall i | 0 <= i < |s[1..]| ensures !KindOf(s[1..][i]).Keep? { assert !KindOf(s[i + 1]).Keep?; }
      ReadNothing(s[1..], started, KindOf(s[0]).Separator? || pending);
    }
  }

  lemma {:induction false} ReadIgnoresTail(s: string, tail: string, started: bool, pending: bool)
    requires forall i :: 0 <= i < |tail| ==> !KindOf(tail[i]).Keep?
    ensures Read(s + tail, started, pending) == Read(s, started, pending)
  {
    if s == "" {
      assert s + tail == tail;
      ReadNothing(tail, started, pending);
    } else {
      assert (s + tail)[1..] == s[1..] + tail;
      match KindOf(s[0])
      case Keep => ReadIgnoresTail(s[1..], tail, true, false);
      case Separator => ReadIgnoresTail(s[1..], tail, started, true);
      case Drop => ReadIgnoresTail(s[1..], tail, started, pending);
    }
  }

  lemma {:induction false} ReadIgnoresHead(head: string, s: string, p: bool)
    requires forall i :: 0 <= i < |head| ==> !KindOf(head[i]).Keep?
    ensures Read(head + s, false, p) == Read(s, false, p)
  {
    if head == "" {
      assert head + s == s;
    } else {
      assert (head + s)[1..] == head[1..] + s;
      forall i | 0 <= i < |head[1..]| ensures !KindOf(head[1..][i]).Keep? { assert !KindOf(head[i + 1]).Keep?; }
      ReadIgnoresHead(head[1..], s, p);
      ReadBeforeStart(head[1..] + s, true, p);
    }
  }

  lemma ReadTrim(s: string)
    ensures Read(Trim(s), false, false) == Read(s, false, false)
  {
    var i, j := TrimShape(s);
    assert s == s[..i] + (s[i..j] + s[j..]);
    ReadIgnoresHead(s[..i], s[i..j] + s[j..], false);
    ReadIgnoresTail(s[i..j], s[j..], false, false);
  }

  lemma {:induction false} ReadCollapse(s: string, run: char -> bool, rep: char, inside: bool, started: bool, pending: bool)
    requires forall c :: run(c) ==> KindOf(c).Separator?
    requires KindOf(rep).Separator?
    requires inside ==> pending
    ensures Read(Collapse(s, run, rep, inside), started, pending) == Read(s, started, pending)
  {
    if s != "" {
      var rest := s[1..];
      if run(s[0]) {
        ReadCollapse(rest, run, rep, true, started, true);
        if inside {
          assert Collapse(s, run, rep, inside) == Collapse(rest, run, rep, true);
        } else {
          assert Collapse(s, run, rep, inside)[1..] == Collapse(rest, run, rep, true);
        }
      } else {
        assert Collapse(s, run, rep, inside)[1..] == Collapse(rest, run, rep, false);
        match KindOf(s[0])
        case Keep => ReadCollapse(rest, run, rep, false, true, false);
        case Separator => ReadCollapse(rest, run, rep, false, started, true);
        case Drop => ReadCollapse(rest, run, rep, false, started, pending);
      }
    }
  }

  lemma {:induction false} ReadFilter(s: string, started: bool, pending: bool)
    requires forall c :: c in s ==> LowerChar(c) == c && !IsSpace(c)
    ensures Read(Filter(IsSlugChar, s), started, pending) == Read(s, started, pending)
  {
    if s != "" {
      var c := s[0];
      assert c in s;
      assert IsSlugChar(c) <==> !KindOf(c).Drop?;
      assert Filter(IsSlugChar, s) == (if IsSlugChar(c) then [c] else []) + Filter(IsSlugChar, s[1..]);
      assert !IsSlugChar(c) ==> Filter(IsSlugChar, s) == Filter(IsSlugChar, s[1..]);
      match KindOf(c)
      case Keep => ReadFilter(s[1..], true, false);
      case Separator => ReadFilter(s[1..], started, true);
      case Drop => ReadFilter(s[1..], started, pending);
    }
  }

  lemma ReadStrip(s: string)
    ensures Read(StripEdges(s), false, false) == Read(s, false, false)
  {
    var t := if s != "" && s[0] == '-' then s[1..] else s;
    if s != "" && s[0] == '-' {
      ReadBeforeStart(t, true, false);
    }
    if t != "" && t[|t| - 1] == '-' {
      assert t == t[..|t| - 1] + [t[|t| - 1]];
      ReadIgnoresTail(t[..|t| - 1], [t[|t| - 1]], false, false);
    }
  }

  lemma {:induction false} ReadSlug(s: string, started: bool)
    requires forall c :: c in s ==> IsSlugChar(c)
    requires Spread(s)
    requires s != "" ==> s[|s| - 1] != '-'
    requires s != "" && s[0] == '-' ==> started
    ensures Read(s, started, false) == s
  {
    if s != "" {
      assert s[0] in s;
      if s[0] == '-' {
        assert s[1] != '-' && s[1] in s;
        ReadSlug(s[2..], true);
        assert s[1..][1..] == s[2..];
        assert Read(s, true, false) == Read(s[1..], true, true) == "-" + [s[1]] + Read(s[2..], true, false);
        assert s == "-" + [s[1]] + s[2..];
      } else {
        ReadSlug(s[1..], true);
        assert s == [s[0]] + s[1..];
      }
    }
  }

  // ---------- shape of the pipeline ----------

  lemma {:induction false} CollapseChars(s: string, run: char -> bool, rep: char, inside: bool)
    ensures forall c :: c in Collapse(s, run, rep, inside) ==> c == rep || (c in s && !run(c))
  {
    if s != "" {
      CollapseChars(s[1..], run, rep, run(s[0]));
    }
  }

  lemma {:induction false} CollapseSpreads(s: string, inside: bool)
    ensures var r := Collapse(s, IsHyphen, '-', inside);
            Spread(r) && (inside && r != "" ==> r[0] != '-')
  {
    if s != "" {
      CollapseSpreads(s[1..], IsHyphen(s[0]));
      var r, t := Collapse(s, IsHyphen, '-', inside), Collapse(s[1..], IsHyphen, '-', IsHyphen(s[0]));
      if r != t {
        assert r == [s[0]] + t;
        forall i | 0 <= i < |r| - 1 ensures r[i] != '-' || r[i + 1] != '-' {
          if i > 0 { assert t[i - 1] != '-' || t[i] != '-'; }
        }
      }
    }
  }

  lemma {:induction false} FilterShape(s: string)
    ensures forall c :: c in Filter(IsSlugChar, s) ==> IsSlugChar(c)
  {
    if s != "" {
      FilterShape(s[1..]);
    }
  }

  /** Every slug is empty or hyphen-separated non-empty runs of [a-z0-9]. */
  lemma SlugifyShape(name: string)
    ensures IsSlug(Slugify(name))
  {
    var kept := Filter(IsSlugChar, CollapseSpaces(Trim(Lower(name)), '-'));
    FilterShape(CollapseSpaces(Trim(Lower(name)), '-'));
    CollapseChars(kept, IsHyphen, '-', false);
    CollapseSpreads(kept, false);
    StripShape(Collapse(kept, IsHyphen, '-', false));
  }

  lemma StripShape(r: string)
    requires Spread(r) && forall c :: c in r ==> IsSlugChar(c)
    ensures IsSlug(StripEdges(r))
  {
    var d := if r != "" && r[0] == '-' then 1 else 0;
    var t := r[d..];
    assert t != "" ==> t[0] != '-';
    var u := StripEdges(r);
    assert u == t || u == t[..|t| - 1];
    forall i | 0 <= i < |u| - 1 ensures u[i] != '-' || u[i + 1] != '-' {
      assert u[i] == r[i + d] && u[i + 1] == r[i + d + 1];
    }
    if u != t && u != "" {
      var k := |r| - 2;
      assert r[k + 1] == '-' && u[|u| - 1] == r[k];
    }
  }

  lemma LowerStable(s: string)
    ensures forall c :: c in CollapseSpaces(Trim(Lower(s)), '-') ==> LowerChar(c) == c && !IsSpace(c)
  {
    CollapseChars(Trim(Lower(s)), IsSpace, '-', false);
    var _, _ := TrimShape(Lower(s));
    forall c | c in Lower(s) ensures LowerChar(c) == c {
      var i :| 0 <= i < |Lower(s)| && Lower(s)[i] == c;
    }
  }

  /** The five passes compute what a single reading of the name computes. */
  lemma SlugifyIsRead(name: string)
    ensures Slugify(name) == Read(name, false, false)
  {
    var a := Lower(name);
    var b := Trim(a);
    var c := CollapseSpaces(b, '-');
    var d := Filter(IsSlugChar, c);
    var e := Collapse(d, IsHyphen, '-', false);
    ReadCaseBlind(name, a, false, false);
    ReadTrim(a);
    ReadCollapse(b, IsSpace, '-', false, false, false);
    LowerStable(name);
    ReadFilter(c, false, false);
    ReadCollapse(d, IsHyphen, '-', false, false, false);
    ReadStrip(e);
    SlugifyShape(name);
    ReadSlug(StripEdges(e), false);
  }

  /** slugify leaves exactly the slugs alone, so it is idempotent. */
  lemma SlugifyFixedIff(name: string)
    ensures Slugify(name) == name <==> IsSlug(name)
    ensures Slugify(Slugify(name)) == Slugify(name)
  {
    SlugifyShape(name);
    SlugifyIsRead(name);
    if IsSlug(name) { ReadSlug(name, false); }
    SlugifyIsRead(Slugify(name));
    ReadSlug(Slugify(name), false);
  }

  // ---------- normalisation ----------

  lemma CapitalizeCase(w: string)
    ensures |Capitalize(w)| == |w|
    ensures forall i :: 0 <= i < |w| ==> LowerChar(Capitalize(w)[i]) == LowerChar(w[i])
  {
    forall i | 0 <= i < |w| ensures LowerChar(Capitalize(w)[i]) == LowerChar(w[i]) {
      if i > 0 { assert Capitalize(w)[i] == Lower(w[1..])[i - 1] == LowerChar(w[i]); }
    }
  }

  lemma {:induction false} TitleCaseOnlyChangesCase(words: seq<string>)
    ensures var t := Join(MapSeq(Capitalize, words), ' ');
            |t| == |Join(words, ' ')| && forall i :: 0 <= i < |t| ==> LowerChar(t[i]) == LowerChar(Join(words, ' ')[i])
  {
    if |words| >= 1 {
      CapitalizeCase(words[0]);
      var mapped := MapSeq(Capitalize, words);
      assert mapped[0] == Capitalize(words[0]);
      if |words| >= 2 {
        TitleCaseOnlyChangesCase(words[1..]);
        assert mapped[1..] == MapSeq(Capitalize, words[1..]);
      }
    }
  }

  /** A normalised name is its trimmed, space-collapsed text with some letters in the other case. */
  lemma NormalizeOnlyChangesCase(name: string)
    ensures var n, t := NormalizeLocationName(name), CollapseSpaces(Trim(name), ' ');
            |n| == |t| && forall i :: 0 <= i < |n| ==> LowerChar(n[i]) == LowerChar(t[i])
  {
    var t := CollapseSpaces(Trim(name), ' ');
    if t != "" {
      JoinSplit(t, ' ');
      TitleCaseOnlyChangesCase(Split(t, ' '));
    }
  }

  lemma CapitalizeIs(w: string)
    ensures |Capitalize(w)| == |w|
    ensures forall i :: 0 <= i < |w| ==> Capitalize(w)[i] == if i == 0 then UpperChar(w[i]) else LowerChar(w[i])
  {
    forall i | 0 < i < |w| ensures Capitalize(w)[i] == LowerChar(w[i]) {
      assert Capitalize(w)[i] == Lower(w[1..])[i - 1] == LowerChar(w[i]);
    }
  }

  /** A character of a text in which each word begins in upper case, at the front or after a space, and goes on in lower case. */
  function TitleChar(s: string, i: nat): char
    requires i < |s|
  {
    if i == 0 || s[i - 1] == ' ' then UpperChar(s[i]) else LowerChar(s[i])
  }

  predicate TitleOf(t: string, s: string) {
    |t| == |s| && forall i :: 0 <= i < |s| ==> t[i] == TitleChar(s, i)
  }

  lemma TitleJoin(w: string, t: string, s: string)
    requires ' ' !in w && TitleOf(t, s)
    ensures TitleOf(Capitalize(w) + " " + t, w + " " + s)
  {
    CapitalizeIs(w);
    hide LowerChar, UpperChar, Capitalize;
    var a, b := Capitalize(w) + " " + t, w + " " + s;
    forall i | 0 <= i < |b| ensures a[i] == TitleChar(b, i) {
      if i < |w| {
        assert i > 0 ==> b[i - 1] == w[i - 1] && w[i - 1] in w;
      } else if i == |w| {
        assert b[i] == ' ' && a[i] == ' ';
        SpaceHasNoCase(b[i]);
      } else {
        var j := i - |w| - 1;
        assert a[i] == t[j] == TitleChar(s, j) && b[i] == s[j] && b[i - 1] == if j > 0 then s[j - 1] else ' ';
      }
    }
  }

  lemma SpaceHasNoCase(c: char)
    requires c == ' '
    ensures UpperChar(c) == LowerChar(c) == c
  {
  }

  lemma NoSpaceBefore(w: string)
    requires ' ' !in w
    ensures TitleOf(Capitalize(w), w)
  {
    CapitalizeIs(w);
    hide LowerChar, UpperChar, Capitalize;
    forall i | 0 <= i < |w| ensures Capitalize(w)[i] == TitleChar(w, i) {
      if i > 0 { assert w[i - 1] in w; }
    }
  }

  lemma {:induction false} TitleCaseIs(words: seq<string>)
    requires forall w :: w in words ==> ' ' !in w
    ensures TitleOf(Join(MapSeq(Capitalize, words), ' '), Join(words, ' '))
  {
    if |words| >= 1 {
      CapitalizeIs(words[0]);
      var mapped := MapSeq(Capitalize, words);
      if |words| == 1 {
        NoSpaceBefore(words[0]);
      } else {
        assert mapped[1..] == MapSeq(Capitalize, words[1..]);
        TitleCaseIs(words[1..]);
        hide Capitalize;
        TitleJoin(words[0], Join(mapped[1..], ' '), Join(words[1..], ' '));
      }
    }
  }

  /** A normalised name is its trimmed, space-collapsed text, each word beginning in upper case and going on in lower case. */
  lemma NormalizedIsTitle(name: string)
    ensures TitleOf(NormalizeLocationName(name), CollapseSpaces(Trim(name), ' '))
  {
    var t := CollapseSpaces(Trim(name), ' ');
    if t != "" {
      JoinSplit(t, ' ');
      TitleCaseIs(Split(t, ' '));
    }
  }

  /** Normalising a name first does not change its slug. */
  lemma NormalizePreservesSlug(name: string)
    ensures Slugify(NormalizeLocationName(name)) == Slugify(name)
  {
    var n, t := NormalizeLocationName(name), CollapseSpaces(Trim(name), ' ');
    NormalizeOnlyChangesCase(name);
    ReadCaseBlind(n, t, false, false);
    ReadCollapse(Trim(name), IsSpace, ' ', false, false, false);
    ReadTrim(name);
    SlugifyIsRead(n);
    SlugifyIsRead(name);
  }

  /** A column value finds the place stored under `stored` exactly when their slugs agree. */
  lemma LookupFindsStored(column: string, stored: string)
    ensures LookupSlug(column) == Slugify(NormalizeLocationName(stored)) <==> Slugify(column) == Slugify(stored)
  {
    NormalizePreservesSlug(column);
    NormalizePreservesSlug(stored);
    SlugifyIsRead(column);
    SlugifyIsRead(Trim(column));
    ReadTrim(column);
  }

  /** The same letters up to case, with the same words up to spacing. */
  predicate SpellingVariants(x: string, y: string) {
    Lower(CollapseSpaces(Trim(x), ' ')) == Lower(CollapseSpaces(Trim(y), ' '))
  }

  /** A place stored under one spelling has the slug looked up for every case or spacing variant. */
  lemma VariantFindsStored(column: string, stored: string)
    requires SpellingVariants(column, stored)
    ensures LookupSlug(column) == Slugify(NormalizeLocationName(stored))
  {
    var s, t := CollapseSpaces(Trim(column), ' '), CollapseSpaces(Trim(stored), ' ');
    assert |s| == |Lower(s)| && |t| == |Lower(t)|;
    forall i | 0 <= i < |s| ensures LowerChar(s[i]) == LowerChar(t[i]) {
      assert Lower(s)[i] == Lower(t)[i];
    }
    ReadCaseBlind(s, t, false, false);
    ReadCollapse(Trim(column), IsSpace, ' ', false, false, false);
    ReadCollapse(Trim(stored), IsSpace, ' ', false, false, false);
    ReadTrim(column);
    ReadTrim(stored);
    SlugifyIsRead(column);
    SlugifyIsRead(stored);
    LookupFindsStored(column, stored);
  }
}
