/** The keys of the rows that the CSV reader builds: how a header may be spelled for a column to be found. */
module CsvKeys {
  import opened Text
  import opened Csv

  /** Header `h` against key `key`, character by character: `pos[i]` is where the character `h[i]` went. A run of white space
      went to a single underscore, every other character to itself in lower case, and nothing else is in the key. */
  predicate Aligned(h: string, key: string, pos: seq<nat>) {
    && |pos| == |h|
    && (if h == "" then key == "" else pos[0] == 0 && pos[|h| - 1] == |key| - 1)
    && (forall i :: 0 <= i < |h| ==> pos[i] < |key| && key[pos[i]] == if IsSpace(h[i]) then '_' else LowerChar(h[i]))
    && (forall i :: 0 <= i < |h| - 1 ==> pos[i + 1] == if IsSpace(h[i]) && IsSpace(h[i + 1]) then pos[i] else pos[i] + 1)
  }

  ghost predicate Spells(h: string, key: string) {
    exists pos :: Aligned(h, key, pos)
  }

  /** One character more at the end of a text. */
  lemma {:induction false} CollapseSnoc(s: string, c: char, rep: char, inside: bool)
    ensures Collapse(s + [c], IsSpace, rep, inside)
            == Collapse(s, IsSpace, rep, inside)
               + if !IsSpace(c) then [c] else if (if s == "" then inside else IsSpace(s[|s| - 1])) then "" else [rep]
  {
    hide IsSpace;
    if s != "" {
      assert (s + [c])[1..] == s[1..] + [c];
      CollapseSnoc(s[1..], c, rep, IsSpace(s[0]));
    } else {
      assert [c][1..] == "";
    }
  }

  lemma LowerSnoc(s: string, c: char)
    ensures Lower(s + [c]) == Lower(s) + [LowerChar(c)]
    ensures s != "" ==> Lower(s)[|s| - 1] == LowerChar(s[|s| - 1])
  {
    hide LowerChar, MapSeq;
    assert forall i :: 0 <= i < |s| ==> (s + [c])[i] == s[i];
  }

  lemma LowerKeepsSpace(c: char)
    ensures IsSpace(LowerChar(c)) <==> IsSpace(c)
    ensures IsSpace(c) ==> LowerChar(c) == c
  {
  }

  /** What one character more adds to a key. */
  function Added(s: string, c: char): string {
    if !IsSpace(c) then [LowerChar(c)] else if s != "" && IsSpace(s[|s| - 1]) then "" else "_"
  }

  /** The key of a header with one more character. */
  lemma KeySnoc(s: string, c: char)
    ensures NormalizeHeader(s + [c])
            == NormalizeHeader(s) + Added(s, c)
  {
    hide IsSpace, LowerChar, Collapse;
    LowerSnoc(s, c);
    LowerKeepsSpace(c);
    if s != "" { LowerKeepsSpace(s[|s| - 1]); }
    CollapseSnoc(Lower(s), LowerChar(c), '_', false);
  }

  lemma AlignedSnoc(s: string, c: char, key: string, pos: seq<nat>)
    requires Aligned(s, key, pos)
    ensures |key + Added(s, c)| > 0 && Aligned(s + [c], key + Added(s, c), pos + [|key + Added(s, c)| - 1])
  {
    hide IsSpace, LowerChar;
    var h, key', pos' := s + [c], key + Added(s, c), pos + [|key + Added(s, c)| - 1];
    if s != "" { assert |key| == pos[|s| - 1] + 1; }
    forall i | 0 <= i < |h| ensures pos'[i] < |key'| && key'[pos'[i]] == if IsSpace(h[i]) then '_' else LowerChar(h[i]) {
      if i < |s| { assert key'[pos[i]] == key[pos[i]]; }
    }
  }

  lemma AlignedFront(s: string, c: char, key: string, pos: seq<nat>)
    requires Aligned(s + [c], key, pos)
    ensures |pos| == |s| + 1
    ensures var before := if s == "" then "" else key[..pos[|s| - 1] + 1];
            Aligned(s, before, pos[..|s|]) && key == before + Added(s, c)
  {
    hide IsSpace, LowerChar;
    var h, n := s + [c], |s|;
    assert forall i :: 0 <= i < n ==> h[i] == s[i];
    assert h[n] == c;
    Ascends(h, key, pos, n);
    var before := if s == "" then "" else key[..pos[n - 1] + 1];
    if n > 0 {
      assert pos[n] == if IsSpace(s[n - 1]) && IsSpace(c) then pos[n - 1] else pos[n - 1] + 1;
    }
    assert key == before + Added(s, c);
  }

  lemma {:induction false} Ascends(h: string, key: string, pos: seq<nat>, n: nat)
    requires Aligned(h, key, pos) && n < |h|
    ensures forall i :: 0 <= i <= n ==> pos[i] <= pos[n]
    ensures n > 0 ==> forall i :: 0 <= i < n ==> pos[i] <= pos[n - 1]
  {
    hide IsSpace, LowerChar;
    if n > 0 { Ascends(h, key, pos, n - 1); }
  }

  lemma {:induction false} KeyAligned(h: string) returns (pos: seq<nat>)
    ensures Aligned(h, NormalizeHeader(h), pos)
  {
    if h == "" {
      pos := [];
    } else {
      var s, c := h[..|h| - 1], h[|h| - 1];
      pos := KeyAligned(s);
      KeySnoc(s, c);
      assert h == s + [c];
      hide Aligned, NormalizeHeader;
      AlignedSnoc(s, c, NormalizeHeader(s), pos);
      pos := pos + [|NormalizeHeader(h)| - 1];
    }
  }

  lemma {:induction false} AlignedIsKey(h: string, key: string, pos: seq<nat>)
    requires Aligned(h, key, pos)
    ensures key == NormalizeHeader(h)
  {
    if h != "" {
      var n := |h| - 1;
      var s, c := h[..n], h[n];
      assert h == s + [c];
      KeySnoc(s, c);
      hide Aligned, NormalizeHeader;
      AlignedFront(s, c, key, pos);
      AlignedIsKey(s, if n == 0 then "" else key[..pos[n - 1] + 1], pos[..n]);
    }
  }

  /** The key of a header is the one text that it spells. */
  lemma KeyIff(h: string, key: string)
    ensures NormalizeHeader(h) == key <==> Spells(h, key)
  {
    var pos := KeyAligned(h);
    hide NormalizeHeader, Aligned;
    if Spells(h, key) {
      var p :| Aligned(h, key, p);
      AlignedIsKey(h, key, p);
    }
  }

  /** A key has no white space and no upper-case letter. */
  lemma KeyShape(h: string)
    ensures forall c :: c in NormalizeHeader(h) ==> !IsSpace(c) && !('A' <= c <= 'Z')
  {
    var pos := KeyAligned(h);
    var key := NormalizeHeader(h);
    hide NormalizeHeader;
    forall c | c in key ensures !IsSpace(c) && !('A' <= c <= 'Z') {
      var k :| 0 <= k < |key| && key[k] == c;
      var i := Reached(h, key, pos, k);
      LowerKeepsSpace(h[i]);
    }
  }

  /** Every character of the key comes from one of the header. */
  lemma {:induction false} Reached(h: string, key: string, pos: seq<nat>, k: nat) returns (i: nat)
    requires Aligned(h, key, pos) && k < |key|
    ensures i < |h| && pos[i] == k
  {
    hide IsSpace, LowerChar;
    i := |h| - 1;
    while pos[i] != k
      invariant i < |h| && k <= pos[i]
      decreases i
    {
      i := i - 1;
    }
  }

  lemma LowerCons(c: char, s: string)
    ensures Lower([c] + s) == [LowerChar(c)] + Lower(s)
  {
    MapCons(LowerChar, c, s);
  }

  /** Lower-casing before or after the runs are replaced is the same. */
  lemma {:induction false} CollapseLower(s: string, rep: char, inside: bool)
    requires LowerChar(rep) == rep
    ensures Collapse(Lower(s), IsSpace, rep, inside) == Lower(Collapse(s, IsSpace, rep, inside))
  {
    if s != "" {
      assert s == [s[0]] + s[1..];
      LowerCons(s[0], s[1..]);
      assert Lower(s)[1..] == Lower(s[1..]);
      LowerKeepsSpace(s[0]);
      CollapseLower(s[1..], rep, IsSpace(s[0]));
      var rest := Collapse(s[1..], IsSpace, rep, IsSpace(s[0]));
      LowerCons(s[0], rest);
      LowerCons(rep, rest);
      hide IsSpace, LowerChar, Lower;
      assert "" + rest == rest && "" + Lower(rest) == Lower(rest);
    }
  }

  /** With another mark for the runs, in a text that has neither mark of its own. */
  lemma {:induction false} MarksDiffer(s: string, inside: bool)
    requires '_' !in s
    ensures var a, b := Collapse(s, IsSpace, '_', inside), Collapse(s, IsSpace, ' ', inside);
            && |a| == |b|
            && forall i :: 0 <= i < |a| ==> (a[i] == '_' <==> b[i] == ' ') && (a[i] != '_' ==> a[i] == b[i]) && b[i] != '_'
  {
    if s != "" {
      MarksDiffer(s[1..], IsSpace(s[0]));
      assert IsSpace(' ');
      hide IsSpace;
    }
  }

  lemma SameMarks(a: string, b: string)
    requires '_' !in a && '_' !in b
    ensures Lower(CollapseSpaces(a, '_')) == Lower(CollapseSpaces(b, '_')) <==> Lower(CollapseSpaces(a, ' ')) == Lower(CollapseSpaces(b, ' '))
  {
    MarksDiffer(a, false);
    MarksDiffer(b, false);
    hide Collapse, IsSpace;
    var a1, b1, a2, b2 := CollapseSpaces(a, '_'), CollapseSpaces(b, '_'), CollapseSpaces(a, ' '), CollapseSpaces(b, ' ');
    if Lower(a1) == Lower(b1) {
      forall i | 0 <= i < |a2| ensures Lower(a2)[i] == Lower(b2)[i] { assert Lower(a1)[i] == Lower(b1)[i]; }
      assert |Lower(a1)| == |a1| && |Lower(b1)| == |b1|;
      assert Lower(a2) == Lower(b2);
    }
    if Lower(a2) == Lower(b2) {
      forall i | 0 <= i < |a1| ensures Lower(a1)[i] == Lower(b1)[i] { assert Lower(a2)[i] == Lower(b2)[i]; }
      assert |Lower(a2)| == |a2| && |Lower(b2)| == |b2|;
      assert Lower(a1) == Lower(b1);
    }
  }

  /** Two headers have the same key exactly when they agree up to case once every run of white space is an underscore;
      two headers without underscores exactly when they agree up to case and white-space runs. */
  lemma SameKeyIff(a: string, b: string)
    ensures NormalizeHeader(a) == NormalizeHeader(b) <==> Lower(CollapseSpaces(a, '_')) == Lower(CollapseSpaces(b, '_'))
    ensures '_' !in a && '_' !in b ==>
              (NormalizeHeader(a) == NormalizeHeader(b) <==> Lower(CollapseSpaces(a, ' ')) == Lower(CollapseSpaces(b, ' ')))
  {
    CollapseLower(a, '_', false);
    CollapseLower(b, '_', false);
    if '_' !in a && '_' !in b { SameMarks(a, b); }
    hide Collapse, IsSpace, Lower;
  }

  /** A header spells a column name when it differs from it in case only, and in single white space for underscores. */
  lemma VariantSpells(h: string, name: string)
    requires |h| == |name|
    requires forall i :: 0 <= i < |h| ==> if IsSpace(h[i]) then name[i] == '_' else name[i] == LowerChar(h[i])
    requires forall i :: 0 <= i < |h| - 1 ==> !(IsSpace(h[i]) && IsSpace(h[i + 1]))
    ensures Spells(h, name)
  {
    hide IsSpace, LowerChar;
    assert Aligned(h, name, seq(|h|, i requires 0 <= i < |h| => i));
  }

  /** And still when white space is made longer. */
  lemma LongerRunSpells(a: string, x: char, y: char, b: string, name: string)
    requires IsSpace(x) && IsSpace(y) && Spells(a + [x] + b, name)
    ensures Spells(a + [x, y] + b, name)
  {
    KeyIff(a + [x] + b, name);
    KeyIff(a + [x, y] + b, name);
    LowerKeepsSpace(x);
    LowerKeepsSpace(y);
    LowerParts(a, [x], b);
    LowerParts(a, [x, y], b);
    hide Spells, Collapse, IsSpace;
    LongerRun(Lower(a), x, y, Lower(b), false);
  }

  lemma LowerParts(a: string, m: string, b: string)
    requires forall c :: c in m ==> LowerChar(c) == c
    ensures Lower(a + m + b) == Lower(a) + m + Lower(b)
  {
    hide LowerChar;
    assert |Lower(a + m + b)| == |Lower(a) + m + Lower(b)|;
    forall i | 0 <= i < |a + m + b| ensures Lower(a + m + b)[i] == (Lower(a) + m + Lower(b))[i] {}
  }

  lemma {:induction false} LongerRun(a: string, x: char, y: char, b: string, inside: bool)
    requires IsSpace(x) && IsSpace(y)
    ensures Collapse(a + [x, y] + b, IsSpace, '_', inside) == Collapse(a + [x] + b, IsSpace, '_', inside)
  {
    hide IsSpace;
    if a == "" {
      assert (a + [x, y] + b)[1..] == [y] + b && ([y] + b)[1..] == b && (a + [x] + b)[1..] == b;
    } else {
      assert (a + [x, y] + b)[1..] == a[1..] + [x, y] + b && (a + [x] + b)[1..] == a[1..] + [x] + b;
      LongerRun(a[1..], x, y, b, IsSpace(a[0]));
    }
  }

  /** A rectangular table under the column names `names`, each header one of the spellings of its column. */
  ghost predicate SpelledTable(headers: seq<string>, names: seq<string>, rows: seq<seq<string>>) {
    && headers != [] && |headers| == |names|
    && (forall i :: 0 <= i < |headers| ==> NoBreaks(headers[i]) && Trimmed(headers[i]) && Spells(headers[i], names[i]) && names[i] != PROTO)
    && (forall i, j :: 0 <= i < j < |names| ==> names[i] != names[j])
    && (forall r :: r in rows ==> |r| == |headers| && forall f :: f in r ==> NoBreaks(f) && Trimmed(f))
  }

  /** Printing a table whose headers are spelled in any way that the columns allow, and reading the file, gives rows keyed by exactly
      the column names, each with its own value. */
  lemma ColumnsReadBack(bom: bool, headers: seq<string>, names: seq<string>, rows: seq<seq<string>>, b: Break, final: bool)
    requires SpelledTable(headers, names, rows)
    ensures var read := Rows(PrintFile(bom, PrintTable(headers, rows), b, final));
            && |read| == |rows|
            && forall k :: 0 <= k < |rows| ==>
                 && |rows[k]| == |names|
                 && (forall h :: h in read[k] <==> h in names)
                 && forall i :: 0 <= i < |names| ==> names[i] in read[k] && read[k][names[i]] == rows[k][i]
  {
    forall i | 0 <= i < |headers| ensures NormalizeHeader(headers[i]) == names[i] { KeyIff(headers[i], names[i]); }
    hide Spells, NormalizeHeader, Trimmed, NoBreaks, Rows, PrintFile, PrintTable;
    assert forall h :: h in headers ==> exists i :: 0 <= i < |headers| && headers[i] == h;
    FileRoundTrip(bom, headers, rows, b, final);
    var read := Rows(PrintFile(bom, PrintTable(headers, rows), b, final));
    forall k | 0 <= k < |rows|
      ensures |rows[k]| == |names|
      ensures forall h :: h in read[k] <==> h in names
      ensures forall i :: 0 <= i < |names| ==> names[i] in read[k] && read[k][names[i]] == rows[k][i]
    {
      assert RowIs(read[k], headers, rows[k]);
      KeyedByName(read[k], headers, names, rows[k]);
    }
  }

  lemma KeyedByName(row: Row, headers: seq<string>, names: seq<string>, values: seq<string>)
    requires RowIs(row, headers, values) && |headers| == |names| && forall i :: 0 <= i < |headers| ==> NormalizeHeader(headers[i]) == names[i]
    ensures |values| == |names| && (forall h :: h in row <==> h in names)
    ensures forall i :: 0 <= i < |names| ==> names[i] in row && row[names[i]] == values[i]
  {
    hide NormalizeHeader;
    forall h ensures h in row <==> h in names {
      if h in row {
        var i :| 0 <= i < |headers| && NormalizeHeader(headers[i]) == h;
        assert names[i] == h;
      }
    }
  }
}
