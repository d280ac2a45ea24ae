/**
Dimension-in-name metric names: a human label is sanitized and joined to its
metric family by a double underscore. Labels are ASCII text.
*/
module EcomNames {
  import opened Text

  predicate IsAlnum(c: char) { 'a' <= c <= 'z' || '0' <= c <= '9' }

  predicate IsSpace(c: char) { c == ' ' || '\t' <= c <= '\r' }

  function TrimLeft(s: string, p: char -> bool): string {
    if s != [] && p(s[0]) then TrimLeft(s[1..], p) else s
  }

  function TrimRight(s: string, p: char -> bool): string {
    if s != [] && p(s[|s| - 1]) then TrimRight(s[..|s| - 1], p) else s
  }

  function TrimSpace(s: string): string { TrimRight(TrimLeft(s, IsSpace), IsSpace) }

  function TrimUnderscores(s: string): string {
    TrimRight(TrimLeft(s, c => c == '_'), c => c == '_')
  }

  predicate EndsInUnderscore(s: string) { s != [] && s[|s| - 1] == '_' }

  /** Every run of characters other than letters and digits becomes one '_'. */
  function Collapse(s: string): string {
    if s == [] then []
    else
      var r, c := Collapse(s[..|s| - 1]), s[|s| - 1];
      if IsAlnum(c) then r + [c] else if EndsInUnderscore(r) then r else r + ['_']
  }

  function Sanitize(s: string): string { TrimUnderscores(Collapse(Lower(TrimSpace(s)))) }

  /** The characters that make up words. */
  lemma AlnumExactly(c: char)
    ensures IsAlnum(c) <==> c in "abcdefghijklmnopqrstuvwxyz" || c in "0123456789"
  {
    InRow("abcdefghijklmnopqrstuvwxyz", 'a', c);
    InRow("0123456789", '0', c);
  }

  lemma InRow(row: string, first: char, c: char)
    requires forall k :: 0 <= k < |row| ==> row[k] as int == first as int + k
    ensures c in row <==> first as int <= c as int < first as int + |row|
  {
    if first as int <= c as int < first as int + |row| { assert row[c as int - first as int] == c; }
  }

  // ---------- what sanitizing yields ----------

  predicate NoDouble(s: string) {
    forall i :: 0 <= i < |s| - 1 ==> !(s[i] == '_' && s[i + 1] == '_')
  }

  /** Letters, digits and '_' only, and no two '_' in a row. */
  predicate Tidy(s: string) {
    (forall i :: 0 <= i < |s| ==> IsAlnum(s[i]) || s[i] == '_') && NoDouble(s)
  }

  /** Moreover no '_' at either end. */
  predicate Clean(s: string) {
    Tidy(s) && (s != [] ==> s[0] != '_' && s[|s| - 1] != '_')
  }

  lemma {:induction false} CollapseIsTidy(s: string)
    ensures Tidy(Collapse(s))
  {
    if s != [] { CollapseIsTidy(s[..|s| - 1]); }
  }

  lemma {:induction false} TrimLeftKeepsTidy(s: string)
    requires Tidy(s)
    ensures var r := TrimLeft(s, c => c == '_'); Tidy(r) && (r != [] ==> r[0] != '_')
  {
    if s != [] && s[0] == '_' {
      assert forall i :: 0 <= i < |s[1..]| ==> s[1..][i] == s[i + 1];
      TrimLeftKeepsTidy(s[1..]);
    }
  }

  lemma {:induction false} TrimRightKeepsTidy(s: string)
    requires Tidy(s) && (s != [] ==> s[0] != '_')
    ensures Clean(TrimRight(s, c => c == '_'))
  {
    if s != [] && s[|s| - 1] == '_' {
      TrimRightKeepsTidy(s[..|s| - 1]);
    }
  }

  /** Whatever the label, its sanitized form is clean. */
  lemma SanitizeIsClean(s: string)
    ensures Clean(Sanitize(s))
  {
    var t := Collapse(Lower(TrimSpace(s)));
    CollapseIsTidy(Lower(TrimSpace(s)));
    TrimLeftKeepsTidy(t);
    TrimRightKeepsTidy(TrimLeft(t, c => c == '_'));
  }

  lemma {:induction false} CollapseFixesTidy(s: string)
    requires Tidy(s)
    ensures Collapse(s) == s
  {
    if s != [] {
      var front := s[..|s| - 1];
      CollapseFixesTidy(front);
      assert s == front + [s[|s| - 1]];
      if s[|s| - 1] == '_' && front != [] { assert s[|s| - 2] == front[|front| - 1]; }
    }
  }

  /** Clean labels, and only they, are their own sanitized form; so sanitizing
      twice is sanitizing once. */
  lemma SanitizeFixesExactlyTheClean(s: string)
    ensures Sanitize(s) == s <==> Clean(s)
    ensures Sanitize(Sanitize(s)) == Sanitize(s)
  {
    SanitizeIsClean(s);
    CleanIsFixed(Sanitize(s));
    if Clean(s) { CleanIsFixed(s); }
  }

  lemma CleanIsFixed(s: string)
    requires Clean(s)
    ensures Sanitize(s) == s
  {
    assert TrimSpace(s) == s;
    assert Lower(s) == s;
    CollapseFixesTidy(s);
  }

  // ---------- what sanitizing keeps ----------

  /** The letters and digits of a text, in order. */
  function Alnums(s: string): string {
    if s == [] then []
    else Alnums(s[..|s| - 1]) + if IsAlnum(s[|s| - 1]) then [s[|s| - 1]] else []
  }

  lemma {:induction false} AlnumsOfCollapse(s: string)
    ensures Alnums(Collapse(s)) == Alnums(s)
  {
    if s != [] {
      var r, c := Collapse(s[..|s| - 1]), s[|s| - 1];
      AlnumsOfCollapse(s[..|s| - 1]);
      if !(!IsAlnum(c) && EndsInUnderscore(r)) {
        var last := if IsAlnum(c) then c else '_';
        assert (r + [last])[..|r|] == r;
      }
    }
  }

  lemma {:induction false} AlnumsPrepend(c: char, s: string)
    ensures Alnums([c] + s) == (if IsAlnum(c) then [c] else []) + Alnums(s)
    decreases |s|
  {
    if s == [] {
      assert [c] + s == [c] && [c][..0] == [];
    } else {
      assert ([c] + s)[..|s|] == [c] + s[..|s| - 1];
      AlnumsPrepend(c, s[..|s| - 1]);
    }
  }

  lemma {:induction false} AlnumsOfTrimLeft(s: string, p: char -> bool)
    requires forall c :: p(c) ==> !IsAlnum(c)
    ensures Alnums(TrimLeft(s, p)) == Alnums(s)
  {
    if s != [] && p(s[0]) {
      AlnumsOfTrimLeft(s[1..], p);
      AlnumsPrepend(s[0], s[1..]);
      assert s == [s[0]] + s[1..];
    }
  }

  lemma {:induction false} AlnumsOfTrimRight(s: string, p: char -> bool)
    requires forall c :: p(c) ==> !IsAlnum(c)
    ensures Alnums(TrimRight(s, p)) == Alnums(s)
  {
    if s != [] && p(s[|s| - 1]) { AlnumsOfTrimRight(s[..|s| - 1], p); }
  }

  /** Sanitizing drops no letter or digit and reorders none. */
  lemma SanitizeKeepsAlnums(s: string)
    ensures Alnums(Sanitize(s)) == Alnums(Lower(TrimSpace(s)))
  {
    var t := Lower(TrimSpace(s));
    AlnumsOfCollapse(t);
    AlnumsOfTrimLeft(Collapse(t), c => c == '_');
    AlnumsOfTrimRight(TrimLeft(Collapse(t), c => c == '_'), c => c == '_');
  }

  // ---------- the words of a label ----------

  predicate EndsInAlnum(s: string) { s != [] && IsAlnum(s[|s| - 1]) }

  /** The words of a text - its maximal runs of letters and digits - joined by single
      underscores: a letter or digit is put right behind the one before it, or
      behind a '_' if it begins a word that is not the first. */
  function JoinedWords(s: string): string {
    if s == [] then ""
    else
      var front, c := s[..|s| - 1], s[|s| - 1];
      var r := JoinedWords(front);
      if !IsAlnum(c) then r else if r == "" || EndsInAlnum(front) then r + [c] else r + ['_', c]
  }

  lemma {:induction false} WordsOfCollapse(s: string)
    ensures JoinedWords(Collapse(s)) == JoinedWords(s)
    ensures EndsInAlnum(Collapse(s)) <==> EndsInAlnum(s)
  {
    if s != [] {
      var r, c := Collapse(s[..|s| - 1]), s[|s| - 1];
      WordsOfCollapse(s[..|s| - 1]);
      if IsAlnum(c) || !EndsInUnderscore(r) {
        var last := if IsAlnum(c) then c else '_';
        assert (r + [last])[..|r|] == r;
      }
    }
  }

  lemma {:induction false} WordsPrepend(c: char, s: string)
    requires !IsAlnum(c)
    ensures JoinedWords([c] + s) == JoinedWords(s)
    ensures EndsInAlnum([c] + s) <==> EndsInAlnum(s)
    decreases |s|
  {
    if s == [] {
      assert [c] + s == [c] && [c][..0] == [];
    } else {
      assert ([c] + s)[..|s|] == [c] + s[..|s| - 1];
      WordsPrepend(c, s[..|s| - 1]);
    }
  }

  lemma {:induction false} WordsOfTrimLeft(s: string, p: char -> bool)
    requires forall c :: p(c) ==> !IsAlnum(c)
    ensures JoinedWords(TrimLeft(s, p)) == JoinedWords(s)
  {
    if s != [] && p(s[0]) {
      WordsOfTrimLeft(s[1..], p);
      WordsPrepend(s[0], s[1..]);
      assert s == [s[0]] + s[1..];
    }
  }

  lemma {:induction false} WordsOfTrimRight(s: string, p: char -> bool)
    requires forall c :: p(c) ==> !IsAlnum(c)
    ensures JoinedWords(TrimRight(s, p)) == JoinedWords(s)
  {
    if s != [] && p(s[|s| - 1]) { WordsOfTrimRight(s[..|s| - 1], p); }
  }

  /** A tidy text that does not begin with '_' is its words, joined, and a trailing
      '_' if it has one. */
  lemma {:induction false} TidyIsItsWords(s: string)
    requires Tidy(s) && (s != [] ==> s[0] != '_')
    ensures s == JoinedWords(s) + if EndsInUnderscore(s) then "_" else ""
    ensures s != [] ==> JoinedWords(s) != []
  {
    if s != [] {
      var front, c := s[..|s| - 1], s[|s| - 1];
      TidyIsItsWords(front);
      if front != [] { assert front[|front| - 1] == s[|s| - 2]; }
      assert s == front + [c];
    }
  }

  /** Exactly what sanitizing does: the words of the label in lower case, joined by
      single underscores. */
  lemma SanitizeJoinsTheWords(s: string)
    ensures Sanitize(s) == JoinedWords(Lower(s))
  {
    var t := Lower(TrimSpace(s));
    WordsOfCollapse(t);
    WordsOfTrimLeft(Collapse(t), c => c == '_');
    WordsOfTrimRight(TrimLeft(Collapse(t), c => c == '_'), c => c == '_');
    SanitizeIsClean(s);
    TidyIsItsWords(Sanitize(s));
    WordsOfLower(s);
  }

  lemma {:induction false} LowerTrimsLeft(s: string)
    ensures Lower(TrimLeft(s, IsSpace)) == TrimLeft(Lower(s), IsSpace)
  {
    if s != [] && IsSpace(s[0]) {
      LowerTrimsLeft(s[1..]);
      assert Lower(s)[1..] == Lower(s[1..]);
    }
  }

  lemma {:induction false} LowerTrimsRight(s: string)
    ensures Lower(TrimRight(s, IsSpace)) == TrimRight(Lower(s), IsSpace)
  {
    if s != [] && IsSpace(s[|s| - 1]) {
      LowerTrimsRight(s[..|s| - 1]);
      assert Lower(s)[..|s| - 1] == Lower(s[..|s| - 1]);
    }
  }

  lemma WordsOfLower(s: string)
    ensures JoinedWords(Lower(TrimSpace(s))) == JoinedWords(Lower(s))
  {
    LowerTrimsLeft(s);
    LowerTrimsRight(TrimLeft(s, IsSpace));
    WordsOfTrimLeft(Lower(s), IsSpace);
    WordsOfTrimRight(TrimLeft(Lower(s), IsSpace), IsSpace);
  }

  // ---------- metric names ----------

  function MetricName(family: string, dim: string): string {
    if dim == "" then family else family + "__" + Sanitize(dim)
  }

  datatype Decoded = Global(family: string) | Scoped(family: string, dim: string)

  /** Where the last double underscore begins, or -1. */
  function LastDouble(name: string): (k: int)
    ensures -1 <= k <= |name| - 2 || (k == -1 && |name| < 2)
  {
    if |name| < 2 then -1
    else if name[|name| - 2] == '_' && name[|name| - 1] == '_' then |name| - 2
    else LastDouble(name[..|name| - 1])
  }

  function Decode(name: string): Decoded {
    var k := LastDouble(name);
    if k < 0 then Global(name) else Scoped(name[..k], name[k + 2..])
  }

  lemma {:induction false} LastDoubleOfJoin(family: string, dim: string)
    requires Clean(dim) || (Tidy(dim) && dim != [] && dim[0] != '_')
    ensures LastDouble(family + "__" + dim) == |family|
    decreases |dim|
  {
    var name := family + "__" + dim;
    if dim != [] {
      var front := dim[..|dim| - 1];
      assert name[..|name| - 1] == family + "__" + front;
      assert name[|name| - 1] == dim[|dim| - 1];
      if |dim| > 1 { assert name[|name| - 2] == dim[|dim| - 2]; }
      LastDoubleOfJoin(family, front);
    }
  }

  lemma {:induction false} NoDoubleMeansNoLast(s: string)
    ensures LastDouble(s) == -1 <==> NoDouble(s)
  {
    if |s| >= 2 {
      var front := s[..|s| - 1];
      NoDoubleMeansNoLast(front);
      if NoDouble(front) && !(s[|s| - 2] == '_' && s[|s| - 1] == '_') {
        forall i | 0 <= i < |s| - 1 ensures !(s[i] == '_' && s[i + 1] == '_') {
          if i < |s| - 2 { assert s[i] == front[i] && s[i + 1] == front[i + 1]; }
        }
      }
      if !NoDouble(front) {
        var i :| 0 <= i < |front| - 1 && front[i] == '_' && front[i + 1] == '_';
        assert s[i] == '_' && s[i + 1] == '_';
      }
    }
  }

  /** Names are reversible. A name with a dimension decodes to its family and its
      sanitized dimension, whatever the family; a name without one decodes to
      its family exactly if that holds no double underscore. */
  lemma NamesRoundTrip(family: string, dim: string)
    ensures dim != "" ==> Decode(MetricName(family, dim)) == Scoped(family, Sanitize(dim))
    ensures Decode(MetricName(family, "")) == Global(family) <==> NoDouble(family)
  {
    SanitizeIsClean(dim);
    if dim != "" {
      LastDoubleOfJoin(family, Sanitize(dim));
      var name := MetricName(family, dim);
      assert name[..|family|] == family && name[|family| + 2..] == Sanitize(dim);
    }
    NoDoubleMeansNoLast(family);
  }

  /** Two series of double-underscore-free families share a name exactly if they
      are the same family and either both are global or both have dimensions
      that sanitize alike. */
  lemma NamesCollideIff(f: string, d: string, f': string, d': string)
    requires NoDouble(f) && NoDouble(f')
    ensures MetricName(f, d) == MetricName(f', d') <==>
            f == f' && (d == "" <==> d' == "") && (d != "" ==> Sanitize(d) == Sanitize(d'))
  {
    NamesRoundTrip(f, d);
    NamesRoundTrip(f', d');
  }

  // ---------- the catalogue ----------

  datatype Series = Series(name: string, family: string, dim: string, base: real)

  /** The series as it is registered under a family for a label, or for none. */
  function SeriesFor(family: string, own: string, base: real): Series {
    Series(MetricName(family, own), family, Sanitize(own), base)
  }

  class Catalogue {
    var series: seq<Series>

    constructor ()
      ensures series == []
    {
      series := [];
    }

    method Add(family: string, own: string, base: real)
      modifies this
      ensures series == old(series) + [SeriesFor(family, own, base)]
    {
      series := series + [Series(MetricName(family, own), family, Sanitize(own), base)];
    }
  }

  /** A label that sanitizing wipes out, although there is one. */
  predicate WipedOut(own: string) { own != "" && Sanitize(own) == "" }

  /** Perturbation goes by family and dimension, the outside world by the metric
      name. For families without a double underscore the two identify the same
      series, unless one of the labels is missing and the other is wiped out:
      those share family and dimension under two names. */
  lemma NameDeterminesSeriesIff(f: string, d: string, f': string, d': string)
    requires NoDouble(f) && NoDouble(f')
    ensures var s, t := SeriesFor(f, d, 0.0), SeriesFor(f', d', 0.0);
      (s.name == t.name <==> s.family == t.family && s.dim == t.dim) <==>
      !(f == f' && ((d == "" && WipedOut(d')) || (d' == "" && WipedOut(d))))
  {
    NamesCollideIff(f, d, f', d');
    CleanIsFixed("");
  }

  /** Such a pair of labels exists. */
  lemma ExclamationMarkIsWipedOut()
    ensures WipedOut("!")
  {
    assert "!"[..0] == [] && "_"[..0] == [] && "_"[1..] == [];
    assert TrimSpace("!") == "!" && Lower("!") == "!";
    assert Collapse("!") == "_";
  }
}
