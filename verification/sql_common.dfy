/**
 * Statement fragments that both SQL dialects (src-tauri/src/db/mysql.rs and
 * src-tauri/src/db/postgres.rs) render the same way.
 */
module SqlCommon {
  import opened Wrappers
  import opened Text
  import opened Seqs
  import opened Schema

  /** The default expression is copied verbatim, never re-quoted. */
  function DefaultClause(c: Column): (r: string)
    ensures c.default_value.None? <==> r == ""
    ensures c.default_value.Some? ==> r == " DEFAULT " + c.default_value.value
  {
    match c.default_value
    case Some(d) => " DEFAULT " + d
    case None => ""
  }

  function KindKeyword(unique: bool): string
  {
    if unique then "UNIQUE INDEX" else "INDEX"
  }

  /** Each name quoted by `quote`, joined by ", ". */
  function QuoteList(names: seq<string>, quote: string -> string): string
  {
    Join(Map(names, quote), ", ")
  }

  // ---------------------------------------------------------------------------
  // Reading the targets back out of a statement
  // ---------------------------------------------------------------------------

  /** What follows `prefix` in `s`, read as one quoted identifier and the rest. */
  function AfterName(s: string, prefix: string, q: char): Option<(string, string)>
  {
    if StartsWith(s, prefix) then ReadDelimited(s[|prefix|..], q) else None
  }

  /** `s` is `prefix`, then an identifier quoted with `q` that reads back to `name`, then anything. */
  predicate Names(s: string, prefix: string, name: string, q: char)
  {
    var r := AfterName(s, prefix, q);
    r.Some? && r.value.0 == name
  }

  /** `s` names `first` after `prefix`, and then `second` after `mid`. */
  predicate NamesTwo(s: string, prefix: string, first: string, mid: string, second: string, q: char)
  {
    var r := AfterName(s, prefix, q);
    r.Some? && r.value.0 == first && Names(r.value.1, mid, second, q)
  }

  /** `Names`, and after the name comes exactly `tail`: the whole text is pinned down. */
  predicate NamesThen(s: string, prefix: string, name: string, tail: string, q: char)
  {
    var r := AfterName(s, prefix, q);
    r.Some? && r.value.0 == name && r.value.1 == tail
  }

  /** `NamesTwo`, and after the second name comes exactly `tail`. */
  predicate NamesTwoThen(s: string, prefix: string, first: string, mid: string, second: string, tail: string, q: char)
  {
    var r := AfterName(s, prefix, q);
    r.Some? && r.value.0 == first && NamesThen(r.value.1, mid, second, tail, q)
  }

  lemma NamesOf(prefix: string, name: string, tail: string, q: char)
    requires tail == [] || tail[0] != q
    ensures Names(prefix + Delimit(name, q) + tail, prefix, name, q)
    ensures AfterName(prefix + Delimit(name, q) + tail, prefix, q).value.1 == tail
    ensures NamesThen(prefix + Delimit(name, q) + tail, prefix, name, tail, q)
  {
    var s := prefix + Delimit(name, q) + tail;
    assert s[|prefix|..] == Delimit(name, q) + tail;
    ReadDelimitedDelimit(name, tail, q);
  }

  lemma NamesTwoOf(prefix: string, first: string, mid: string, second: string, tail: string, q: char)
    requires |mid| > 0 && mid[0] != q
    requires tail == [] || tail[0] != q
    ensures NamesTwo(prefix + Delimit(first, q) + mid + Delimit(second, q) + tail, prefix, first, mid, second, q)
    ensures NamesTwoThen(prefix + Delimit(first, q) + mid + Delimit(second, q) + tail, prefix, first, mid, second, tail, q)
  {
    var rest := mid + Delimit(second, q) + tail;
    var s := prefix + Delimit(first, q) + mid + Delimit(second, q) + tail;
    assert s[|prefix|..] == Delimit(first, q) + rest;
    ReadDelimitedDelimit(first, rest, q);
    NamesOf(mid, second, tail, q);
  }

  /** A statement that names something still does once more text follows it. */
  lemma NamesExtend(s: string, prefix: string, name: string, more: string, q: char)
    requires Names(s, prefix, name, q) && AfterName(s, prefix, q).value.1 != []
    ensures Names(s + more, prefix, name, q)
  {
    assert (s + more)[..|prefix|] == s[..|prefix|];
    assert (s + more)[|prefix|..] == s[|prefix|..] + more;
    ReadDelimitedExtend(s[|prefix|..], more, q);
  }

  /** `NamesTwoOf` for a second name that opens a longer part, such as a column definition. */
  lemma NamesTwoOfPart(prefix: string, first: string, mid: string, second: string, more: string, tail: string, q: char)
    requires |mid| > 0 && mid[0] != q
    requires |more| > 0 && more[0] != q
    ensures NamesTwo(prefix + Delimit(first, q) + mid + (Delimit(second, q) + more) + tail, prefix, first, mid, second, q)
  {
    var d1, d2 := Delimit(first, q), Delimit(second, q);
    assert prefix + d1 + mid + (d2 + more) + tail == prefix + d1 + mid + d2 + (more + tail);
    NamesTwoOf(prefix, first, mid, second, more + tail, q);
  }

  /** Reading back is deterministic: a statement names one thing at each place. */
  lemma NamesTwoUnique(s: string, prefix: string, mid: string, a1: string, b1: string, a2: string, b2: string, q: char)
    requires NamesTwo(s, prefix, a1, mid, b1, q) && NamesTwo(s, prefix, a2, mid, b2, q)
    ensures a1 == a2 && b1 == b2
  {
  }

  /** Two statements whose middle keywords differ at some position are different statements. */
  lemma NamesTwoApart(s1: string, s2: string, prefix: string, mid1: string, mid2: string,
                      a1: string, b1: string, a2: string, b2: string, q: char, i: nat)
    requires NamesTwo(s1, prefix, a1, mid1, b1, q) && NamesTwo(s2, prefix, a2, mid2, b2, q)
    requires i < |mid1| && i < |mid2| && mid1[i] != mid2[i]
    ensures s1 != s2
  {
    var r1, r2 := AfterName(s1, prefix, q).value.1, AfterName(s2, prefix, q).value.1;
    assert r1[..|mid1|] == mid1 && r2[..|mid2|] == mid2;
    assert r1[i] == mid1[i] && r2[i] == mid2[i];
  }

  /** A CREATE INDEX statement starts "CREATE UNIQUE INDEX " exactly for a unique index. */
  lemma KindKeywordLeads(unique: bool, a: string, b: string, c: string, d: string)
    ensures StartsWith("CREATE " + KindKeyword(unique) + " " + a + b + c + d, "CREATE UNIQUE INDEX ") <==> unique
  {
    var head := "CREATE " + KindKeyword(unique) + " ";
    var r := head + a + b + c + d;
    assert r == head + (a + b + c + d);
    assert r[..|head|] == head;
    if !unique {
      assert r[7] == head[7] == 'I';
    }
  }

  /** The second character of a concatenation whose first part is empty or at least two long. */
  lemma SecondChar(x: string, y: string)
    requires |x| == 0 || |x| >= 2
    ensures |x| >= 2 ==> (x + y)[1] == x[1]
    ensures |x| == 0 ==> x + y == y
  {
  }
}
