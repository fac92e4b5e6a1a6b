/**
 * Character-level helpers the generators and the stores rely on: delimiter
 * doubling (Rust's `str::replace(q, qq)`), `join`, `contains`, `starts_with`,
 * and decimal rendering of counters.
 */
module Text {
  import opened Wrappers

  /** Every occurrence of `q` in `s` written twice, as `s.replace(q, qq)` does. */
  function Double(s: string, q: char): (r: string)
    ensures |r| >= |s|
    ensures q !in s ==> r == s
  {
    if |s| == 0 then ""
    else (if s[0] == q then [q, q] else [s[0]]) + Double(s[1..], q)
  }

  /**
   * Reads a doubled text back: `qq` stands for one `q`; a lone `q` is not
   * allowed and makes the reading fail.
   */
  function Undouble(s: string, q: char): Option<string>
    decreases |s|
  {
    if |s| == 0 then Some("")
    else if s[0] != q then
      match Undouble(s[1..], q)
      case Some(t) => Some([s[0]] + t)
      case None => None
    else if |s| >= 2 && s[1] == q then
      match Undouble(s[2..], q)
      case Some(t) => Some([q] + t)
      case None => None
    else None
  }

  lemma {:induction false} UndoubleDouble(s: string, q: char)
    ensures Undouble(Double(s, q), q) == Some(s)
    decreases |s|
  {
    if |s| > 0 {
      var d := Double(s, q);
      UndoubleDouble(s[1..], q);
      if s[0] == q {
        assert d == [q, q] + Double(s[1..], q);
        assert d[2..] == Double(s[1..], q);
        assert [q] + s[1..] == s;
      } else {
        assert d == [s[0]] + Double(s[1..], q);
        assert d[1..] == Double(s[1..], q);
        assert [s[0]] + s[1..] == s;
      }
    }
  }

  /** `s` wrapped in the delimiter `q`, with every inner `q` doubled. */
  function Delimit(s: string, q: char): (r: string)
    ensures |r| >= |s| + 2 && r[0] == q && r[|r| - 1] == q
  {
    [q] + Double(s, q) + [q]
  }

  /** Reads a delimited text back; fails unless it is well formed. */
  function Undelimit(s: string, q: char): Option<string>
  {
    if |s| >= 2 && s[0] == q && s[|s| - 1] == q then Undouble(s[1..|s| - 1], q)
    else None
  }

  /** Delimiting can always be undone, so two different texts never delimit alike. */
  lemma UndelimitDelimit(s: string, q: char)
    ensures Undelimit(Delimit(s, q), q) == Some(s)
  {
    var r := Delimit(s, q);
    assert r[1..|r| - 1] == Double(s, q);
    UndoubleDouble(s, q);
  }

  lemma DelimitInjective(a: string, b: string, q: char)
    requires Delimit(a, q) == Delimit(b, q)
    ensures a == b
  {
    UndelimitDelimit(a, q);
    UndelimitDelimit(b, q);
  }

  /**
   * Reads one delimited text from the front of `s`: the opening `q`, then
   * characters in which `qq` stands for `q`, up to the first lone `q`. Gives the
   * text read back and whatever follows the closing delimiter.
   */
  function ReadDelimited(s: string, q: char): Option<(string, string)>
  {
    if |s| > 0 && s[0] == q then ReadUntilDelimiter(s[1..], q) else None
  }

  function ReadUntilDelimiter(s: string, q: char): Option<(string, string)>
    decreases |s|
  {
    if |s| == 0 then None
    else if s[0] != q then
      match ReadUntilDelimiter(s[1..], q)
      case Some((t, rest)) => Some(([s[0]] + t, rest))
      case None => None
    else if |s| >= 2 && s[1] == q then
      match ReadUntilDelimiter(s[2..], q)
      case Some((t, rest)) => Some(([q] + t, rest))
      case None => None
    else Some(("", s[1..]))
  }

  lemma {:induction false} ReadUntilDelimiterDouble(s: string, rest: string, q: char)
    requires rest == [] || rest[0] != q
    ensures ReadUntilDelimiter(Double(s, q) + [q] + rest, q) == Some((s, rest))
    decreases |s|
  {
    var t := Double(s, q) + [q] + rest;
    if |s| == 0 {
      assert t == [q] + rest;
      assert t[1..] == rest;
    } else {
      var tail := Double(s[1..], q) + [q] + rest;
      ReadUntilDelimiterDouble(s[1..], rest, q);
      if s[0] == q {
        assert Double(s, q) == [q, q] + Double(s[1..], q);
        assert t == [q, q] + tail;
        ReadDoubledStep(tail, s[1..], rest, q);
      } else {
        assert Double(s, q) == [s[0]] + Double(s[1..], q);
        assert t == [s[0]] + tail;
        ReadPlainStep(s[0], tail, s[1..], rest, q);
      }
      assert [s[0]] + s[1..] == s;
    }
  }

  /** One ordinary character is read as itself. */
  lemma ReadPlainStep(c: char, tail: string, x: string, r: string, q: char)
    requires c != q && ReadUntilDelimiter(tail, q) == Some((x, r))
    ensures ReadUntilDelimiter([c] + tail, q) == Some(([c] + x, r))
  {
    assert ([c] + tail)[1..] == tail;
  }

  /** A doubled delimiter is read as one delimiter character. */
  lemma ReadDoubledStep(tail: string, x: string, r: string, q: char)
    requires ReadUntilDelimiter(tail, q) == Some((x, r))
    ensures ReadUntilDelimiter([q, q] + tail, q) == Some(([q] + x, r))
  {
    assert ([q, q] + tail)[2..] == tail;
  }

  /** Once the closing delimiter is followed by something, appending more text does not change what is read. */
  lemma {:induction false} ReadUntilDelimiterExtend(s: string, more: string, q: char)
    requires ReadUntilDelimiter(s, q).Some? && ReadUntilDelimiter(s, q).value.1 != []
    ensures ReadUntilDelimiter(s + more, q)
            == Some((ReadUntilDelimiter(s, q).value.0, ReadUntilDelimiter(s, q).value.1 + more))
    decreases |s|
  {
    var t := s + more;
    if s[0] != q {
      assert t[1..] == s[1..] + more;
      ReadUntilDelimiterExtend(s[1..], more, q);
    } else if |s| >= 2 && s[1] == q {
      assert t[2..] == s[2..] + more;
      ReadUntilDelimiterExtend(s[2..], more, q);
    } else {
      assert t[1..] == s[1..] + more;
    }
  }

  lemma ReadDelimitedExtend(s: string, more: string, q: char)
    requires ReadDelimited(s, q).Some? && ReadDelimited(s, q).value.1 != []
    ensures ReadDelimited(s + more, q) == Some((ReadDelimited(s, q).value.0, ReadDelimited(s, q).value.1 + more))
  {
    assert (s + more)[1..] == s[1..] + more;
    ReadUntilDelimiterExtend(s[1..], more, q);
  }

  /**
   * A delimited text reads back from the front of a longer string, leaving
   * what follows it, unless what follows starts with the delimiter itself.
   */
  lemma ReadDelimitedDelimit(s: string, rest: string, q: char)
    requires rest == [] || rest[0] != q
    ensures ReadDelimited(Delimit(s, q) + rest, q) == Some((s, rest))
  {
    assert (Delimit(s, q) + rest)[1..] == Double(s, q) + [q] + rest;
    ReadUntilDelimiterDouble(s, rest, q);
  }

  /** Rust's `parts.join(sep)`. */
  function Join(parts: seq<string>, sep: string): string
  {
    if |parts| == 0 then ""
    else if |parts| == 1 then parts[0]
    else parts[0] + sep + Join(parts[1..], sep)
  }

  /** One more part is joined on after a separator, unless it is the only part. */
  lemma {:induction false} JoinSnoc(parts: seq<string>, p: string, sep: string)
    ensures Join(parts + [p], sep) == if |parts| == 0 then p else Join(parts, sep) + sep + p
    decreases |parts|
  {
    if |parts| == 1 {
      assert parts + [p] == [parts[0], p];
      assert (parts + [p])[1..] == [p];
    } else if |parts| > 1 {
      assert (parts + [p])[1..] == parts[1..] + [p];
      JoinSnoc(parts[1..], p, sep);
    }
  }

  /**
   * In a text framed as `head + (open + Join(parts, sep) + close)`, one more
   * part goes in just before `close`, after a separator unless it is the
   * first.
   */
  lemma FramedSnocOf(s: string, s': string, head: string, open: string, parts: seq<string>, p: string, sep: string, close: string)
    requires s == head + (open + Join(parts, sep) + close)
    requires s' == head + (open + Join(parts + [p], sep) + close)
    ensures |s| >= |close| && s' == s[..|s| - |close|] + (if |parts| == 0 then "" else sep) + p + close
  {
    JoinSnoc(parts, p, sep);
    var j := Join(parts, sep);
    if |parts| == 0 {
      assert j + "" + p == p;
      FrameInsert(head, open, j, "", p, close);
    } else {
      FrameInsert(head, open, j, sep, p, close);
    }
  }

  lemma FrameInsert(head: string, open: string, j: string, a: string, p: string, close: string)
    ensures var s := head + (open + j + close);
      |s| >= |close| && head + (open + (j + a + p) + close) == s[..|s| - |close|] + a + p + close
  {
    var s := head + (open + j + close);
    assert s == (head + open + j) + close;
    assert s[..|s| - |close|] == head + open + j;
  }

  /** The concatenation of all parts, with no separator. */
  function Concat(parts: seq<string>): string
  {
    if |parts| == 0 then "" else parts[0] + Concat(parts[1..])
  }

  /** Rust's `str::starts_with`. */
  predicate StartsWith(s: string, prefix: string)
  {
    |prefix| <= |s| && s[..|prefix|] == prefix
  }

  /** A prefix of `s` stays a prefix whatever is appended to `s`. */
  lemma StartsWithExtend(s: string, prefix: string, more: string)
    requires StartsWith(s, prefix)
    ensures StartsWith(s + more, prefix)
  {
    assert (s + more)[..|prefix|] == s[..|prefix|];
  }

  /** Rust's `str::contains` for a string pattern. */
  predicate Contains(s: string, sub: string)
    decreases |s|
  {
    StartsWith(s, sub) || (|s| > 0 && Contains(s[1..], sub))
  }

  /** `sub` occurs in `s` starting at position `i`. */
  predicate OccursAt(s: string, sub: string, i: int)
  {
    0 <= i && i + |sub| <= |s| && s[i..i + |sub|] == sub
  }

  /** `Contains` holds exactly when `sub` occurs at some position of `s`. */
  lemma {:induction false} ContainsIffOccurs(s: string, sub: string)
    ensures Contains(s, sub) <==> exists i :: OccursAt(s, sub, i)
    decreases |s|
  {
    if StartsWith(s, sub) {
      assert OccursAt(s, sub, 0);
    } else if |s| > 0 {
      ContainsIffOccurs(s[1..], sub);
      if Contains(s[1..], sub) {
        var i :| OccursAt(s[1..], sub, i);
        assert s[1..][i..i + |sub|] == s[i + 1..i + 1 + |sub|];
        assert OccursAt(s, sub, i + 1);
      }
      if i :| OccursAt(s, sub, i) {
        assert i != 0;
        assert s[1..][i - 1..i - 1 + |sub|] == s[i..i + |sub|];
        assert OccursAt(s[1..], sub, i - 1);
      }
    }
  }

  // ---------------------------------------------------------------------------
  // Decimal rendering (Rust's `u32::to_string`)
  // ---------------------------------------------------------------------------

  function DigitChar(d: nat): char
    requires d < 10
  {
    ('0' as int + d) as char
  }

  /** The decimal digits of `n`, most significant first, with no leading zero. */
  function NatToString(n: nat): (r: string)
    ensures |r| > 0
    ensures forall i :: 0 <= i < |r| ==> '0' <= r[i] <= '9'
    ensures r[0] == '0' ==> n == 0
    decreases n
  {
    if n < 10 then [DigitChar(n)] else NatToString(n / 10) + [DigitChar(n % 10)]
  }

  /**
   * Reads a non-empty string of decimal digits; any other character, or an
   * empty string, is not a number. The partner of `NatToString`.
   */
  function ParseNat(s: string): (r: Option<nat>)
    ensures r.Some? ==> |s| > 0 && forall i :: 0 <= i < |s| ==> '0' <= s[i] <= '9'
  {
    if |s| == 0 then None
    else
      var c := s[|s| - 1];
      if !('0' <= c <= '9') then None
      else if |s| == 1 then Some(c as int - '0' as int)
      else
        match ParseNat(s[..|s| - 1])
        case None => None
        case Some(m) => Some(10 * m + (c as int - '0' as int))
  }

  lemma {:induction false} ParseNatToString(n: nat)
    ensures ParseNat(NatToString(n)) == Some(n)
    decreases n
  {
    if n >= 10 {
      var s := NatToString(n);
      assert s[..|s| - 1] == NatToString(n / 10);
      ParseNatToString(n / 10);
    }
  }

  /** Distinct counters render as distinct texts. */
  lemma NatToStringInjective(a: nat, b: nat)
    requires NatToString(a) == NatToString(b)
    ensures a == b
  {
    ParseNatToString(a);
    ParseNatToString(b);
  }
}
