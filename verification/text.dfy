/** The JavaScript string primitives the admin forms rely on: `String.prototype.trim`,
    `String.prototype.split` with a one-character separator, and `Array.prototype.join`. */
module Text {

  /** The ECMAScript WhiteSpace and LineTerminator code points: exactly what `trim` removes. */
  predicate IsSpace(c: char) {
    || c == '\t' || c == '\n' || c == '\U{B}' || c == '\U{C}' || c == '\r' || c == ' '
    || c == '\U{A0}' || c == '\U{1680}' || ('\U{2000}' <= c <= '\U{200A}')
    || c == '\U{2028}' || c == '\U{2029}' || c == '\U{202F}' || c == '\U{205F}'
    || c == '\U{3000}' || c == '\U{FEFF}'
  }

  predicate AllSpace(s: string) {
    forall i :: 0 <= i < |s| ==> IsSpace(s[i])
  }

  /** A string that `trim` leaves alone: no white space at either end. */
  predicate IsTrimmed(s: string) {
    |s| == 0 || (!IsSpace(s[0]) && !IsSpace(s[|s| - 1]))
  }

  /** Drops the leading white space: what is left is a suffix of `s`. */
  function TrimStart(s: string): (r: string)
    ensures |r| <= |s| && r == s[|s| - |r|..]
    ensures |r| == 0 || !IsSpace(r[0])
    ensures AllSpace(s[..|s| - |r|])
  {
    if |s| > 0 && IsSpace(s[0]) then TrimStart(s[1..]) else s
  }

  /** Drops the trailing white space: what is left is a prefix of `s`. */
  function TrimEnd(s: string): (r: string)
    ensures |r| <= |s| && r == s[..|r|]
    ensures |r| == 0 || !IsSpace(r[|r| - 1])
    ensures AllSpace(s[|r|..])
  {
    if |s| > 0 && IsSpace(s[|s| - 1]) then TrimEnd(s[..|s| - 1]) else s
  }

  /** `s.trim()`: the result has no white space at its ends, is `s` itself exactly when `s`
      was already trimmed, uses only characters of `s`, and is empty exactly when `s` is
      nothing but white space. `TrimCutsEnds` adds that it is the middle of `s` once the
      white space at the two ends is cut off. */
  function Trim(s: string): (r: string)
    ensures IsTrimmed(r)
    ensures IsTrimmed(s) <==> r == s
    ensures forall c :: c in r ==> c in s
    ensures r == "" <==> AllSpace(s)
  {
    TrimShape(s);
    TrimEnd(TrimStart(s))
  }

  /** `trim` removes exactly the white space at the two ends: what it leaves is a slice of
      `s` with nothing but white space before and after it. */
  lemma {:induction false} TrimCutsEnds(s: string)
    ensures exists i, j :: 0 <= i <= j <= |s| && Trim(s) == s[i..j] && AllSpace(s[..i]) && AllSpace(s[j..])
  {
    var t := TrimStart(s);
    var r := TrimEnd(t);
    assert Trim(s) == r;
    var i := |s| - |t|;
    var j := i + |r|;
    assert s[i..] == t;
    assert r == t[..|r|] == s[i..j];
    assert s[j..] == t[|r|..];
    assert AllSpace(s[..i]) && AllSpace(s[j..]);
  }

  lemma {:induction false} TrimShape(s: string)
    ensures var r := TrimEnd(TrimStart(s));
      && IsTrimmed(r) && (IsTrimmed(s) <==> r == s)
      && (forall c :: c in r ==> c in s) && (r == "" <==> AllSpace(s))
  {
    var t := TrimStart(s);
    var r := TrimEnd(t);
    assert |r| > 0 ==> r[0] == t[0];
    assert r == "" ==> t == "";
    assert r == "" ==> AllSpace(s) by {
      assert s[..|s|] == s;
    }
    assert AllSpace(s) ==> t == "";
  }

  /** `s.split(sep)`: the pieces of `s` between occurrences of `sep`; never empty
      (splitting the empty string gives one empty piece). */
  function Split(s: string, sep: char): (r: seq<string>)
    ensures |r| >= 1
    ensures forall p :: p in r ==> sep !in p
  {
    if |s| == 0 then [""]
    else
      var rest := Split(s[1..], sep);
      if s[0] == sep then [""] + rest
      else [[s[0]] + rest[0]] + rest[1..]
  }

  /** `xs.join(d)`: the items with `d` between neighbours; the empty list gives "". */
  function Join(xs: seq<string>, d: string): string
  {
    if |xs| == 0 then ""
    else if |xs| == 1 then xs[0]
    else xs[0] + d + Join(xs[1..], d)
  }

  /** Splitting at a separator splits the two sides independently. */
  lemma {:induction false} SplitAt(a: string, b: string, sep: char)
    ensures Split(a + [sep] + b, sep) == Split(a, sep) + Split(b, sep)
  {
    if |a| == 0 {
      assert a + [sep] + b == [sep] + b;
      assert ([sep] + b)[1..] == b;
    } else {
      assert (a + [sep] + b)[1..] == a[1..] + [sep] + b;
      SplitAt(a[1..], b, sep);
    }
  }

  /** A string without the separator is a single piece. */
  lemma {:induction false} SplitNoSep(a: string, sep: char)
    requires sep !in a
    ensures Split(a, sep) == [a]
  {
    if |a| > 0 {
      SplitNoSep(a[1..], sep);
      assert [a[0]] + a[1..] == a;
    }
  }

  /** A separator-free prefix only lengthens the first piece. */
  lemma {:induction false} SplitPadded(pad: string, t: string, sep: char)
    requires sep !in pad
    ensures Split(pad + t, sep) == [pad + Split(t, sep)[0]] + Split(t, sep)[1..]
  {
    if |pad| > 0 {
      assert (pad + t)[1..] == pad[1..] + t;
      SplitPadded(pad[1..], t, sep);
      assert [pad[0]] + (pad[1..] + Split(t, sep)[0]) == pad + Split(t, sep)[0];
    } else {
      assert pad + t == t;
      assert pad + Split(t, sep)[0] == Split(t, sep)[0];
      assert Split(t, sep) == [Split(t, sep)[0]] + Split(t, sep)[1..];
    }
  }

  /** Joining the pieces with the separator gives back the string: `split` loses nothing. */
  lemma {:induction false} JoinSplit(s: string, sep: char)
    ensures Join(Split(s, sep), [sep]) == s
  {
    if |s| > 0 {
      var rest := Split(s[1..], sep);
      JoinSplit(s[1..], sep);
      if s[0] == sep {
        assert Split(s, sep)[1..] == rest;
      } else {
        var first := [s[0]] + rest[0];
        assert Split(s, sep)[1..] == rest[1..];
        if |rest| > 1 {
          assert Join(Split(s, sep), [sep]) == first + [sep] + Join(rest[1..], [sep]);
          assert Join(rest, [sep]) == rest[0] + [sep] + Join(rest[1..], [sep]);
        }
        assert [s[0]] + s[1..] == s;
      }
    }
  }

  /** Splitting a join of separator-free items gives the items back. */
  lemma {:induction false} SplitJoin(xs: seq<string>, sep: char)
    requires |xs| >= 1
    requires forall x :: x in xs ==> sep !in x
    ensures Split(Join(xs, [sep]), sep) == xs
  {
    if |xs| == 1 {
      SplitNoSep(xs[0], sep);
    } else {
      SplitJoin(xs[1..], sep);
      SplitAt(xs[0], Join(xs[1..], [sep]), sep);
      SplitNoSep(xs[0], sep);
      assert [xs[0]] + xs[1..] == xs;
    }
  }

  /** Leading white space does not change the trimmed result. */
  lemma {:induction false} TrimSpacePrefix(pad: string, t: string)
    requires AllSpace(pad)
    ensures Trim(pad + t) == Trim(t)
  {
    TrimStartSpacePrefix(pad, t);
  }

  lemma {:induction false} TrimStartSpacePrefix(pad: string, t: string)
    requires AllSpace(pad)
    ensures TrimStart(pad + t) == TrimStart(t)
  {
    if |pad| > 0 {
      assert (pad + t)[0] == pad[0];
      assert (pad + t)[1..] == pad[1..] + t;
      TrimStartSpacePrefix(pad[1..], t);
    } else {
      assert pad + t == t;
    }
  }
}
