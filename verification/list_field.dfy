/** The list fields of the admin forms. A list is edited as one text field, its items joined
    with ", " (project technologies and features) or with a newline (experience achievements),
    and read back on submit by splitting on the separator character, trimming every piece and
    dropping the empty ones. */
module ListField {
  import opened Text

  /** `xs.map(f)`: the image of every element, in place. */
  function Map<A, B>(f: A -> B, xs: seq<A>): (r: seq<B>)
    ensures |r| == |xs|
    ensures forall i :: 0 <= i < |xs| ==> r[i] == f(xs[i])
  {
    if |xs| == 0 then [] else [f(xs[0])] + Map(f, xs[1..])
  }

  /** Mapping a concatenation maps each part. */
  lemma {:induction false} MapAppend<A, B>(f: A -> B, a: seq<A>, b: seq<A>)
    ensures Map(f, a + b) == Map(f, a) + Map(f, b)
  {
    if |a| > 0 {
      assert (a + b)[0] == a[0];
      assert (a + b)[1..] == a[1..] + b;
      MapAppend(f, a[1..], b);
    } else {
      assert a + b == b;
    }
  }

  /** Mapping a list that starts with `x` starts with the image of `x`. */
  lemma {:induction false} MapCons<A, B>(f: A -> B, x: A, xs: seq<A>)
    ensures Map(f, [x] + xs) == [f(x)] + Map(f, xs)
  {
    assert ([x] + xs)[1..] == xs;
  }

  /** `pieces.map(p => p.trim())` */
  function TrimAll(ps: seq<string>): (r: seq<string>)
    ensures |r| == |ps|
    ensures forall i :: 0 <= i < |ps| ==> r[i] == Trim(ps[i])
  {
    Map(Trim, ps)
  }

  /** `pieces.filter(Boolean)`: keeps exactly the non-empty strings, in their order. */
  function DropEmpty(ps: seq<string>): (r: seq<string>)
    ensures forall p :: p in r <==> p in ps && p != ""
    ensures |r| <= |ps|
  {
    if |ps| == 0 then []
    else (if ps[0] == "" then [] else [ps[0]]) + DropEmpty(ps[1..])
  }

  /** What one list item may look like if it is to survive an edit unchanged. */
  predicate IsItem(x: string, sep: char) {
    x != "" && IsTrimmed(x) && sep !in x
  }

  /** `text.split(sep).map(t => t.trim()).filter(Boolean)`: every item it yields is
      non-empty, trimmed and free of the separator. */
  function Parse(text: string, sep: char): (r: seq<string>)
    ensures forall x :: x in r ==> IsItem(x, sep)
  {
    var pieces := Split(text, sep);
    var trimmed := TrimAll(pieces);
    forall x | x in trimmed ensures sep !in x {
      var i :| 0 <= i < |trimmed| && trimmed[i] == x;
      assert pieces[i] in pieces;
    }
    DropEmpty(trimmed)
  }

  lemma {:induction false} TrimAllAppend(a: seq<string>, b: seq<string>)
    ensures TrimAll(a + b) == TrimAll(a) + TrimAll(b)
  {
    MapAppend(Trim, a, b);
  }

  lemma {:induction false} DropEmptyAppend(a: seq<string>, b: seq<string>)
    ensures DropEmpty(a + b) == DropEmpty(a) + DropEmpty(b)
  {
    if |a| > 0 {
      assert (a + b)[0] == a[0];
      assert (a + b)[1..] == a[1..] + b;
      DropEmptyAppend(a[1..], b);
    } else {
      assert a + b == b;
    }
  }

  /** Parsing respects the separator: the items before it come first, in order, followed by
      the items after it. */
  lemma {:induction false} ParseAt(a: string, b: string, sep: char)
    ensures Parse(a + [sep] + b, sep) == Parse(a, sep) + Parse(b, sep)
  {
    SplitAt(a, b, sep);
    TrimAllAppend(Split(a, sep), Split(b, sep));
    DropEmptyAppend(TrimAll(Split(a, sep)), TrimAll(Split(b, sep)));
  }

  /** White space in front of the first piece is trimmed away with it. */
  lemma {:induction false} TrimAllPadded(pad: string, ps: seq<string>)
    requires AllSpace(pad) && |ps| > 0
    ensures TrimAll([pad + ps[0]] + ps[1..]) == TrimAll(ps)
  {
    TrimSpacePrefix(pad, ps[0]);
    MapCons(Trim, pad + ps[0], ps[1..]);
    MapCons(Trim, ps[0], ps[1..]);
    assert [ps[0]] + ps[1..] == ps;
  }

  /** White space before the first piece is trimmed away. */
  lemma {:induction false} ParsePadded(pad: string, t: string, sep: char)
    requires AllSpace(pad) && sep !in pad
    ensures Parse(pad + t, sep) == Parse(t, sep)
  {
    SplitPadded(pad, t, sep);
    TrimAllPadded(pad, Split(t, sep));
  }

  /** A single well-formed item parses to itself. */
  lemma {:induction false} ParseItem(x: string, sep: char)
    requires IsItem(x, sep)
    ensures Parse(x, sep) == [x]
  {
    SplitNoSep(x, sep);
  }

  lemma {:induction false} ParseEmpty(sep: char)
    ensures Parse("", sep) == []
  {
    var empty: seq<string> := [];
    assert Split("", sep) == [""];
    assert TrimAll([""]) == [Trim("")];
    assert AllSpace("");
    assert [""][1..] == empty;
    assert DropEmpty([""]) == [] + DropEmpty(empty);
  }

  /** An empty or all-white-space text gives the empty list. */
  lemma {:induction false} ParseBlank(s: string, sep: char)
    requires AllSpace(s)
    ensures Parse(s, sep) == []
  {
    if |s| == 0 {
      ParseEmpty(sep);
    } else {
      AllSpaceTail(s);
      ParseBlank(s[1..], sep);
      ParseSpaceHead(s, sep);
    }
  }

  lemma {:induction false} AllSpaceTail(s: string)
    requires |s| > 0 && AllSpace(s)
    ensures AllSpace(s[1..]) && IsSpace(s[0])
  {
    assert forall i :: 0 <= i < |s| - 1 ==> s[1..][i] == s[i + 1];
  }

  /** A leading white-space character, separator or not, contributes no item. */
  lemma {:induction false} ParseSpaceHead(s: string, sep: char)
    requires |s| > 0 && IsSpace(s[0])
    ensures Parse(s, sep) == Parse(s[1..], sep)
  {
    if s[0] == sep {
      var empty: string := [];
      assert s == empty + [sep] + s[1..];
      ParseAt(empty, s[1..], sep);
      ParseEmpty(sep);
    } else {
      var pad: string := [s[0]];
      assert s == pad + s[1..];
      assert AllSpace(pad);
      ParsePadded(pad, s[1..], sep);
    }
  }

  /** Round trip of an edit: the list shown as `items.join(sep + pad)` and read back gives
      the same items, provided each item is non-empty, trimmed and separator-free and the
      padding after the separator is white space. */
  lemma {:induction false} ParseJoin(items: seq<string>, sep: char, pad: string)
    requires AllSpace(pad) && sep !in pad
    requires forall x :: x in items ==> IsItem(x, sep)
    ensures Parse(Join(items, [sep] + pad), sep) == items
  {
    if |items| == 0 {
      ParseEmpty(sep);
    } else if |items| == 1 {
      ParseItem(items[0], sep);
    } else {
      var rest := Join(items[1..], [sep] + pad);
      assert Join(items, [sep] + pad) == items[0] + [sep] + (pad + rest);
      ParseJoin(items[1..], sep, pad);
      ParseAt(items[0], pad + rest, sep);
      ParsePadded(pad, rest, sep);
      ParseItem(items[0], sep);
      assert [items[0]] + items[1..] == items;
    }
  }

  /** Saving a list that was itself produced by a save changes nothing: parsing is stable
      under one more show-and-read cycle. */
  lemma {:induction false} ParseIdempotent(text: string, sep: char, pad: string)
    requires AllSpace(pad) && sep !in pad
    ensures Parse(Join(Parse(text, sep), [sep] + pad), sep) == Parse(text, sep)
  {
    ParseJoin(Parse(text, sep), sep, pad);
  }
}
