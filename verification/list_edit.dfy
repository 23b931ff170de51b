/** The list editors of the about and hero forms: add a typed entry to a list, remove the
    entry at an index. Both compute a new list from the previous one; nothing is updated in
    place. */
module ListEdit {
  import opened Text

  /** `xs.filter((_, i) => i !== index)`: an index outside the list removes nothing. */
  function RemoveAt<T>(xs: seq<T>, index: int): (r: seq<T>)
    ensures 0 <= index < |xs| ==> r == xs[..index] + xs[index + 1..]
    ensures !(0 <= index < |xs|) ==> r == xs
  {
    if |xs| == 0 then []
    else
      var rest := RemoveAt(xs[1..], index - 1);
      assert xs == [xs[0]] + xs[1..];
      (if index == 0 then [] else [xs[0]]) + rest
  }

  /** The entry box and the list it feeds (new skill and skills, new tagline and taglines). */
  datatype Entry = Entry(items: seq<string>, input: string)

  /** `if (input.trim()) { items = [...items, input.trim()]; input = '' }`. */
  function Add(e: Entry): (r: Entry)
    ensures Trim(e.input) != "" ==> r.items == e.items + [Trim(e.input)] && r.input == ""
    ensures Trim(e.input) == "" ==> r == e
  {
    var t := Trim(e.input);
    if t != "" then Entry(e.items + [t], "") else e
  }

  /** Removing the entry just added gives back the earlier list. */
  lemma {:induction false} AddThenRemoveLast(e: Entry)
    requires Trim(e.input) != ""
    ensures RemoveAt(Add(e).items, |e.items|) == e.items
  {
  }

  /** Adding keeps every copy already there: an entry equal to an existing one is added again. */
  lemma {:induction false} AddKeepsDuplicates(e: Entry)
    requires Trim(e.input) != "" && Trim(e.input) in e.items
    ensures multiset(Add(e).items)[Trim(e.input)] == multiset(e.items)[Trim(e.input)] + 1
  {
  }

  /** Removing at a valid index takes out that one element and keeps the others in order. */
  lemma {:induction false} RemoveAtCount<T>(xs: seq<T>, index: int)
    requires 0 <= index < |xs|
    ensures |RemoveAt(xs, index)| == |xs| - 1
    ensures multiset(RemoveAt(xs, index)) + multiset{xs[index]} == multiset(xs)
  {
    var r := RemoveAt(xs, index);
    assert xs == xs[..index] + [xs[index]] + xs[index + 1..];
    assert multiset(r) == multiset(xs[..index]) + multiset(xs[index + 1..]);
  }
}
