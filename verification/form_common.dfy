/** The JavaScript idioms the admin forms share: `x || d` on loaded values,
    `s || null` on submitted ones, the `parseInt(v) || 0` of number inputs, and the choice of
    request a form sends on submit. */
module FormCommon {
  import opened Wrappers

  /** `x || d` on a string that may be missing: the empty string is falsy, so it is replaced
      like a missing value. */
  function OrText(x: Option<string>, d: string): (r: string)
    ensures x.Some? && x.value != "" ==> r == x.value
    ensures x.None? || x.value == "" ==> r == d
  {
    if x.Some? && x.value != "" then x.value else d
  }

  /** `x || d` on a number that may be missing: 0 is falsy, so it is replaced like a missing
      value. */
  function OrNumber(x: Option<int>, d: int): (r: int)
    ensures x.Some? && x.value != 0 ==> r == x.value
    ensures x.None? || x.value == 0 ==> r == d
  {
    if x.Some? && x.value != 0 then x.value else d
  }

  /** `v` is what `x || d` loads from a stored text: the text itself when it is present and
      not empty, `d` otherwise. */
  predicate LoadedText(x: Option<string>, d: string, v: string) {
    && (x.Some? && x.value != "" ==> v == x.value)
    && (x.None? || x.value == "" ==> v == d)
  }

  /** `v` is what `x || d` loads from a stored number: the number itself when it is present
      and not 0, `d` otherwise. */
  predicate LoadedNumber(x: Option<int>, d: int, v: int) {
    && (x.Some? && x.value != 0 ==> v == x.value)
    && (x.None? || x.value == 0 ==> v == d)
  }

  /** `s || null` on a submitted text field: the empty string is sent as `null`. */
  function EmptyToNull(s: string): (r: Option<string>)
    ensures r.None? <==> s == ""
    ensures r.Some? ==> r.value == s
  {
    if s == "" then None else Some(s)
  }

  /** Sending a field as `s || null` and loading it back with `|| ''` gives back the text. */
  lemma {:induction false} EmptyToNullThenLoad(s: string)
    ensures OrText(EmptyToNull(s), "") == s
  {
  }

  /** Loading with `|| ''` and sending back with `|| null` gives back the stored value,
      unless that value was the empty string (which comes back as `null`). */
  lemma {:induction false} LoadThenEmptyToNull(x: Option<string>)
    requires x.None? || x.value != ""
    ensures EmptyToNull(OrText(x, "")) == x
  {
  }

  /** `parseInt(v) || 0`: `parsed` is the parse of the input, `None` for NaN. A NaN entry
      and a 0 entry both become 0; any other number is kept. */
  function NumberEntry(parsed: Option<int>): (r: int)
    ensures parsed.None? ==> r == 0
    ensures parsed.Some? ==> r == parsed.value
  {
    OrNumber(parsed, 0)
  }

  datatype Verb = Post | Put

  /** A request the form sends: verb, URL and bearer token. */
  datatype Request = Request(verb: Verb, url: string, token: string)

  /** The submit of the collection forms. Without a stored token (missing, or the empty
      string, which `!token` also rejects) nothing is sent. When
      editing a document (`editing` is its id) the request is a PUT to
      `<api>/api/<resource>/<id>`; otherwise a POST to `<api>/api/<resource>`. */
  function SubmitRequest(api: string, resource: string, editing: Option<string>,
                         token: Option<string>): (r: Option<Request>)
    ensures r.None? <==> token.None? || token.value == ""
    ensures r.Some? ==> r.value.token == token.value
    ensures r.Some? ==> (r.value.verb == Put <==> editing.Some?)
    ensures r.Some? && editing.Some? ==> r.value.url == api + "/api/" + resource + "/" + editing.value
    ensures r.Some? && editing.None? ==> r.value.url == api + "/api/" + resource
  {
    if token.None? || token.value == "" then None
    else if editing.Some? then Some(Request(Put, api + "/api/" + resource + "/" + editing.value, token.value))
    else Some(Request(Post, api + "/api/" + resource, token.value))
  }
}
