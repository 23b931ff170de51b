/** The document store behind the content routes, and the routes themselves. A `Collection`
    holds the documents of one content type (projects, experiences, certificates, tech-stack
    items) and answers the six routes every one of those routers declares; a `Singleton` holds
    a section that the site shows once (about, hero, contact) and answers its four routes.
    The documents are kept in insertion order, which is the order `findOne` scans them in. */
module Store {
  import opened Wrappers
  import opened Records
  import opened Ordering

  /** The `:id` route parameter: a string that casts to an object id, or one that does not
      (the store then throws a cast error, which the route's catch turns into a 500). */
  datatype RouteId = ObjectId(id: Id) | Malformed

  /** `res.status(status).json({ success, message, data })`; `data` is absent when the route
      sends none. */
  datatype Reply<D> = Reply(status: nat, success: bool, message: string, data: Option<D>)

  /** `res.json({ success, count, data })` of the two list routes. */
  datatype ListReply<T> = ListReply(status: nat, success: bool, count: nat, data: seq<Doc<T>>)

  /** The documents of `s` whose publish flag is set, in the order of `s`. */
  function Published<T(!new)>(s: seq<Doc<T>>): (r: seq<Doc<T>>)
    ensures forall d :: d in r <==> d in s && d.isPublished
    ensures |r| <= |s|
  {
    if |s| == 0 then []
    else (if s[0].isPublished then [s[0]] else []) + Published(s[1..])
  }

  predicate UniqueIds<T(!new)>(s: seq<Doc<T>>) {
    forall i, j :: 0 <= i < j < |s| ==> s[i].id != s[j].id
  }

  /** `findById`: the position of the document with that id, if there is one. */
  function IndexOf<T(!new)>(s: seq<Doc<T>>, id: Id): (r: Option<nat>)
    ensures r.Some? ==> r.value < |s| && s[r.value].id == id
    ensures r.None? <==> forall d :: d in s ==> d.id != id
  {
    if |s| == 0 then None
    else if s[0].id == id then Some(0)
    else
      var k := IndexOf(s[1..], id);
      assert s == [s[0]] + s[1..];
      if k.Some? then Some(k.value + 1) else None
  }

  /** With unique ids, the lookup of a document's id finds that document's place. */
  lemma {:induction false} IndexOfUnique<T(!new)>(s: seq<Doc<T>>, k: nat)
    requires UniqueIds(s) && k < |s|
    ensures IndexOf(s, s[k].id) == Some(k)
  {
    assert s[k] in s;
  }

  /** `findByIdAndDelete`: the documents other than the one with that id, in order. */
  function Without<T(!new)>(s: seq<Doc<T>>, id: Id): (r: seq<Doc<T>>)
    ensures forall d :: d in r <==> d in s && d.id != id
    ensures |r| <= |s|
  {
    if |s| == 0 then []
    else (if s[0].id == id then [] else [s[0]]) + Without(s[1..], id)
  }

  /** The route's cast failure, validation failure or store failure: all end in the catch. */
  function Failure<D>(verb: string, noun: string): (r: Reply<D>)
    ensures r.status == 500 && !r.success && r.data.None?
  {
    Reply(500, false, "Failed to " + verb + " " + noun, None)
  }

  function NotFound<D>(title: string): (r: Reply<D>)
    ensures r.status == 404 && !r.success && r.data.None?
  {
    Reply(404, false, title + " not found", None)
  }

  /** One content collection and its router. `valid` is what the schema's validators admit,
      `before` the router's `.sort(...)` key, and the two nouns are the ones its messages use
      ("Project" / "project", "Tech stack item" / "tech stack item"). */
  class Collection<T(!new)> {
    var docs: seq<Doc<T>>
    var nextId: Id
    const valid: T -> bool
    const before: (Doc<T>, Doc<T>) -> bool
    const title: string
    const noun: string

    /** Ids are unique and below the next one handed out, every stored document passes the
        validators, and the sort key is a total preorder. */
    ghost predicate Valid()
      reads this
    {
      && TotalPreorder(before)
      && UniqueIds(docs)
      && (forall d :: d in docs ==> d.id < nextId && valid(d.fields))
    }

    constructor (valid: T -> bool, before: (Doc<T>, Doc<T>) -> bool,
                 title: string, noun: string)
      requires TotalPreorder(before)
      ensures Valid()
      ensures docs == [] && this.valid == valid && this.before == before
      ensures this.title == title && this.noun == noun
    {
      docs := [];
      nextId := 0;
      this.valid := valid;
      this.before := before;
      this.title := title;
      this.noun := noun;
    }

    /** `GET /`: the published documents, every one of them exactly once, in sort order. */
    method ListPublished() returns (r: ListReply<T>)
      requires Valid()
      ensures r.status == 200 && r.success
      ensures r.count == |r.data|
      ensures multiset(r.data) == multiset(Published(docs))
      ensures forall d :: d in r.data <==> d in docs && d.isPublished
      ensures Sorted(r.data, before)
    {
      var found := Published(docs);
      var sorted := SortBy(found, before);
      assert forall d :: d in sorted <==> d in multiset(found);
      r := ListReply(200, true, |sorted|, sorted);
    }

    /** `GET /all`: every document, published or not, exactly once, in sort order. */
    method ListAll() returns (r: ListReply<T>)
      requires Valid()
      ensures r.status == 200 && r.success
      ensures r.count == |r.data|
      ensures multiset(r.data) == multiset(docs)
      ensures Sorted(r.data, before)
    {
      var sorted := SortBy(docs, before);
      r := ListReply(200, true, |sorted|, sorted);
    }

    /** `GET /:id`: the document with that id, 404 when there is none, 500 when the id does
        not cast. */
    method Get(id: RouteId) returns (r: Reply<Doc<T>>)
      requires Valid()
      ensures id.Malformed? ==> r == Failure("fetch", noun)
      ensures id.ObjectId? && (forall d :: d in docs ==> d.id != id.id) ==> r == NotFound(title)
      ensures id.ObjectId? && (exists d :: d in docs && d.id == id.id) ==>
        r.status == 200 && r.success && r.data.Some? && r.data.value in docs && r.data.value.id == id.id
    {
      if id.Malformed? {
        return Failure("fetch", noun);
      }
      var k := IndexOf(docs, id.id);
      if k.None? {
        return NotFound(title);
      }
      r := Reply(200, true, "", Some(docs[k.value]));
    }

    /** `POST /`: `body` is `new Model(req.body)`, or the cast error it raised. A cast or
        validation error is a 500 that stores nothing; otherwise the document is stored under
        a fresh id with creation time `now`. */
    method Create(body: Result<Draft<T>>, now: nat) returns (r: Reply<Doc<T>>)
      requires Valid()
      modifies this
      ensures Valid()
      ensures body.Err? || !valid(body.value.fields) ==>
        r == Failure("create", noun) && docs == old(docs) && nextId == old(nextId)
      ensures body.Ok? && valid(body.value.fields) ==>
        var d := Doc(old(nextId), now, body.value.isPublished, body.value.fields);
        && docs == old(docs) + [d] && nextId == old(nextId) + 1
        && r == Reply(201, true, title + " created successfully", Some(d))
    {
      if body.Err? || !valid(body.value.fields) {
        return Failure("create", noun);
      }
      var d := Doc(nextId, now, body.value.isPublished, body.value.fields);
      docs := docs + [d];
      nextId := nextId + 1;
      r := Reply(201, true, title + " created successfully", Some(d));
    }

    /** `PUT /:id` (`findByIdAndUpdate` with `new` and `runValidators`): the body's fields and
        publish flag replace the document's, which keeps its id, creation time and position.
        A malformed id or a body the validators reject is a 500, an unknown id a 404. */
    method Update(id: RouteId, body: Result<Draft<T>>) returns (r: Reply<Doc<T>>)
      requires Valid()
      modifies this
      ensures Valid()
      ensures nextId == old(nextId)
      ensures id.Malformed? || body.Err? || !valid(body.value.fields) ==>
        r == Failure("update", noun) && docs == old(docs)
      ensures id.ObjectId? && body.Ok? && valid(body.value.fields) ==>
        match IndexOf(old(docs), id.id)
        case None => r == NotFound(title) && docs == old(docs)
        case Some(k) =>
          var d := Doc(id.id, old(docs)[k].createdAt, body.value.isPublished, body.value.fields);
          && docs == old(docs)[k := d]
          && r == Reply(200, true, title + " updated successfully", Some(d))
    {
      if id.Malformed? || body.Err? || !valid(body.value.fields) {
        return Failure("update", noun);
      }
      var k := IndexOf(docs, id.id);
      if k.None? {
        return NotFound(title);
      }
      var d := Doc(id.id, docs[k.value].createdAt, body.value.isPublished, body.value.fields);
      docs := docs[k.value := d];
      r := Reply(200, true, title + " updated successfully", Some(d));
    }

    /** `DELETE /:id`: removes the document with that id; 404 when there is none. */
    method Delete(id: RouteId) returns (r: Reply<Doc<T>>)
      requires Valid()
      modifies this
      ensures Valid()
      ensures nextId == old(nextId)
      ensures id.Malformed? ==> r == Failure("delete", noun) && docs == old(docs)
      ensures id.ObjectId? && (forall d :: d in old(docs) ==> d.id != id.id) ==>
        r == NotFound(title) && docs == old(docs)
      ensures id.ObjectId? && (exists d :: d in old(docs) && d.id == id.id) ==>
        r == Reply(200, true, title + " deleted successfully", None) && docs == Without(old(docs), id.id)
    {
      if id.Malformed? {
        return Failure("delete", noun);
      }
      var k := IndexOf(docs, id.id);
      if k.None? {
        return NotFound(title);
      }
      WithoutKeepsUnique(docs, id.id);
      docs := Without(docs, id.id);
      r := Reply(200, true, title + " deleted successfully", None);
    }
  }

  lemma {:induction false} WithoutKeepsUnique<T(!new)>(s: seq<Doc<T>>, id: Id)
    requires UniqueIds(s)
    ensures UniqueIds(Without(s, id))
  {
    if |s| > 0 {
      WithoutKeepsUnique(s[1..], id);
      var rest := Without(s[1..], id);
      if s[0].id != id {
        forall j | 0 <= j < |rest| ensures s[0].id != rest[j].id {
          assert rest[j] in s[1..];
        }
      }
    }
  }

  /** A document just created is the one `GET /:id` finds under its id. */
  lemma {:induction false} FindAfterCreate<T(!new)>(s: seq<Doc<T>>, d: Doc<T>)
    requires forall e :: e in s ==> e.id < d.id
    ensures IndexOf(s + [d], d.id) == Some(|s|)
  {
    if |s| > 0 {
      FindAfterCreate(s[1..], d);
      assert (s + [d])[1..] == s[1..] + [d];
    }
  }

  /** After a delete, no document carries that id any more. */
  lemma {:induction false} FindAfterDelete<T(!new)>(s: seq<Doc<T>>, id: Id)
    ensures IndexOf(Without(s, id), id).None?
  {
  }

  /** An update finds the document at the same place, and leaves every other id where it was. */
  lemma {:induction false} FindAfterUpdate<T(!new)>(s: seq<Doc<T>>, k: nat, d: Doc<T>, other: Id)
    requires UniqueIds(s) && k < |s| && d.id == s[k].id
    ensures IndexOf(s[k := d], d.id) == Some(k)
    ensures other != d.id ==> IndexOf(s[k := d], other) == IndexOf(s, other)
  {
    if k == 0 {
      assert s[k := d][1..] == s[1..];
      if other != d.id {
        assert s[0 := d][0].id != other;
      }
    } else {
      FindAfterUpdate(s[1..], k - 1, d, other);
      assert s[k := d][1..] == s[1..][k - 1 := d];
      assert s[1..][k - 1] == s[k];
    }
  }

  /** The public list is the admin list without the unpublished documents. */
  lemma {:induction false} PublishedSubset<T(!new)>(s: seq<Doc<T>>)
    ensures multiset(Published(s)) <= multiset(s)
  {
    if |s| > 0 {
      PublishedSubset(s[1..]);
      assert s == [s[0]] + s[1..];
    }
  }

  /** One section shown once on the site, and its router. */
  class Singleton<T(!new)> {
    var docs: seq<Doc<T>>
    var nextId: Id
    const valid: T -> bool
    /** "About", "Hero", "Contact": the noun of the 404 message. */
    const title: string
    /** "about", "hero", "contact": the noun of the other messages. */
    const noun: string

    /** The routes never store a second document, and every stored one passes the validators. */
    ghost predicate Valid()
      reads this
    {
      && |docs| <= 1
      && (forall d :: d in docs ==> d.id < nextId && valid(d.fields))
    }

    constructor (valid: T -> bool, title: string, noun: string)
      ensures Valid() && docs == []
      ensures this.valid == valid && this.title == title && this.noun == noun
    {
      docs := [];
      nextId := 0;
      this.valid := valid;
      this.title := title;
      this.noun := noun;
    }

    /** `GET /` (`findOne({ isPublished: true })`): the first published document, or null. */
    method PublicGet() returns (r: Reply<Doc<T>>)
      requires Valid()
      ensures r.status == 200 && r.success
      ensures r.data.Some? <==> exists d :: d in docs && d.isPublished
      ensures r.data.Some? ==> r.data.value in docs && r.data.value.isPublished
    {
      var found := Published(docs);
      r := Reply(200, true, "", if |found| > 0 then Some(found[0]) else None);
    }

    /** `GET /admin` (`findOne()`): the stored document, published or not, or null. */
    method AdminGet() returns (r: Reply<Doc<T>>)
      requires Valid()
      ensures r.status == 200 && r.success
      ensures r.data.Some? <==> |docs| > 0
      ensures r.data.Some? ==> r.data.value in docs
    {
      r := Reply(200, true, "", if |docs| > 0 then Some(docs[0]) else None);
    }

    /** `POST /`: replaces the stored document's fields and flag (200) when there is one,
        creates the document (201) when there is none; a body the validators reject is a 400
        that stores nothing. There is never a second document. */
    method Save(body: Result<Draft<T>>, now: nat) returns (r: Reply<Doc<T>>)
      requires Valid()
      modifies this
      ensures Valid()
      ensures body.Err? || !valid(body.value.fields) ==>
        r == Reply(400, false, "Error saving " + noun + " section", None)
        && docs == old(docs) && nextId == old(nextId)
      ensures body.Ok? && valid(body.value.fields) && |old(docs)| > 0 ==>
        var d := Doc(old(docs)[0].id, old(docs)[0].createdAt, body.value.isPublished, body.value.fields);
        docs == [d] && nextId == old(nextId) && r == Reply(200, true, "", Some(d))
      ensures body.Ok? && valid(body.value.fields) && |old(docs)| == 0 ==>
        var d := Doc(old(nextId), now, body.value.isPublished, body.value.fields);
        docs == [d] && nextId == old(nextId) + 1 && r == Reply(201, true, "", Some(d))
    {
      if body.Err? || !valid(body.value.fields) {
        return Reply(400, false, "Error saving " + noun + " section", None);
      }
      var d;
      if |docs| > 0 {
        d := Doc(docs[0].id, docs[0].createdAt, body.value.isPublished, body.value.fields);
        docs := [d];
        r := Reply(200, true, "", Some(d));
      } else {
        d := Doc(nextId, now, body.value.isPublished, body.value.fields);
        docs := [d];
        nextId := nextId + 1;
        r := Reply(201, true, "", Some(d));
      }
    }

    /** `PATCH /publish`: flips the publish flag of the stored document; 404 when there is none. */
    method TogglePublish() returns (r: Reply<Doc<T>>)
      requires Valid()
      modifies this
      ensures Valid()
      ensures nextId == old(nextId)
      ensures |old(docs)| == 0 ==>
        docs == old(docs) && r == Reply(404, false, title + " section not found", None)
      ensures |old(docs)| > 0 ==>
        docs == [Flip(old(docs)[0])] && r == Reply(200, true, "", Some(Flip(old(docs)[0])))
    {
      if |docs| == 0 {
        return Reply(404, false, title + " section not found", None);
      }
      var d := Flip(docs[0]);
      docs := [d];
      r := Reply(200, true, "", Some(d));
    }
  }

  /** `doc.isPublished = !doc.isPublished`. */
  function Flip<T(!new)>(d: Doc<T>): (r: Doc<T>)
    ensures r.isPublished != d.isPublished
    ensures r.id == d.id && r.createdAt == d.createdAt && r.fields == d.fields
  {
    d.(isPublished := !d.isPublished)
  }

  /** Toggling twice gives back the document as it was. */
  lemma {:induction false} FlipTwice<T(!new)>(d: Doc<T>)
    ensures Flip(Flip(d)) == d
  {
  }

  /** A toggle makes the section visible to the public route exactly when it was hidden. */
  lemma {:induction false} ToggleVisibility<T(!new)>(d: Doc<T>)
    ensures |Published([Flip(d)])| == 1 <==> |Published([d])| == 0
  {
    assert [Flip(d)][1..] == [] && [d][1..] == [];
  }
}
