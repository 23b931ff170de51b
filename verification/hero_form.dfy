/** The hero-section editor: the section being edited plus the text of the tagline box. Every
    handler computes the next state from the previous one. */
module HeroForm {
  import opened Text
  import opened Records
  import opened ListEdit
  import Store

  datatype Editor = Editor(data: Draft<Hero>, newTagline: string)

  const Blank: Editor :=
    Editor(Draft(Hero("", [], "", "", "", SocialLinks("", "", "", "")), true), "")

  function WithTaglines(e: Editor, taglines: seq<string>): Editor {
    e.(data := e.data.(fields := e.data.fields.(taglines := taglines)))
  }

  /** Everything of the section except its taglines. */
  predicate SameButTaglines(a: Draft<Hero>, b: Draft<Hero>) {
    a.fields.(taglines := []) == b.fields.(taglines := []) && a.isPublished == b.isPublished
  }

  /** `addTagline`: appends the trimmed entry and clears the box when it has text; a blank
      entry changes nothing. */
  function AddTagline(e: Editor): (r: Editor)
    ensures Trim(e.newTagline) != "" ==>
      r.data.fields.taglines == e.data.fields.taglines + [Trim(e.newTagline)] && r.newTagline == ""
    ensures Trim(e.newTagline) == "" ==> r == e
    ensures SameButTaglines(r.data, e.data)
  {
    var added := Add(Entry(e.data.fields.taglines, e.newTagline));
    WithTaglines(e, added.items).(newTagline := added.input)
  }

  /** `removeTagline(index)`: drops the tagline at `index`, the others keep their order; any
      other index changes nothing. */
  function RemoveTagline(e: Editor, index: int): (r: Editor)
    ensures 0 <= index < |e.data.fields.taglines| ==>
      r.data.fields.taglines == e.data.fields.taglines[..index] + e.data.fields.taglines[index + 1..]
    ensures !(0 <= index < |e.data.fields.taglines|) ==> r == e
    ensures SameButTaglines(r.data, e.data) && r.newTagline == e.newTagline
  {
    WithTaglines(e, RemoveAt(e.data.fields.taglines, index))
  }

  datatype SocialKey = GitHub | LinkedIn | Twitter | Facebook

  function LinkOf(l: SocialLinks, key: SocialKey): string {
    match key
    case GitHub => l.github
    case LinkedIn => l.linkedin
    case Twitter => l.twitter
    case Facebook => l.facebook
  }

  /** The four social-link inputs: `{ ...socialLinks, [key]: value }`. That link is set; the
      other three links, the rest of the section and the tagline box stay as they were. */
  function SetSocialLink(e: Editor, key: SocialKey, value: string): (r: Editor)
    ensures LinkOf(r.data.fields.socialLinks, key) == value
    ensures forall k :: k != key ==>
      LinkOf(r.data.fields.socialLinks, k) == LinkOf(e.data.fields.socialLinks, k)
    ensures r.data.fields.(socialLinks := e.data.fields.socialLinks) == e.data.fields
    ensures r.data.isPublished == e.data.isPublished && r.newTagline == e.newTagline
  {
    var l := e.data.fields.socialLinks;
    var l' := match key
      case GitHub => l.(github := value)
      case LinkedIn => l.(linkedin := value)
      case Twitter => l.(twitter := value)
      case Facebook => l.(facebook := value);
    e.(data := e.data.(fields := e.data.fields.(socialLinks := l')))
  }

  /** Two edits of different links do not interfere: they can be made in either order. */
  lemma {:induction false} SocialLinkEditsCommute(e: Editor, k1: SocialKey, v1: string, k2: SocialKey, v2: string)
    requires k1 != k2
    ensures SetSocialLink(SetSocialLink(e, k1, v1), k2, v2) == SetSocialLink(SetSocialLink(e, k2, v2), k1, v1)
  {
    var a := SetSocialLink(SetSocialLink(e, k1, v1), k2, v2).data.fields.socialLinks;
    var b := SetSocialLink(SetSocialLink(e, k2, v2), k1, v1).data.fields.socialLinks;
    assert LinkOf(a, GitHub) == LinkOf(b, GitHub) && LinkOf(a, LinkedIn) == LinkOf(b, LinkedIn);
    assert LinkOf(a, Twitter) == LinkOf(b, Twitter) && LinkOf(a, Facebook) == LinkOf(b, Facebook);
  }

  /** Adding a tagline and removing it again gives back the taglines as they were. */
  lemma {:induction false} AddThenRemoveTagline(e: Editor)
    requires Trim(e.newTagline) != ""
    ensures RemoveTagline(AddTagline(e), |e.data.fields.taglines|).data == e.data
  {
    var xs := e.data.fields.taglines;
    AddThenRemoveLast(Entry(xs, e.newTagline));
    var r := RemoveTagline(AddTagline(e), |xs|);
    assert r.data.fields.taglines == xs;
    assert r.data.fields == e.data.fields;
  }

  /** The fetch from `GET /admin`: the section replaces the editor's data only when the reply
      succeeded and carries a section. */
  function ApplyFetched(e: Editor, reply: Store.Reply<Doc<Hero>>): (r: Editor)
    ensures reply.success && reply.data.Some? ==>
      r.data == Draft(reply.data.value.fields, reply.data.value.isPublished)
    ensures !(reply.success && reply.data.Some?) ==> r == e
    ensures r.newTagline == e.newTagline
  {
    if reply.success && reply.data.Some? then
      e.(data := Draft(reply.data.value.fields, reply.data.value.isPublished))
    else e
  }
}
