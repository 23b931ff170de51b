/** The about-section editor: the section being edited plus the text of the skill box. Every
    handler computes the next state from the previous one. */
module AboutForm {
  import opened Text
  import opened Records
  import opened ListEdit
  import Store

  datatype Editor = Editor(data: Draft<About>, newSkill: string)

  const Blank: Editor := Editor(Draft(About("", "", [], []), true), "")

  /** The fields of an achievement the editor can set one at a time. */
  datatype AchievementField = Icon | Title | Description | Year | Location

  function FieldOf(a: Achievement, field: AchievementField): string {
    match field
    case Icon => a.icon
    case Title => a.title
    case Description => a.description
    case Year => a.year
    case Location => a.location
  }

  /** `{ ...ach, [field]: value }`: that field set, the other four kept. */
  function SetField(a: Achievement, field: AchievementField, value: string): (r: Achievement)
    ensures FieldOf(r, field) == value
    ensures forall g :: g != field ==> FieldOf(r, g) == FieldOf(a, g)
  {
    match field
    case Icon => a.(icon := value)
    case Title => a.(title := value)
    case Description => a.(description := value)
    case Year => a.(year := value)
    case Location => a.(location := value)
  }

  /** Replaces the skills and achievements of the edited section, keeping the rest. */
  function WithLists(e: Editor, skills: seq<string>, achievements: seq<Achievement>): Editor {
    e.(data := e.data.(fields := e.data.fields.(skills := skills, achievements := achievements)))
  }

  /** `addSkill`: appends the trimmed entry and clears the box when it has text; a blank
      entry changes nothing. Duplicates are not removed. Bio, location, achievements and the
      publish flag are untouched. */
  function AddSkill(e: Editor): (r: Editor)
    ensures Trim(e.newSkill) != "" ==>
      r.data.fields.skills == e.data.fields.skills + [Trim(e.newSkill)] && r.newSkill == ""
    ensures Trim(e.newSkill) == "" ==> r == e
    ensures r.data.fields.bio == e.data.fields.bio && r.data.fields.location == e.data.fields.location
    ensures r.data.fields.achievements == e.data.fields.achievements
    ensures r.data.isPublished == e.data.isPublished
  {
    var added := Add(Entry(e.data.fields.skills, e.newSkill));
    WithLists(e, added.items, e.data.fields.achievements).(newSkill := added.input)
  }

  /** `removeSkill(index)`: drops the skill at `index`; any other index changes nothing. */
  function RemoveSkill(e: Editor, index: int): (r: Editor)
    ensures 0 <= index < |e.data.fields.skills| ==>
      r.data.fields.skills == e.data.fields.skills[..index] + e.data.fields.skills[index + 1..]
    ensures !(0 <= index < |e.data.fields.skills|) ==> r == e
    ensures r.data.fields.bio == e.data.fields.bio && r.data.fields.location == e.data.fields.location
    ensures r.data.fields.achievements == e.data.fields.achievements
    ensures r.data.isPublished == e.data.isPublished && r.newSkill == e.newSkill
  {
    WithLists(e, RemoveAt(e.data.fields.skills, index), e.data.fields.achievements)
  }

  const EmptyAchievement: Achievement := Achievement("", "", "", "", "")

  /** `addAchievement`: one more achievement at the end, with every field empty. */
  function AddAchievement(e: Editor): (r: Editor)
    ensures r.data.fields.achievements == e.data.fields.achievements + [EmptyAchievement]
    ensures r.data.fields.skills == e.data.fields.skills
    ensures r.data.fields.bio == e.data.fields.bio && r.data.fields.location == e.data.fields.location
    ensures r.data.isPublished == e.data.isPublished && r.newSkill == e.newSkill
  {
    WithLists(e, e.data.fields.skills, e.data.fields.achievements + [EmptyAchievement])
  }

  /** `updateAchievement(index, field, value)`: sets one field of the achievement at `index`;
      the list keeps its length, and every other achievement and every other field stays. */
  function UpdateAchievement(e: Editor, index: int, field: AchievementField, value: string): (r: Editor)
    ensures |r.data.fields.achievements| == |e.data.fields.achievements|
    ensures forall i :: 0 <= i < |e.data.fields.achievements| && i != index ==>
      r.data.fields.achievements[i] == e.data.fields.achievements[i]
    ensures 0 <= index < |e.data.fields.achievements| ==>
      && FieldOf(r.data.fields.achievements[index], field) == value
      && forall g :: g != field ==>
        FieldOf(r.data.fields.achievements[index], g) == FieldOf(e.data.fields.achievements[index], g)
    ensures r.data.fields.skills == e.data.fields.skills
    ensures r.data.fields.bio == e.data.fields.bio && r.data.fields.location == e.data.fields.location
    ensures r.data.isPublished == e.data.isPublished && r.newSkill == e.newSkill
  {
    var xs := e.data.fields.achievements;
    var ys := seq(|xs|, i requires 0 <= i < |xs| => if i == index then SetField(xs[i], field, value) else xs[i]);
    WithLists(e, e.data.fields.skills, ys)
  }

  /** `removeAchievement(index)`: drops the achievement at `index`; any other index changes
      nothing. */
  function RemoveAchievement(e: Editor, index: int): (r: Editor)
    ensures 0 <= index < |e.data.fields.achievements| ==>
      r.data.fields.achievements
        == e.data.fields.achievements[..index] + e.data.fields.achievements[index + 1..]
    ensures !(0 <= index < |e.data.fields.achievements|) ==> r == e
    ensures r.data.fields.skills == e.data.fields.skills
    ensures r.data.fields.bio == e.data.fields.bio && r.data.fields.location == e.data.fields.location
    ensures r.data.isPublished == e.data.isPublished && r.newSkill == e.newSkill
  {
    WithLists(e, e.data.fields.skills, RemoveAt(e.data.fields.achievements, index))
  }

  /** Adding an achievement and removing it again gives back the editor as it was. */
  lemma {:induction false} AddThenRemoveAchievement(e: Editor)
    ensures RemoveAchievement(AddAchievement(e), |e.data.fields.achievements|) == e
  {
    var xs := e.data.fields.achievements;
    var a := AddAchievement(e);
    assert (xs + [EmptyAchievement])[..|xs|] == xs;
    assert RemoveAchievement(a, |xs|).data.fields.achievements == xs;
    assert RemoveAchievement(a, |xs|).data.fields == e.data.fields;
  }

  /** Setting a field to the value it already has changes nothing. */
  lemma {:induction false} UpdateWithSameValue(e: Editor, index: int, field: AchievementField)
    requires 0 <= index < |e.data.fields.achievements|
    ensures UpdateAchievement(e, index, field, FieldOf(e.data.fields.achievements[index], field)) == e
  {
    var xs := e.data.fields.achievements;
    var r := UpdateAchievement(e, index, field, FieldOf(xs[index], field));
    var a, b := xs[index], r.data.fields.achievements[index];
    assert FieldOf(b, Icon) == FieldOf(a, Icon) && FieldOf(b, Title) == FieldOf(a, Title);
    assert FieldOf(b, Description) == FieldOf(a, Description);
    assert FieldOf(b, Year) == FieldOf(a, Year) && FieldOf(b, Location) == FieldOf(a, Location);
    assert r.data.fields.achievements == xs;
  }

  /** The fetch from `GET /admin`: the section replaces the editor's data only when the reply
      succeeded and carries a section; the skill box is left alone. */
  function ApplyFetched(e: Editor, reply: Store.Reply<Doc<About>>): (r: Editor)
    ensures reply.success && reply.data.Some? ==>
      r.data == Draft(reply.data.value.fields, reply.data.value.isPublished)
    ensures !(reply.success && reply.data.Some?) ==> r == e
    ensures r.newSkill == e.newSkill
  {
    if reply.success && reply.data.Some? then
      e.(data := Draft(reply.data.value.fields, reply.data.value.isPublished))
    else e
  }
}
