/** The experience editor: achievements are edited as one line each, and the nested contact
    as four flat fields. */
module ExperienceForm {
  import opened Wrappers
  import opened Text
  import opened ListField
  import opened Records
  import opened FormCommon

  /** An experience's contact as the routes send it; any path may be missing. */
  datatype RefereeJson = RefereeJson(
    name: Option<string>, role: Option<string>, email: Option<string>, phone: Option<string>)

  /** An experience as the routes send it; any path may be missing. */
  datatype ExperienceJson = ExperienceJson(
    company: Option<string>, position: Option<string>, period: Option<string>,
    location: Option<string>, description: Option<string>, achievements: Option<seq<string>>,
    contact: Option<RefereeJson>, order: Option<int>, isPublished: Option<bool>)

  datatype FormState = FormState(
    company: string, position: string, period: string, location: string, description: string,
    achievements: string, contactName: string, contactRole: string, contactEmail: string,
    contactPhone: string, order: int, isPublished: bool)

  const Blank: FormState := FormState("", "", "", "", "", "", "", "", "", "", 0, true)

  /** A missing contact reads like one whose four paths are all missing (`contact?.name`). */
  const NoContact: RefereeJson := RefereeJson(None, None, None, None)

  /** Loading an experience for editing: the achievements joined one per line, the contact
      flattened, every missing or empty text '', a missing or zero order 0, and the publish
      flag with `??`, so a stored `false` stays `false`. */
  function Load(e: ExperienceJson): (r: FormState)
    ensures e.isPublished.Some? ==> r.isPublished == e.isPublished.value
    ensures e.isPublished.None? ==> r.isPublished
    ensures && LoadedText(e.company, "", r.company) && LoadedText(e.position, "", r.position)
            && LoadedText(e.period, "", r.period) && LoadedText(e.location, "", r.location)
            && LoadedText(e.description, "", r.description)
    ensures e.achievements.Some? ==> r.achievements == Join(e.achievements.value, "\n")
    ensures e.achievements.None? ==> r.achievements == ""
    ensures e.contact.Some? ==>
      && LoadedText(e.contact.value.name, "", r.contactName)
      && LoadedText(e.contact.value.role, "", r.contactRole)
      && LoadedText(e.contact.value.email, "", r.contactEmail)
      && LoadedText(e.contact.value.phone, "", r.contactPhone)
    ensures e.contact.None? ==>
      r.contactName == "" && r.contactRole == "" && r.contactEmail == "" && r.contactPhone == ""
    ensures LoadedNumber(e.order, 0, r.order)
  {
    var c := GetOr(e.contact, NoContact);
    FormState(
      OrText(e.company, ""), OrText(e.position, ""), OrText(e.period, ""),
      OrText(e.location, ""), OrText(e.description, ""),
      if e.achievements.Some? then Join(e.achievements.value, "\n") else "",
      OrText(c.name, ""), OrText(c.role, ""), OrText(c.email, ""), OrText(c.phone, ""),
      OrNumber(e.order, 0), GetOr(e.isPublished, true))
  }

  /** The contact nested again from the four flat fields. */
  function Nest(f: FormState): (r: Referee)
    ensures r.name == f.contactName && r.role == f.contactRole
    ensures r.email == f.contactEmail && r.phone == f.contactPhone
  {
    Referee(f.contactName, f.contactRole, f.contactEmail, f.contactPhone)
  }

  /** The request body: exactly the nine paths of an experience, the achievements parsed one
      per line (trimmed, blank lines dropped), the contact nested. */
  function Payload(f: FormState): (r: Draft<Experience>)
    ensures r.fields.achievements == Parse(f.achievements, '\n')
    ensures forall x :: x in r.fields.achievements ==> x != "" && IsTrimmed(x) && '\n' !in x
    ensures r.fields.contact == Nest(f)
    ensures r.fields.company == f.company && r.fields.position == f.position
    ensures r.fields.period == f.period && r.fields.location == f.location
    ensures r.fields.description == f.description
    ensures r.fields.order == f.order && r.isPublished == f.isPublished
  {
    Draft(Experience(f.company, f.position, f.period, f.location, f.description,
                     Parse(f.achievements, '\n'), Nest(f), f.order), f.isPublished)
  }

  /** An experience as the routes send it: every path present. */
  function JsonOf(d: Draft<Experience>): ExperienceJson {
    var e := d.fields;
    var c := e.contact;
    ExperienceJson(
      Some(e.company), Some(e.position), Some(e.period), Some(e.location), Some(e.description),
      Some(e.achievements), Some(RefereeJson(Some(c.name), Some(c.role), Some(c.email), Some(c.phone))),
      Some(e.order), Some(d.isPublished))
  }

  /** Flattening a complete contact into the four fields and nesting them again gives the
      contact back. */
  lemma {:induction false} FlattenThenNest(d: Draft<Experience>)
    requires ValidExperience(d.fields)
    ensures Nest(Load(JsonOf(d))) == d.fields.contact
  {
    var c := d.fields.contact;
    var f := Load(JsonOf(d));
    assert f.contactName == c.name && f.contactRole == c.role;
    assert f.contactEmail == c.email && f.contactPhone == c.phone;
  }

  /** Achievements one line each, with no blank line: every one non-empty, trimmed and without
      a line break. */
  predicate OneLineEach(xs: seq<string>) {
    forall x :: x in xs ==> IsItem(x, '\n')
  }

  /** Achievements one line each survive `join('\n')` followed by the parse. */
  lemma {:induction false} AchievementsRoundTrip(xs: seq<string>)
    requires OneLineEach(xs)
    ensures Parse(Join(xs, "\n"), '\n') == xs
  {
    assert "\n" == ['\n'] + "";
    ParseJoin(xs, '\n', "");
  }

  /** Opening a stored experience and saving it unchanged sends exactly the stored experience,
      when its achievements are one line each. */
  lemma {:induction false} EditRoundTrip(d: Draft<Experience>)
    requires ValidExperience(d.fields) && OneLineEach(d.fields.achievements)
    ensures Payload(Load(JsonOf(d))) == d
    ensures CastExperience(Payload(Load(JsonOf(d))).fields) == d.fields
  {
    var e := d.fields;
    var f := Load(JsonOf(d));
    assert f.company == e.company && f.position == e.position && f.period == e.period;
    assert f.location == e.location && f.description == e.description;
    assert f.order == e.order && f.isPublished == d.isPublished;
    AchievementsRoundTrip(e.achievements);
    FlattenThenNest(d);
    var r := Payload(f).fields;
    assert r.achievements == e.achievements;
  }
}
