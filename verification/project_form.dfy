/** The project editor: a stored project is loaded into text fields (the two lists joined
    with ", "), and the fields are turned back into a request body on submit. */
module ProjectForm {
  import opened Wrappers
  import opened Text
  import opened ListField
  import opened Records
  import opened FormCommon
  import opened ProjectSchema

  datatype FormState = FormState(
    title: string, description: string, category: string, status: string,
    technologies: string, features: string, period: string, githubUrl: string,
    liveUrl: string, gradient: string, order: int, isPublished: bool)

  /** The state of the form for a new project. */
  const Blank: FormState :=
    FormState("", "", "", DefaultStatus, "", "", "", "", "", DefaultGradient, 0, true)

  /** What the list fields are joined with when a project is loaded. */
  const ListJoin: string := ", "

  /** `list?.join(', ') || ''`. */
  function ListText(xs: Option<seq<string>>): (r: string)
    ensures xs.None? || xs.value == [] ==> r == ""
  {
    if xs.Some? then Join(xs.value, ListJoin) else ""
  }

  /** Loading a project (as the list routes send it) for editing. Every missing or empty text
      becomes '' (the status and gradient their defaults), a missing or zero order 0, and the
      publish flag uses `??`, so a stored `false` stays `false`. */
  function Load(p: ProjectInput): (r: FormState)
    ensures p.isPublished.Some? ==> r.isPublished == p.isPublished.value
    ensures p.isPublished.None? ==> r.isPublished
    ensures && LoadedText(p.title, "", r.title) && LoadedText(p.description, "", r.description)
            && LoadedText(p.category, "", r.category) && LoadedText(p.period, "", r.period)
    ensures LoadedText(p.status, DefaultStatus, r.status)
    ensures LoadedText(p.gradient, DefaultGradient, r.gradient)
    ensures LoadedText(p.githubUrl, "", r.githubUrl) && LoadedText(p.liveUrl, "", r.liveUrl)
    ensures LoadedNumber(p.order, 0, r.order)
    ensures p.technologies.Some? ==> r.technologies == Join(p.technologies.value, ListJoin)
    ensures p.technologies.None? ==> r.technologies == ""
    ensures p.features.Some? ==> r.features == Join(p.features.value, ListJoin)
    ensures p.features.None? ==> r.features == ""
  {
    FormState(
      OrText(p.title, ""), OrText(p.description, ""), OrText(p.category, ""),
      OrText(p.status, DefaultStatus), ListText(p.technologies), ListText(p.features),
      OrText(p.period, ""), OrText(p.githubUrl, ""), OrText(p.liveUrl, ""),
      OrText(p.gradient, DefaultGradient), OrNumber(p.order, 0), GetOr(p.isPublished, true))
  }

  /** The request body: every field of the form, the two lists parsed back from their text
      (pieces between commas, trimmed, empty ones dropped), and an empty URL sent as null. */
  function Payload(f: FormState): (r: ProjectInput)
    ensures r.technologies == Some(Parse(f.technologies, ','))
    ensures r.features == Some(Parse(f.features, ','))
    ensures forall x :: x in r.technologies.value ==> x != "" && IsTrimmed(x) && ',' !in x
    ensures forall x :: x in r.features.value ==> x != "" && IsTrimmed(x) && ',' !in x
    ensures AllSpace(f.technologies) ==> r.technologies.value == []
    ensures AllSpace(f.features) ==> r.features.value == []
    ensures r.githubUrl.None? <==> f.githubUrl == ""
    ensures r.liveUrl.None? <==> f.liveUrl == ""
    ensures r.githubUrl.Some? ==> r.githubUrl.value == f.githubUrl
    ensures r.liveUrl.Some? ==> r.liveUrl.value == f.liveUrl
    ensures r.title == Some(f.title) && r.description == Some(f.description)
    ensures r.category == Some(f.category) && r.period == Some(f.period)
    ensures r.status == Some(f.status) && r.gradient == Some(f.gradient)
    ensures r.order == Some(f.order) && r.isPublished == Some(f.isPublished)
  {
    assert AllSpace(f.technologies) ==> Parse(f.technologies, ',') == [] by {
      if AllSpace(f.technologies) {
        ParseBlank(f.technologies, ',');
      }
    }
    assert AllSpace(f.features) ==> Parse(f.features, ',') == [] by {
      if AllSpace(f.features) {
        ParseBlank(f.features, ',');
      }
    }
    ProjectInput(
      Some(f.title), Some(f.description), Some(Parse(f.technologies, ',')), Some(f.category),
      Some(f.status), Some(f.gradient), Some(Parse(f.features, ',')), Some(f.period),
      EmptyToNull(f.githubUrl), EmptyToNull(f.liveUrl), Some(f.order), Some(f.isPublished))
  }

  /** A list the ", " text field can carry: every item non-empty, trimmed and comma-free. */
  predicate Listable(xs: seq<string>) {
    forall x :: x in xs ==> IsItem(x, ',')
  }

  /** The text of a listable list parses back to the list. */
  lemma {:induction false} ListRoundTrip(xs: seq<string>)
    requires Listable(xs)
    ensures Parse(ListText(Some(xs)), ',') == xs
  {
    assert ListJoin == [','] + " ";
    assert AllSpace(" ");
    ParseJoin(xs, ',', " ");
  }

  /** Opening a stored project in the editor and saving it without a change sends back the
      body it came from, and the store rebuilds exactly the stored project from it, when the
      lists are listable and neither the gradient nor a URL is the empty string (those load
      as the default gradient and as '', and come back as the default and as null). */
  lemma {:induction false} EditRoundTrip(d: Draft<Project>)
    requires Valid(d.fields)
    requires Listable(d.fields.technologies) && Listable(d.fields.features)
    requires d.fields.gradient != ""
    requires d.fields.githubUrl.None? || d.fields.githubUrl.value != ""
    requires d.fields.liveUrl.None? || d.fields.liveUrl.value != ""
    ensures Payload(Load(InputOf(d))) == InputOf(d)
    ensures Make(Payload(Load(InputOf(d)))) == Ok(d)
  {
    var p, i := d.fields, InputOf(d);
    var f := Load(i);
    assert p.status in Statuses;
    assert f.title == p.title && f.description == p.description && f.category == p.category;
    assert f.status == p.status && f.period == p.period && f.gradient == p.gradient;
    assert f.order == p.order && f.isPublished == d.isPublished;
    assert f.technologies == ListText(Some(p.technologies));
    assert f.features == ListText(Some(p.features));
    ListRoundTrip(p.technologies);
    ListRoundTrip(p.features);
    LoadThenEmptyToNull(p.githubUrl);
    LoadThenEmptyToNull(p.liveUrl);
    var q := Payload(f);
    assert q.title == i.title && q.description == i.description && q.category == i.category;
    assert q.status == i.status && q.period == i.period && q.gradient == i.gradient;
    assert q.technologies == i.technologies && q.features == i.features;
    assert q.githubUrl == i.githubUrl && q.liveUrl == i.liveUrl;
    assert q.order == i.order && q.isPublished == i.isPublished;
    MakeComplete(d);
  }
}
