/** The project schema: required and trimmed paths, the status enumeration and the defaults
    that the document store applies when a project is created from a request body. */
module ProjectSchema {
  import opened Wrappers
  import opened Text
  import opened Records

  const Statuses: seq<string> := ["In Development", "Completed", "Archived"]
  const DefaultStatus: string := "In Development"
  const DefaultGradient: string := "from-blue-500 to-cyan-500"

  /** What the schema admits as a stored project. */
  predicate Valid(p: Project) {
    && FilledTrimmed(p.title) && Filled(p.description) && Filled(p.category) && Filled(p.period)
    && p.status in Statuses
    && AllFilled(p.technologies)
  }

  /** A request body as the store receives it; `None` is a path the body leaves out. */
  datatype ProjectInput = ProjectInput(
    title: Option<string>, description: Option<string>, technologies: Option<seq<string>>,
    category: Option<string>, status: Option<string>, gradient: Option<string>,
    features: Option<seq<string>>, period: Option<string>, githubUrl: Option<string>,
    liveUrl: Option<string>, order: Option<int>, isPublished: Option<bool>)

  /** `new Project(body)` followed by validation: trims the title, keeps every other path
      the body gives as it is, fills in the defaults for the paths it leaves out, and fails when a required path is missing or empty, the
      status is outside the enumeration, or a technology is empty. */
  function Make(input: ProjectInput): (r: Result<Draft<Project>>)
    ensures r.Ok? <==>
      && input.title.Some? && Trim(input.title.value) != ""
      && input.description.Some? && input.description.value != ""
      && input.category.Some? && input.category.value != ""
      && input.period.Some? && input.period.value != ""
      && (input.status.None? || input.status.value in Statuses)
      && (input.technologies.None? || AllFilled(input.technologies.value))
    ensures r.Ok? ==> Valid(r.value.fields)
    ensures r.Ok? ==> r.value.fields.title == Trim(input.title.value)
    ensures r.Ok? ==>
      && r.value.fields.description == input.description.value
      && r.value.fields.category == input.category.value
      && r.value.fields.period == input.period.value
      && r.value.fields.githubUrl == input.githubUrl && r.value.fields.liveUrl == input.liveUrl
    ensures r.Ok? && input.status.Some? ==> r.value.fields.status == input.status.value
    ensures r.Ok? && input.gradient.Some? ==> r.value.fields.gradient == input.gradient.value
    ensures r.Ok? && input.technologies.Some? ==> r.value.fields.technologies == input.technologies.value
    ensures r.Ok? && input.features.Some? ==> r.value.fields.features == input.features.value
    ensures r.Ok? && input.order.Some? ==> r.value.fields.order == input.order.value
    ensures r.Ok? && input.isPublished.Some? ==> r.value.isPublished == input.isPublished.value
    ensures r.Ok? && input.status.None? ==> r.value.fields.status == DefaultStatus
    ensures r.Ok? && input.gradient.None? ==> r.value.fields.gradient == DefaultGradient
    ensures r.Ok? && input.githubUrl.None? ==> r.value.fields.githubUrl.None?
    ensures r.Ok? && input.liveUrl.None? ==> r.value.fields.liveUrl.None?
    ensures r.Ok? && input.order.None? ==> r.value.fields.order == 0
    ensures r.Ok? && input.isPublished.None? ==> r.value.isPublished
    ensures r.Ok? && input.technologies.None? ==> r.value.fields.technologies == []
    ensures r.Ok? && input.features.None? ==> r.value.fields.features == []
  {
    if input.title.None? || input.description.None? || input.category.None? || input.period.None?
    then Err("Project validation failed")
    else
      var p := Project(
        Trim(input.title.value), input.description.value, GetOr(input.technologies, []),
        input.category.value, GetOr(input.status, DefaultStatus),
        GetOr(input.gradient, DefaultGradient), GetOr(input.features, []),
        input.period.value, input.githubUrl, input.liveUrl, GetOr(input.order, 0));
      if Valid(p) then Ok(Draft(p, GetOr(input.isPublished, true)))
      else Err("Project validation failed")
  }

  /** The body that carries every path of a draft. */
  function InputOf(d: Draft<Project>): ProjectInput {
    var p := d.fields;
    ProjectInput(
      Some(p.title), Some(p.description), Some(p.technologies), Some(p.category),
      Some(p.status), Some(p.gradient), Some(p.features), Some(p.period),
      p.githubUrl, p.liveUrl, Some(p.order), Some(d.isPublished))
  }

  /** Creating from a complete body of a valid project stores exactly that project. */
  lemma {:induction false} MakeComplete(d: Draft<Project>)
    requires Valid(d.fields)
    ensures Make(InputOf(d)) == Ok(d)
  {
    var r := Make(InputOf(d));
    var p, q := d.fields, r.value.fields;
    assert q.title == p.title && q.description == p.description;
    assert q.technologies == p.technologies && q.category == p.category;
    assert q.status == p.status && q.gradient == p.gradient && q.features == p.features;
    assert q.period == p.period && q.githubUrl == p.githubUrl && q.liveUrl == p.liveUrl;
    assert q.order == p.order && r.value.isPublished == d.isPublished;
  }
}
