/** The seven content stores of the site, each built with its schema's validity and its
    router's sort key. */
module Site {
  import opened Records
  import opened Store
  import opened ContentOrder
  import opened Wrappers
  import ProjectSchema
  import TechStackSchema

  method OpenProjects() returns (c: Collection<Project>)
    ensures fresh(c) && c.Valid() && c.docs == []
    ensures c.valid == ProjectSchema.Valid && c.before == ProjectBefore
    ensures c.title == "Project" && c.noun == "project"
  {
    ContentOrdersArePreorders();
    c := new Collection(ProjectSchema.Valid, ProjectBefore, "Project", "project");
  }

  method OpenExperiences() returns (c: Collection<Experience>)
    ensures fresh(c) && c.Valid() && c.docs == []
    ensures c.valid == ValidExperience && c.before == ExperienceBefore
    ensures c.title == "Experience" && c.noun == "experience"
  {
    ContentOrdersArePreorders();
    c := new Collection(ValidExperience, ExperienceBefore, "Experience", "experience");
  }

  method OpenCertificates() returns (c: Collection<Certificate>)
    ensures fresh(c) && c.Valid() && c.docs == []
    ensures c.valid == ValidCertificate && c.before == CertificateBefore
    ensures c.title == "Certificate" && c.noun == "certificate"
  {
    ContentOrdersArePreorders();
    c := new Collection(ValidCertificate, CertificateBefore, "Certificate", "certificate");
  }

  method OpenTechStack() returns (c: Collection<TechStack>)
    ensures fresh(c) && c.Valid() && c.docs == []
    ensures c.valid == TechStackSchema.Valid && c.before == TechStackSchema.Before
    ensures c.title == "Tech stack item" && c.noun == "tech stack item"
  {
    TechStackSchema.BeforeIsTotalPreorder();
    c := new Collection(TechStackSchema.Valid, TechStackSchema.Before, "Tech stack item", "tech stack item");
  }

  method OpenAbout() returns (s: Singleton<About>)
    ensures fresh(s) && s.Valid() && s.docs == [] && s.valid == ValidAbout
    ensures s.title == "About" && s.noun == "about"
  {
    s := new Singleton(ValidAbout, "About", "about");
  }

  method OpenHero() returns (s: Singleton<Hero>)
    ensures fresh(s) && s.Valid() && s.docs == [] && s.valid == ValidHero
    ensures s.title == "Hero" && s.noun == "hero"
  {
    s := new Singleton(ValidHero, "Hero", "hero");
  }

  method OpenContact() returns (s: Singleton<ContactInfo>)
    ensures fresh(s) && s.Valid() && s.docs == [] && s.valid == ValidContactInfo
    ensures s.title == "Contact" && s.noun == "contact"
  {
    s := new Singleton(ValidContactInfo, "Contact", "contact");
  }

  /** `POST /api/projects`: the body is cast and defaulted by the project schema, and the
      result is stored (201) or refused (500). */
  method CreateProject(c: Collection<Project>, body: ProjectSchema.ProjectInput, now: nat)
    returns (r: Reply<Doc<Project>>)
    requires c.Valid() && c.valid == ProjectSchema.Valid
    modifies c
    ensures c.Valid()
    ensures ProjectSchema.Make(body).Err? ==> r.status == 500 && c.docs == old(c.docs)
    ensures ProjectSchema.Make(body).Ok? ==>
      var d := ProjectSchema.Make(body).value;
      r.status == 201 && c.docs == old(c.docs) + [Doc(old(c.nextId), now, d.isPublished, d.fields)]
  {
    r := c.Create(ProjectSchema.Make(body), now);
  }

  /** `POST /api/tech-stack`, the same way through the tech-stack schema. */
  method CreateTechItem(c: Collection<TechStack>, body: TechStackSchema.TechStackInput, now: nat)
    returns (r: Reply<Doc<TechStack>>)
    requires c.Valid() && c.valid == TechStackSchema.Valid
    modifies c
    ensures c.Valid()
    ensures TechStackSchema.Make(body).Err? ==> r.status == 500 && c.docs == old(c.docs)
    ensures TechStackSchema.Make(body).Ok? ==>
      var d := TechStackSchema.Make(body).value;
      r.status == 201 && c.docs == old(c.docs) + [Doc(old(c.nextId), now, d.isPublished, d.fields)]
  {
    r := c.Create(TechStackSchema.Make(body), now);
  }

  /** `POST /api/experiences`: the schema trims the company and the position before
      validating. */
  method CreateExperience(c: Collection<Experience>, body: Draft<Experience>, now: nat)
    returns (r: Reply<Doc<Experience>>)
    requires c.Valid() && c.valid == ValidExperience
    modifies c
    ensures c.Valid()
    ensures !ValidExperience(CastExperience(body.fields)) ==> r.status == 500 && c.docs == old(c.docs)
    ensures ValidExperience(CastExperience(body.fields)) ==>
      r.status == 201
      && c.docs == old(c.docs) + [Doc(old(c.nextId), now, body.isPublished, CastExperience(body.fields))]
  {
    r := c.Create(Ok(Draft(CastExperience(body.fields), body.isPublished)), now);
  }

  /** `POST /api/certificates`: the schema trims the title before validating. */
  method CreateCertificate(c: Collection<Certificate>, body: Draft<Certificate>, now: nat)
    returns (r: Reply<Doc<Certificate>>)
    requires c.Valid() && c.valid == ValidCertificate
    modifies c
    ensures c.Valid()
    ensures !ValidCertificate(CastCertificate(body.fields)) ==> r.status == 500 && c.docs == old(c.docs)
    ensures ValidCertificate(CastCertificate(body.fields)) ==>
      r.status == 201
      && c.docs == old(c.docs) + [Doc(old(c.nextId), now, body.isPublished, CastCertificate(body.fields))]
  {
    r := c.Create(Ok(Draft(CastCertificate(body.fields), body.isPublished)), now);
  }

  /** `PUT /api/projects/:id`: the update runs the schema's setters and validators, so the
      body is trimmed and checked as on create (`Make`). A malformed id or a rejected body is a
      500 and an unknown id a 404, with nothing changed; otherwise the document with that id
      takes the body's paths and keeps its id, creation time and place. */
  method UpdateProject(c: Collection<Project>, id: RouteId, body: ProjectSchema.ProjectInput)
    returns (r: Reply<Doc<Project>>)
    requires c.Valid() && c.valid == ProjectSchema.Valid
    modifies c
    ensures c.Valid()
    ensures id.Malformed? || ProjectSchema.Make(body).Err? ==> r.status == 500 && c.docs == old(c.docs)
    ensures id.ObjectId? && ProjectSchema.Make(body).Ok? ==>
      match IndexOf(old(c.docs), id.id)
      case None => r.status == 404 && c.docs == old(c.docs)
      case Some(k) =>
        var d := ProjectSchema.Make(body).value;
        r.status == 200 && c.docs == old(c.docs)[k := Doc(id.id, old(c.docs)[k].createdAt, d.isPublished, d.fields)]
  {
    r := c.Update(id, ProjectSchema.Make(body));
  }

  /** `PUT /api/tech-stack/:id`, the same way through the tech-stack schema. */
  method UpdateTechItem(c: Collection<TechStack>, id: RouteId, body: TechStackSchema.TechStackInput)
    returns (r: Reply<Doc<TechStack>>)
    requires c.Valid() && c.valid == TechStackSchema.Valid
    modifies c
    ensures c.Valid()
    ensures id.Malformed? || TechStackSchema.Make(body).Err? ==> r.status == 500 && c.docs == old(c.docs)
    ensures id.ObjectId? && TechStackSchema.Make(body).Ok? ==>
      match IndexOf(old(c.docs), id.id)
      case None => r.status == 404 && c.docs == old(c.docs)
      case Some(k) =>
        var d := TechStackSchema.Make(body).value;
        r.status == 200 && c.docs == old(c.docs)[k := Doc(id.id, old(c.docs)[k].createdAt, d.isPublished, d.fields)]
  {
    r := c.Update(id, TechStackSchema.Make(body));
  }

  /** `PUT /api/experiences/:id`: company and position are trimmed before validating. */
  method UpdateExperience(c: Collection<Experience>, id: RouteId, body: Draft<Experience>)
    returns (r: Reply<Doc<Experience>>)
    requires c.Valid() && c.valid == ValidExperience
    modifies c
    ensures c.Valid()
    ensures id.Malformed? || !ValidExperience(CastExperience(body.fields)) ==>
      r.status == 500 && c.docs == old(c.docs)
    ensures id.ObjectId? && ValidExperience(CastExperience(body.fields)) ==>
      match IndexOf(old(c.docs), id.id)
      case None => r.status == 404 && c.docs == old(c.docs)
      case Some(k) =>
        r.status == 200
        && c.docs == old(c.docs)[k := Doc(id.id, old(c.docs)[k].createdAt, body.isPublished, CastExperience(body.fields))]
  {
    r := c.Update(id, Ok(Draft(CastExperience(body.fields), body.isPublished)));
  }

  /** `PUT /api/certificates/:id`: the title is trimmed before validating. */
  method UpdateCertificate(c: Collection<Certificate>, id: RouteId, body: Draft<Certificate>)
    returns (r: Reply<Doc<Certificate>>)
    requires c.Valid() && c.valid == ValidCertificate
    modifies c
    ensures c.Valid()
    ensures id.Malformed? || !ValidCertificate(CastCertificate(body.fields)) ==>
      r.status == 500 && c.docs == old(c.docs)
    ensures id.ObjectId? && ValidCertificate(CastCertificate(body.fields)) ==>
      match IndexOf(old(c.docs), id.id)
      case None => r.status == 404 && c.docs == old(c.docs)
      case Some(k) =>
        r.status == 200
        && c.docs == old(c.docs)[k := Doc(id.id, old(c.docs)[k].createdAt, body.isPublished, CastCertificate(body.fields))]
  {
    r := c.Update(id, Ok(Draft(CastCertificate(body.fields), body.isPublished)));
  }

  /** Saving the stored project at place `k` with a body the schema rebuilds into exactly
      that project (the body the editor sends when it is saved unchanged, by
      `ProjectForm.EditRoundTrip`): the route answers 200 and the store is as it was. */
  method ResaveProject(c: Collection<Project>, k: nat, body: ProjectSchema.ProjectInput)
    returns (r: Reply<Doc<Project>>)
    requires c.Valid() && c.valid == ProjectSchema.Valid && k < |c.docs|
    requires ProjectSchema.Make(body) == Ok(Draft(c.docs[k].fields, c.docs[k].isPublished))
    modifies c
    ensures c.Valid()
    ensures r.status == 200 && c.docs == old(c.docs)
  {
    var doc := c.docs[k];
    IndexOfUnique(c.docs, k);
    ghost var before := c.docs;
    r := UpdateProject(c, ObjectId(doc.id), body);
    assert c.docs == before[k := doc];
    assert before[k := doc] == before;
  }
}
