/** The content records the site stores, one datatype per schema, and the document envelope
    the store wraps them in. Field names follow the record interfaces of the backend; the
    store-managed parts (`_id`, `createdAt`, `isPublished`) live in the envelope. */
module Records {
  import opened Wrappers
  import opened Text

  type Id = nat

  /** A stored document: identity and creation time are set by the store, `isPublished` is
      the publish flag every content schema carries, `fields` the rest of the schema. */
  datatype Doc<T> = Doc(id: Id, createdAt: nat, isPublished: bool, fields: T)

  /** A request body: the schema fields and the publish flag, without store-managed parts. */
  datatype Draft<T> = Draft(fields: T, isPublished: bool)

  datatype Project = Project(
    title: string, description: string, technologies: seq<string>, category: string,
    status: string, gradient: string, features: seq<string>, period: string,
    githubUrl: Option<string>, liveUrl: Option<string>, order: int)

  /** The nested `contact` of an experience. */
  datatype Referee = Referee(name: string, role: string, email: string, phone: string)

  datatype Experience = Experience(
    company: string, position: string, period: string, location: string,
    description: string, achievements: seq<string>, contact: Referee, order: int)

  /** `kind` is the certificate's `type` field. */
  datatype Certificate = Certificate(
    title: string, issuer: string, kind: Option<string>, event: Option<string>,
    period: string, description: string, category: string, gradient: string,
    credentialUrl: Option<string>, order: int)

  datatype TechStack = TechStack(
    name: string, category: string, level: int, icon: string, description: string, order: int)

  datatype Achievement = Achievement(
    icon: string, title: string, description: string, year: string, location: string)

  datatype About = About(
    bio: string, location: string, skills: seq<string>, achievements: seq<Achievement>)

  datatype SocialLinks = SocialLinks(github: string, linkedin: string, twitter: string, facebook: string)

  datatype Hero = Hero(
    name: string, taglines: seq<string>, subtitle: string, profileImage: string,
    cvUrl: string, socialLinks: SocialLinks)

  /** The contact section (a singleton, unrelated to an experience's referee). */
  datatype ContactInfo = ContactInfo(
    location: string, email: string, phone: string, portfolio: string, socialLinks: SocialLinks)

  /** A `required` string path rejects a missing value and the empty string. */
  predicate Filled(s: string) {
    s != ""
  }

  /** A `required`, `trim`med string path: the stored value is trimmed and non-empty. */
  predicate FilledTrimmed(s: string) {
    s != "" && IsTrimmed(s)
  }

  predicate AllFilled(xs: seq<string>) {
    forall x :: x in xs ==> Filled(x)
  }

  predicate ValidExperience(e: Experience) {
    && FilledTrimmed(e.company) && FilledTrimmed(e.position)
    && Filled(e.period) && Filled(e.location) && Filled(e.description)
    && Filled(e.contact.name) && Filled(e.contact.role)
    && Filled(e.contact.email) && Filled(e.contact.phone)
  }

  /** The experience schema trims `company` and `position` when a document is built. */
  function CastExperience(e: Experience): (r: Experience)
    ensures r.company == Trim(e.company) && r.position == Trim(e.position)
    ensures IsTrimmed(r.company) && IsTrimmed(r.position)
    ensures r.(company := e.company, position := e.position) == e
    ensures ValidExperience(e) ==> r == e
  {
    e.(company := Trim(e.company), position := Trim(e.position))
  }

  predicate ValidCertificate(c: Certificate) {
    && FilledTrimmed(c.title) && Filled(c.issuer) && Filled(c.period)
    && Filled(c.description) && Filled(c.category)
  }

  /** The certificate schema trims `title` when a document is built. */
  function CastCertificate(c: Certificate): (r: Certificate)
    ensures r.title == Trim(c.title) && IsTrimmed(r.title)
    ensures r.(title := c.title) == c
    ensures ValidCertificate(c) ==> r == c
  {
    c.(title := Trim(c.title))
  }

  predicate ValidSocialLinks(l: SocialLinks) {
    Filled(l.github) && Filled(l.linkedin) && Filled(l.twitter) && Filled(l.facebook)
  }

  predicate ValidAchievement(a: Achievement) {
    Filled(a.icon) && Filled(a.title) && Filled(a.description) && Filled(a.year) && Filled(a.location)
  }

  predicate ValidAbout(a: About) {
    && Filled(a.bio) && Filled(a.location) && AllFilled(a.skills)
    && forall x :: x in a.achievements ==> ValidAchievement(x)
  }

  predicate ValidHero(h: Hero) {
    && Filled(h.name) && AllFilled(h.taglines) && Filled(h.subtitle)
    && Filled(h.profileImage) && Filled(h.cvUrl) && ValidSocialLinks(h.socialLinks)
  }

  predicate ValidContactInfo(c: ContactInfo) {
    && Filled(c.location) && Filled(c.email) && Filled(c.phone) && Filled(c.portfolio)
    && ValidSocialLinks(c.socialLinks)
  }
}
