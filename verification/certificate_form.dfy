/** The certificate editor: three optional texts (type, event, credential URL) are edited as
    plain fields and sent as null when left empty. */
module CertificateForm {
  import opened Wrappers
  import opened Records
  import opened FormCommon

  const DefaultGradient: string := "from-blue-500 to-cyan-500"

  /** A certificate as the routes send it; any path may be missing or null. */
  datatype CertificateJson = CertificateJson(
    title: Option<string>, issuer: Option<string>, kind: Option<string>, event: Option<string>,
    period: Option<string>, description: Option<string>, category: Option<string>,
    gradient: Option<string>, credentialUrl: Option<string>, order: Option<int>,
    isPublished: Option<bool>)

  datatype FormState = FormState(
    title: string, issuer: string, kind: string, event: string, period: string,
    description: string, category: string, gradient: string, credentialUrl: string,
    order: int, isPublished: bool)

  const Blank: FormState := FormState("", "", "", "", "", "", "", DefaultGradient, "", 0, true)

  /** Loading a certificate for editing: every missing, null or empty text '', the gradient its
      default, a missing or zero order 0, and the publish flag with `??`, so a stored `false`
      stays `false`. */
  function Load(c: CertificateJson): (r: FormState)
    ensures c.isPublished.Some? ==> r.isPublished == c.isPublished.value
    ensures c.isPublished.None? ==> r.isPublished
    ensures LoadedText(c.title, "", r.title) && LoadedText(c.issuer, "", r.issuer)
    ensures LoadedText(c.kind, "", r.kind) && LoadedText(c.event, "", r.event)
    ensures LoadedText(c.period, "", r.period) && LoadedText(c.description, "", r.description)
    ensures LoadedText(c.category, "", r.category)
    ensures LoadedText(c.credentialUrl, "", r.credentialUrl)
    ensures LoadedText(c.gradient, DefaultGradient, r.gradient)
    ensures LoadedNumber(c.order, 0, r.order)
  {
    FormState(
      OrText(c.title, ""), OrText(c.issuer, ""), OrText(c.kind, ""), OrText(c.event, ""),
      OrText(c.period, ""), OrText(c.description, ""), OrText(c.category, ""),
      OrText(c.gradient, DefaultGradient), OrText(c.credentialUrl, ""), OrNumber(c.order, 0),
      GetOr(c.isPublished, true))
  }

  /** The request body: every field as it stands, except that an empty type, event or
      credential URL is sent as null. */
  function Payload(f: FormState): (r: Draft<Certificate>)
    ensures r.fields.kind.None? <==> f.kind == ""
    ensures r.fields.event.None? <==> f.event == ""
    ensures r.fields.credentialUrl.None? <==> f.credentialUrl == ""
    ensures r.fields.kind.Some? ==> r.fields.kind.value == f.kind
    ensures r.fields.event.Some? ==> r.fields.event.value == f.event
    ensures r.fields.credentialUrl.Some? ==> r.fields.credentialUrl.value == f.credentialUrl
    ensures r.fields.title == f.title && r.fields.issuer == f.issuer && r.fields.period == f.period
    ensures r.fields.description == f.description && r.fields.category == f.category
    ensures r.fields.gradient == f.gradient && r.fields.order == f.order
    ensures r.isPublished == f.isPublished
  {
    Draft(Certificate(
      f.title, f.issuer, EmptyToNull(f.kind), EmptyToNull(f.event), f.period, f.description,
      f.category, f.gradient, EmptyToNull(f.credentialUrl), f.order), f.isPublished)
  }

  function JsonOf(d: Draft<Certificate>): CertificateJson {
    var c := d.fields;
    CertificateJson(
      Some(c.title), Some(c.issuer), c.kind, c.event, Some(c.period), Some(c.description),
      Some(c.category), Some(c.gradient), c.credentialUrl, Some(c.order), Some(d.isPublished))
  }

  /** Opening a stored certificate and saving it unchanged sends exactly the stored
      certificate, when its gradient is not empty and none of the three optional texts is the
      empty string. */
  lemma {:induction false} EditRoundTrip(d: Draft<Certificate>)
    requires ValidCertificate(d.fields) && d.fields.gradient != ""
    requires d.fields.kind.None? || d.fields.kind.value != ""
    requires d.fields.event.None? || d.fields.event.value != ""
    requires d.fields.credentialUrl.None? || d.fields.credentialUrl.value != ""
    ensures Payload(Load(JsonOf(d))) == d
    ensures CastCertificate(Payload(Load(JsonOf(d))).fields) == d.fields
  {
    var c := d.fields;
    LoadThenEmptyToNull(c.kind);
    LoadThenEmptyToNull(c.event);
    LoadThenEmptyToNull(c.credentialUrl);
    var r := Payload(Load(JsonOf(d)));
    assert r.fields.title == c.title && r.fields.issuer == c.issuer;
    assert r.fields.kind == c.kind && r.fields.event == c.event;
    assert r.fields.period == c.period && r.fields.description == c.description;
    assert r.fields.category == c.category && r.fields.gradient == c.gradient;
    assert r.fields.credentialUrl == c.credentialUrl && r.fields.order == c.order;
  }
}
