/** Who may call which route. The two middlewares the routers use are not part of this model:
    `authenticateToken` is the caller's `signedIn`, `isAdmin` the caller's `admin`, both taken
    as given. */
module Access {

  /** The guards a route can carry. */
  datatype Guard = Open | SignedIn | SignedInAdmin

  datatype Caller = Caller(signedIn: bool, admin: bool)

  /** The six routes of a content collection (projects, experiences, certificates, tech stack). */
  datatype CollectionRoute = ListPublished | ListAll | GetOne | Create | Update | Delete

  /** The four routes of a section (about, hero, contact). */
  datatype SectionRoute = PublicGet | AdminGet | Save | TogglePublish

  datatype AccountRoute = Register | Login | Verify

  /** A route passes the caller on when each middleware in its chain does. */
  predicate Admits(g: Guard, c: Caller) {
    match g
    case Open => true
    case SignedIn => c.signedIn
    case SignedInAdmin => c.signedIn && c.admin
  }

  /** The collection routers: the public list and the get by id are open, the admin list and
      every change need a signed-in administrator. */
  function CollectionGuard(r: CollectionRoute): (g: Guard)
    ensures g == Open <==> r == ListPublished || r == GetOne
    ensures g != Open ==> g == SignedInAdmin
  {
    match r
    case ListPublished => Open
    case GetOne => Open
    case ListAll => SignedInAdmin
    case Create => SignedInAdmin
    case Update => SignedInAdmin
    case Delete => SignedInAdmin
  }

  /** The section routers: only the public read is open; the admin read, the save and the
      toggle need a signed-in caller, and none of them checks for an administrator. */
  function SectionGuard(r: SectionRoute): (g: Guard)
    ensures g == Open <==> r == PublicGet
    ensures g != Open ==> g == SignedIn
  {
    match r
    case PublicGet => Open
    case AdminGet => SignedIn
    case Save => SignedIn
    case TogglePublish => SignedIn
  }

  function AccountGuard(r: AccountRoute): (g: Guard)
    ensures g == Open <==> r != Verify
    ensures g != Open ==> g == SignedIn
  {
    match r
    case Register => Open
    case Login => Open
    case Verify => SignedIn
  }

  /** The guards are nested: an administrator passes whatever a signed-in caller passes, who
      passes whatever anyone passes. */
  lemma {:induction false} GuardsNest(g: Guard, c: Caller)
    ensures Admits(g, Caller(true, true))
    ensures Admits(g, c) && g != Open ==> c.signedIn
    ensures Admits(g, Caller(false, c.admin)) ==> g == Open
  {
  }

  /** A signed-in caller who is not an administrator can read the hidden section, save it and
      toggle it, but can change no collection document and cannot list the unpublished ones. */
  lemma {:induction false} NonAdminReach(s: SectionRoute, r: CollectionRoute)
    ensures Admits(SectionGuard(s), Caller(true, false))
    ensures Admits(CollectionGuard(r), Caller(true, false)) <==> r == ListPublished || r == GetOne
  {
  }

  /** A caller without a token reaches exactly the open routes. */
  lemma {:induction false} AnonymousReach(s: SectionRoute, r: CollectionRoute, a: AccountRoute)
    ensures Admits(SectionGuard(s), Caller(false, false)) <==> s == PublicGet
    ensures Admits(CollectionGuard(r), Caller(false, false)) <==> r == ListPublished || r == GetOne
    ensures Admits(AccountGuard(a), Caller(false, false)) <==> a != Verify
  {
  }
}
