/** The `.sort({ order: 1, createdAt: -1 })` key of the project, experience and certificate
    routers: `order` ascending, and among equal `order` the newer document first. */
module ContentOrder {
  import opened Records
  import opened Ordering

  /** Key (`order`, `createdAt`) of the first document may precede that of the second. */
  predicate OrderThenNewest(orderA: int, createdA: nat, orderB: int, createdB: nat) {
    orderA < orderB || (orderA == orderB && createdA >= createdB)
  }

  predicate ProjectBefore(a: Doc<Project>, b: Doc<Project>) {
    OrderThenNewest(a.fields.order, a.createdAt, b.fields.order, b.createdAt)
  }

  predicate ExperienceBefore(a: Doc<Experience>, b: Doc<Experience>) {
    OrderThenNewest(a.fields.order, a.createdAt, b.fields.order, b.createdAt)
  }

  predicate CertificateBefore(a: Doc<Certificate>, b: Doc<Certificate>) {
    OrderThenNewest(a.fields.order, a.createdAt, b.fields.order, b.createdAt)
  }

  /** Any two keys compare, and comparison chains: the key is a total preorder. */
  lemma {:induction false} OrderThenNewestLaws(oa: int, ca: nat, ob: int, cb: nat, oc: int, cc: nat)
    ensures OrderThenNewest(oa, ca, ob, cb) || OrderThenNewest(ob, cb, oa, ca)
    ensures OrderThenNewest(oa, ca, ob, cb) && OrderThenNewest(ob, cb, oc, cc) ==>
      OrderThenNewest(oa, ca, oc, cc)
  {
  }

  lemma {:induction false} ContentOrdersArePreorders()
    ensures TotalPreorder(ProjectBefore)
    ensures TotalPreorder(ExperienceBefore)
    ensures TotalPreorder(CertificateBefore)
  {
  }

  /** In a sorted list, an earlier document has a smaller `order`, or the same `order` and a
      creation time no older than the later one's. */
  lemma {:induction false} SortedMeansOrderThenNewest(s: seq<Doc<Project>>, i: nat, j: nat)
    requires Sorted(s, ProjectBefore) && i < j < |s|
    ensures s[i].fields.order <= s[j].fields.order
    ensures s[i].fields.order == s[j].fields.order ==> s[i].createdAt >= s[j].createdAt
  {
  }
}
