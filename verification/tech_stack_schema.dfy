/** The tech-stack schema: required paths, the category enumeration, the 0..100 range of the
    proficiency level, the defaults, and the (category, order) index that the list routes sort
    by. */
module TechStackSchema {
  import opened Wrappers
  import opened Text
  import opened Records
  import opened Ordering

  const Categories: seq<string> := ["languages", "frameworks", "tools"]
  const MinLevel: int := 0
  const MaxLevel: int := 100

  predicate Valid(t: TechStack) {
    && FilledTrimmed(t.name) && t.category in Categories
    && MinLevel <= t.level <= MaxLevel
    && Filled(t.icon) && Filled(t.description)
  }

  datatype TechStackInput = TechStackInput(
    name: Option<string>, category: Option<string>, level: Option<int>, icon: Option<string>,
    description: Option<string>, order: Option<int>, isPublished: Option<bool>)

  /** `new TechStack(body)` followed by validation: trims the name, keeps every other path
      the body gives as it is, and fills in order 0 and the publish flag `true` when the body
      leaves them out. */
  function Make(input: TechStackInput): (r: Result<Draft<TechStack>>)
    ensures r.Ok? <==>
      && input.name.Some? && Trim(input.name.value) != ""
      && input.category.Some? && input.category.value in Categories
      && input.level.Some? && MinLevel <= input.level.value <= MaxLevel
      && input.icon.Some? && input.icon.value != ""
      && input.description.Some? && input.description.value != ""
    ensures r.Ok? ==> Valid(r.value.fields)
    ensures r.Ok? ==> r.value.fields.name == Trim(input.name.value)
    ensures r.Ok? ==>
      && r.value.fields.category == input.category.value && r.value.fields.level == input.level.value
      && r.value.fields.icon == input.icon.value && r.value.fields.description == input.description.value
    ensures r.Ok? && input.order.Some? ==> r.value.fields.order == input.order.value
    ensures r.Ok? && input.isPublished.Some? ==> r.value.isPublished == input.isPublished.value
    ensures r.Ok? && input.order.None? ==> r.value.fields.order == 0
    ensures r.Ok? && input.isPublished.None? ==> r.value.isPublished
  {
    if input.name.None? || input.category.None? || input.level.None?
      || input.icon.None? || input.description.None?
    then Err("TechStack validation failed")
    else
      var t := TechStack(
        Trim(input.name.value), input.category.value, input.level.value, input.icon.value,
        input.description.value, GetOr(input.order, 0));
      if Valid(t) then Ok(Draft(t, GetOr(input.isPublished, true)))
      else Err("TechStack validation failed")
  }

  function InputOf(d: Draft<TechStack>): TechStackInput {
    var t := d.fields;
    TechStackInput(
      Some(t.name), Some(t.category), Some(t.level), Some(t.icon), Some(t.description),
      Some(t.order), Some(d.isPublished))
  }

  /** Creating from a complete body of a valid item stores exactly that item. */
  lemma {:induction false} MakeComplete(d: Draft<TechStack>)
    requires Valid(d.fields)
    ensures Make(InputOf(d)) == Ok(d)
  {
    var r := Make(InputOf(d));
    var t := r.value.fields;
    assert t.name == d.fields.name;
    assert t.category == d.fields.category && t.level == d.fields.level;
    assert t.icon == d.fields.icon && t.description == d.fields.description;
    assert t.order == d.fields.order && r.value.isPublished == d.isPublished;
  }

  /** The index `{ category: 1, order: 1 }`, which is also the sort of both list routes:
      category in binary string order, then order ascending. */
  predicate Before(a: Doc<TechStack>, b: Doc<TechStack>) {
    var (ca, cb) := (a.fields.category, b.fields.category);
    (StrLe(ca, cb) && ca != cb) || (ca == cb && a.fields.order <= b.fields.order)
  }

  lemma {:induction false} BeforeIsTotalPreorder()
    ensures TotalPreorder(Before)
  {
    forall a, b ensures Before(a, b) || Before(b, a) {
      StrLeTotal(a.fields.category, b.fields.category);
    }
    forall a, b, c | Before(a, b) && Before(b, c) ensures Before(a, c) {
      var (ca, cb, cc) := (a.fields.category, b.fields.category, c.fields.category);
      if ca != cb && cb != cc {
        StrLeTrans(ca, cb, cc);
        if ca == cc {
          StrLeAntisym(ca, cb);
        }
      } else if ca != cb && cb == cc {
      } else if ca == cb && cb != cc {
      }
    }
  }
}
