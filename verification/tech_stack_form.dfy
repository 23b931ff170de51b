/** The tech-stack editor. Its state is the request body itself: submit sends it verbatim. */
module TechStackForm {
  import opened Wrappers
  import opened Records
  import opened FormCommon
  import opened TechStackSchema

  datatype FormState = FormState(
    name: string, category: string, level: int, icon: string, description: string,
    order: int, isPublished: bool)

  const DefaultCategory: string := "languages"
  const DefaultLevel: int := 50

  const Blank: FormState := FormState("", DefaultCategory, DefaultLevel, "", "", 0, true)

  /** Loading an item for editing, as written: `level || 50`, so a stored level of 0 (a level
      the schema admits) loads as 50, like a missing one. A missing category loads as
      "languages", every other missing or empty text "", a missing or zero order 0, and the
      publish flag uses `??`. */
  function Load(t: TechStackInput): (r: FormState)
    ensures t.level.None? || t.level.value == 0 ==> r.level == DefaultLevel
    ensures t.level.Some? && t.level.value != 0 ==> r.level == t.level.value
    ensures LoadedText(t.name, "", r.name) && LoadedText(t.category, DefaultCategory, r.category)
    ensures LoadedText(t.icon, "", r.icon) && LoadedText(t.description, "", r.description)
    ensures LoadedNumber(t.order, 0, r.order)
    ensures t.isPublished.Some? ==> r.isPublished == t.isPublished.value
    ensures t.isPublished.None? ==> r.isPublished
  {
    FormState(
      OrText(t.name, ""), OrText(t.category, DefaultCategory), OrNumber(t.level, DefaultLevel),
      OrText(t.icon, ""), OrText(t.description, ""), OrNumber(t.order, 0),
      GetOr(t.isPublished, true))
  }

  /** Loading with `level ?? 50`: only a missing level takes the default. */
  function LoadKeepingLevel(t: TechStackInput): (r: FormState)
    ensures t.level.Some? ==> r.level == t.level.value
    ensures t.level.None? ==> r.level == DefaultLevel
    ensures r == Load(t).(level := r.level)
  {
    Load(t).(level := GetOr(t.level, DefaultLevel))
  }

  /** The level box: `parseInt(value) || 0`, so an entry that is not a number sets 0, and
      nothing else of the form changes. */
  function EnterLevel(f: FormState, parsed: Option<int>): (r: FormState)
    ensures parsed.None? ==> r.level == 0
    ensures parsed.Some? ==> r.level == parsed.value
    ensures r.(level := f.level) == f
  {
    f.(level := NumberEntry(parsed))
  }

  /** The request body is the form state verbatim: every path present, nothing transformed. */
  function Payload(f: FormState): (r: TechStackInput)
    ensures r.name == Some(f.name) && r.category == Some(f.category) && r.level == Some(f.level)
    ensures r.icon == Some(f.icon) && r.description == Some(f.description)
    ensures r.order == Some(f.order) && r.isPublished == Some(f.isPublished)
  {
    TechStackInput(Some(f.name), Some(f.category), Some(f.level), Some(f.icon),
                   Some(f.description), Some(f.order), Some(f.isPublished))
  }

  /** With the loading as written, every stored item of level 0 that is opened and saved
      unchanged is stored back with level 50. */
  lemma {:induction false} ZeroLevelBecomesFifty(d: Draft<TechStack>)
    requires Valid(d.fields) && d.fields.level == 0
    ensures Make(Payload(Load(InputOf(d)))).Ok?
    ensures Make(Payload(Load(InputOf(d)))).value.fields.level == 50
    ensures Make(Payload(Load(InputOf(d)))) != Ok(d)
  {
    var f := Load(InputOf(d));
    assert f.level == 50;
    assert f.name == d.fields.name && f.category == d.fields.category;
    assert f.icon == d.fields.icon && f.description == d.fields.description;
  }

  /** A concrete item the loading as written changes: "Go", a language at level 0. */
  lemma {:induction false} ZeroLevelExample()
    ensures var d := Draft(TechStack("Go", "languages", 0, "go", "Language", 0), true);
      Valid(d.fields) && Make(Payload(Load(InputOf(d)))) != Ok(d)
  {
    var d := Draft(TechStack("Go", "languages", 0, "go", "Language", 0), true);
    assert Categories[0] == "languages";
    assert !Text.IsSpace('G') && !Text.IsSpace('o');
    ZeroLevelBecomesFifty(d);
  }

  /** With `level ?? 50`, every stored item opened and saved unchanged is stored back as it
      was. */
  lemma {:induction false} EditRoundTrip(d: Draft<TechStack>)
    requires Valid(d.fields)
    ensures Payload(LoadKeepingLevel(InputOf(d))) == InputOf(d)
    ensures Make(Payload(LoadKeepingLevel(InputOf(d)))) == Ok(d)
  {
    var t := d.fields;
    var f := LoadKeepingLevel(InputOf(d));
    assert f.name == t.name && f.category == t.category && f.level == t.level;
    assert f.icon == t.icon && f.description == t.description;
    assert f.order == t.order && f.isPublished == d.isPublished;
    MakeComplete(d);
  }
}
