/**
 * The app's built-in category list (`SharedPrefsManager.DEFAULT_CATEGORIES`).
 * None of the defaults is given an id, so every lookup of "the default
 * Other category's id" yields null.
 */
module DefaultCategories {
  import opened Common

  function Default(name: string, argb: int): Category
    requires 0 <= argb < 0x1_0000_0000
  {
    Category(None, None, name, ToInt32(argb))
  }

  function Defaults(): seq<Category> {
    [ Default("Food & Dining", 0xFF4CAF50),
      Default("Transportation", 0xFF2196F3),
      Default("Shopping", 0xFFF44336),
      Default("Entertainment", 0xFF9C27B0),
      Default("Housing", 0xFF795548),
      Default("Utilities", 0xFF607D8B),
      Default("Health", 0xFFE91E63),
      Default("Personal", 0xFFFF9800),
      Default("Education", 0xFF3F51B5),
      Default("Investments", 0xFF009688),
      Default("Payroll", 0xFF4CAF50),
      Default("Pets", 0xFFFF9800),
      Default("Other", 0xFF9E9E9E) ]
  }

  /** `DEFAULT_CATEGORIES.find { it.name == "Other" }?.id`. */
  function DefaultOtherId(): (r: Option<string>)
    ensures r == None
  {
    match Find(Defaults(), (c: Category) => c.name == "Other")
    case None => None
    case Some(c) => c.id
  }

  /** Every default category lacks an id, and the defaults' colors are negative ARGB words. */
  lemma DefaultsHaveNoIds()
    ensures forall i :: 0 <= i < |Defaults()| ==> Defaults()[i].id == None
    ensures forall i :: 0 <= i < |Defaults()| ==> Defaults()[i].color < 0
  {
  }
}
