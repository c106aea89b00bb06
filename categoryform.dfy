/** The one-field form both category screens share: a draft holding only `category_name`. */
module CategoryForm {
  import opened Js

  /** The draft the form starts from and is reset to. */
  function InitialDraft(): Obj {
    [Field("category_name", Str(""))]
  }

  /** The draft `handleEdit(category)` builds: only the record's name. */
  function EditDraft(category: Obj): Obj {
    [Field("category_name", Get(category, "category_name"))]
  }

  /** Whichever way the form was opened, what is typed into its one input is the whole
      draft: typing a name over the fresh draft or over an edit draft gives the same body,
      and nothing else of the edited record is carried along. */
  lemma TypedNameDecides(category: Obj, name: string)
    ensures Set(InitialDraft(), "category_name", Str(name)) == [Field("category_name", Str(name))]
    ensures Set(EditDraft(category), "category_name", Str(name)) == [Field("category_name", Str(name))]
  {
  }
}
