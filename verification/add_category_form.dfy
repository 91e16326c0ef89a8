/** The add/edit category screen: where its initial type and icon come from,
    and the payload and mutation `handleSave` chooses. */
module AddCategoryForm {
  import opened Wrappers
  import ApiClient

  const Expense := "expense"
  const Income := "income"
  const DefaultIcon := "tag"
  const IncomeColor := "#10b981"
  const ExpenseColor := "#ef4444"
  const MissingName := "Please enter a category name"

  datatype EditedCategory = EditedCategory(id: int, name: string, catType: string, icon: string)

  /** The route's parameters. */
  datatype RouteParams = RouteParams(isEditing: bool, category: Option<EditedCategory>, catType: Option<string>)

  /** The type the screen opens with: the edited category's, else the route's,
      else expense. */
  function InitialType(params: RouteParams): (t: string)
    ensures params.category.Some? && params.category.value.catType != "" ==> t == params.category.value.catType
    ensures !(params.category.Some? && params.category.value.catType != "") && ApiClient.Truthy(params.catType) ==>
      t == params.catType.value
    ensures !(params.category.Some? && params.category.value.catType != "") && !ApiClient.Truthy(params.catType) ==>
      t == Expense
  {
    if params.category.Some? && params.category.value.catType != "" then params.category.value.catType
    else if ApiClient.Truthy(params.catType) then params.catType.value
    else Expense
  }

  /** The icon the screen opens with: the edited category's, else `tag`. */
  function InitialIcon(params: RouteParams): (icon: string)
    ensures params.category.Some? && params.category.value.icon != "" ==> icon == params.category.value.icon
    ensures !(params.category.Some? && params.category.value.icon != "") ==> icon == DefaultIcon
  {
    if params.category.Some? && params.category.value.icon != "" then params.category.value.icon else DefaultIcon
  }

  function InitialName(params: RouteParams): (name: string)
    ensures params.category.Some? ==> name == params.category.value.name
    ensures params.category.None? ==> name == ""
  {
    if params.category.Some? then params.category.value.name else ""
  }

  /** The colour stored with a category of type `t`. */
  function ColorFor(t: string): (color: string)
    ensures t == Income <==> color == IncomeColor
    ensures t != Income <==> color == ExpenseColor
  {
    if t == Income then IncomeColor else ExpenseColor
  }

  datatype CategoryData = CategoryData(name: string, catType: string, icon: string, color: string)

  /** Why no mutation is sent: an alert, or the `TypeError` of reading the id
      of a missing category. */
  datatype Refusal = Alert(message: string) | MissingCategory

  datatype Mutation = AddCategory(data: CategoryData) | UpdateCategory(id: int, data: CategoryData)

  /** `handleSave`: an empty name is refused; otherwise editing updates the
      edited category's id with the data and creating adds the data alone. An
      edit whose route carries no category fails reading its id. */
  function HandleSave(params: RouteParams, name: string, t: string, icon: string): (r: Result<Mutation, Refusal>)
    ensures name == "" ==> r == Err(Alert(MissingName))
    ensures name != "" && !params.isEditing ==> r == Ok(AddCategory(CategoryData(name, t, icon, ColorFor(t))))
    ensures name != "" && params.isEditing && params.category.Some? ==>
      r == Ok(UpdateCategory(params.category.value.id, CategoryData(name, t, icon, ColorFor(t))))
    ensures name != "" && params.isEditing && params.category.None? ==> r == Err(MissingCategory)
  {
    var data := CategoryData(name, t, icon, ColorFor(t));
    if name == "" then Err(Alert(MissingName))
    else if !params.isEditing then Ok(AddCategory(data))
    else if params.category.None? then Err(MissingCategory)
    else Ok(UpdateCategory(params.category.value.id, data))
  }

  /** Opening an existing category and saving it unchanged updates that same
      category with its own name, type and icon. */
  lemma UnchangedEditSavesSameCategory(c: EditedCategory)
    requires c.name != "" && c.catType != "" && c.icon != ""
    ensures var params := RouteParams(true, Some(c), None);
      HandleSave(params, InitialName(params), InitialType(params), InitialIcon(params))
      == Ok(UpdateCategory(c.id, CategoryData(c.name, c.catType, c.icon, ColorFor(c.catType))))
  {
  }

  /** The alert after the mutation settles. */
  function AfterSave(isEditing: bool, reply: Option<Option<string>>): (alert: (string, string))
    ensures reply.None? ==> alert == ("Success", if isEditing then "Category updated!" else "Category added!")
    ensures reply.Some? ==> alert == ("Error", ApiClient.ErrorDetail(reply.value,
                                       if isEditing then "Failed to update category" else "Failed to add category"))
  {
    match reply
    case None => ("Success", if isEditing then "Category updated!" else "Category added!")
    case Some(detail) =>
      ("Error", ApiClient.ErrorDetail(detail, if isEditing then "Failed to update category" else "Failed to add category"))
  }
}
