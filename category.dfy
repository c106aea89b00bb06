/** The product-category screen: a list of categories and a one-field form sent as JSON,
    whose response is merged into the list whatever its status. */
module Category {
  import opened Js
  import opened Http
  import opened Collection
  import opened CategoryForm

  /** The state of `Category`: the list, the loading flag, the draft and the edit mode. */
  class CategoryPage {
    var data: seq<Value>
    var loading: bool
    var formData: Obj
    var isEditing: bool
    var editingId: Value

    constructor ()
      ensures data == [] && loading && formData == InitialDraft()
      ensures !isEditing && editingId == Null
    {
      data := [];
      loading := true;
      formData := InitialDraft();
      isEditing := false;
      editingId := Null;
    }

    /** `fetchCategories`: any reply whose body parses becomes the list, whatever its
        status; loading always ends. */
    method FetchCategories(reply: Reply) returns (req: Request)
      modifies this
      ensures req == Bare(GET, Api + "categories")
      ensures data == if AnyJson(reply) then AsList(reply.body.json, old(data)) else old(data)
      ensures !loading
      ensures formData == old(formData) && isEditing == old(isEditing) && editingId == old(editingId)
    {
      req := Bare(GET, Api + "categories");
      if AnyJson(reply) {
        data := AsList(reply.body.json, data);
      }
      loading := false;
    }

    /** `handleFormChange(e)`: the input sets the one field it names. */
    method HandleFormChange(name: string, value: string)
      modifies this
      ensures formData == Set(old(formData), name, Str(value))
      ensures Get(formData, name) == Str(value)
      ensures forall k :: k != name ==> Get(formData, k) == Get(old(formData), k)
      ensures data == old(data) && loading == old(loading)
      ensures isEditing == old(isEditing) && editingId == old(editingId)
    {
      formData := Set(formData, name, Str(value));
      forall k ensures Get(formData, k) == (if k == name then Str(value) else Get(old(formData), k)) {
        SetGet(old(formData), name, Str(value), k);
      }
    }

    /** `handleFormSubmit`: with edit mode and a truthy id PATCH the draft, otherwise POST it,
        both as JSON. Whatever the status, a body that parses is merged: it replaces the
        edited entries (and edit mode ends) when `isEditing`, else it is appended; then the
        draft is reset. A network error or an unparsable body changes nothing. */
    method HandleFormSubmit(reply: Reply) returns (req: Request)
      modifies this
      ensures req == if old(isEditing) && Truthy(old(editingId))
        then Request(PATCH, Api + "categories/" + Text(old(editingId)), Json(Object(old(formData))))
        else Request(POST, Api + "categories", Json(Object(old(formData))))
      ensures AnyJson(reply) ==>
        && data == (if old(isEditing)
                    then Replace(old(data), old(editingId), reply.body.json)
                    else old(data) + [reply.body.json])
        && formData == InitialDraft()
        && !isEditing
        && editingId == (if old(isEditing) then Null else old(editingId))
      ensures !AnyJson(reply) ==>
        && data == old(data) && formData == old(formData)
        && isEditing == old(isEditing) && editingId == old(editingId)
      ensures !loading
    {
      loading := true;
      if isEditing && Truthy(editingId) {
        req := Request(PATCH, Api + "categories/" + Text(editingId), Json(Object(formData)));
      } else {
        req := Request(POST, Api + "categories", Json(Object(formData)));
      }
      if AnyJson(reply) {
        var updated := reply.body.json;
        if isEditing {
          data := Replace(data, editingId, updated);
          isEditing := false;
          editingId := Null;
        } else {
          data := data + [updated];
        }
        formData := InitialDraft();
      }
      loading := false;
    }

    /** `handleDelete(id)`: on an ok reply drop every entry with that `_id`. */
    method HandleDelete(id: Value, reply: Reply) returns (req: Request)
      modifies this
      ensures req == Bare(DELETE, Api + "categories/" + Text(id))
      ensures data == if IsOk(reply) then Remove(old(data), id) else old(data)
      ensures loading == old(loading) && formData == old(formData)
      ensures isEditing == old(isEditing) && editingId == old(editingId)
    {
      req := Bare(DELETE, Api + "categories/" + Text(id));
      if IsOk(reply) {
        data := Remove(data, id);
      }
    }

    /** `handleEdit(category)`: seed the draft with the record's name and enter edit mode. */
    method HandleEdit(category: Obj)
      modifies this
      ensures formData == EditDraft(category) && editingId == Get(category, "_id") && isEditing
      ensures data == old(data) && loading == old(loading)
    {
      formData := EditDraft(category);
      editingId := Get(category, "_id");
      isEditing := true;
    }

    /** The "add" button: create mode with a fresh draft; `editingId` is left as it was. */
    method OpenCreate()
      modifies this
      ensures !isEditing && formData == InitialDraft()
      ensures data == old(data) && loading == old(loading) && editingId == old(editingId)
    {
      isEditing := false;
      formData := InitialDraft();
    }
  }
}
