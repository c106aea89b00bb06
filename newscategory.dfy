/** The news-category screen: a list of categories and a one-field form sent as JSON. */
module NewsCategory {
  import opened Js
  import opened Http
  import opened Collection
  import opened CategoryForm

  /** The body every create sends, whatever the form holds. */
  function SampleCategory(): Value {
    Object([Field("category_name", Str("Sample Category"))])
  }

  /** The state of `NewsCategory`: the list, the loading flag, the draft and the edit mode. */
  class NewsCategoryPage {
    var data: seq<Value>
    var loading: bool
    var formData: Obj
    var isEditing: bool
    var editingId: Value

    constructor ()
      ensures data == [] && loading && formData == InitialDraft()
      ensures !isEditing && editingId == Null
    {
      data := [];
      loading := true;
      formData := InitialDraft();
      isEditing := false;
      editingId := Null;
    }

    /** `fetchNewsCategories`: any reply whose body parses becomes the list, whatever its
        status; loading always ends. */
    method FetchNewsCategories(reply: Reply) returns (req: Request)
      modifies this
      ensures req == Bare(GET, Api + "news-category")
      ensures data == if AnyJson(reply) then AsList(reply.body.json, old(data)) else old(data)
      ensures !loading
      ensures formData == old(formData) && isEditing == old(isEditing) && editingId == old(editingId)
    {
      req := Bare(GET, Api + "news-category");
      if AnyJson(reply) {
        data := AsList(reply.body.json, data);
      }
      loading := false;
    }

    /** `handleFormChange(e)`: the input sets the one field it names. */
    method HandleFormChange(name: string, value: string)
      modifies this
      ensures formData == Set(old(formData), name, Str(value))
      ensures Get(formData, name) == Str(value)
      ensures forall k :: k != name ==> Get(formData, k) == Get(old(formData), k)
      ensures data == old(data) && loading == old(loading)
      ensures isEditing == old(isEditing) && editingId == old(editingId)
    {
      formData := Set(formData, name, Str(value));
      forall k ensures Get(formData, k) == (if k == name then Str(value) else Get(old(formData), k)) {
        SetGet(old(formData), name, Str(value), k);
      }
    }

    /** `handleFormSubmit`: with edit mode and a truthy id PUT the draft as JSON, otherwise
        POST the fixed sample body. On an ok JSON reply, replace the edited entries (and leave
        edit mode) or append the new one, then reset the draft. Loading always ends. */
    method HandleFormSubmit(reply: Reply) returns (req: Request)
      modifies this
      ensures req == if old(isEditing) && Truthy(old(editingId))
        then Request(PUT, Api + "news-category/update/" + Text(old(editingId)), Json(Object(old(formData))))
        else Request(POST, Api + "news-category/create", Json(SampleCategory()))
      ensures OkJson(reply) ==>
        && data == (if old(isEditing)
                    then Replace(old(data), old(editingId), reply.body.json)
                    else old(data) + [reply.body.json])
        && formData == InitialDraft()
        && !isEditing
        && editingId == (if old(isEditing) then Null else old(editingId))
      ensures !OkJson(reply) ==>
        && data == old(data) && formData == old(formData)
        && isEditing == old(isEditing) && editingId == old(editingId)
      ensures !loading
    {
      loading := true;
      if isEditing && Truthy(editingId) {
        req := Request(PUT, Api + "news-category/update/" + Text(editingId), Json(Object(formData)));
      } else {
        req := Request(POST, Api + "news-category/create", Json(SampleCategory()));
      }
      if OkJson(reply) {
        var updated := reply.body.json;
        if isEditing {
          data := Replace(data, editingId, updated);
          isEditing := false;
          editingId := Null;
        } else {
          data := data + [updated];
        }
        formData := InitialDraft();
      }
      loading := false;
    }

    /** `handleDelete(id)`: on an ok reply drop every entry with that `_id`. */
    method HandleDelete(id: Value, reply: Reply) returns (req: Request)
      modifies this
      ensures req == Bare(DELETE, Api + "news-category/delete/" + Text(id))
      ensures data == if IsOk(reply) then Remove(old(data), id) else old(data)
      ensures loading == old(loading) && formData == old(formData)
      ensures isEditing == old(isEditing) && editingId == old(editingId)
    {
      req := Bare(DELETE, Api + "news-category/delete/" + Text(id));
      if IsOk(reply) {
        data := Remove(data, id);
      }
    }

    /** `handleEdit(category)`: seed the draft with the record's name and enter edit mode. */
    method HandleEdit(category: Obj)
      modifies this
      ensures formData == EditDraft(category) && editingId == Get(category, "_id") && isEditing
      ensures data == old(data) && loading == old(loading)
    {
      formData := EditDraft(category);
      editingId := Get(category, "_id");
      isEditing := true;
    }

    /** The "add" button: create mode with a fresh draft; `editingId` is left as it was. */
    method OpenCreate()
      modifies this
      ensures !isEditing && formData == InitialDraft()
      ensures data == old(data) && loading == old(loading) && editingId == old(editingId)
    {
      isEditing := false;
      formData := InitialDraft();
    }
  }
}
