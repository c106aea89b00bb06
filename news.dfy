/** The news screen: a list of news items, a create/edit form that needs a title, a
    description and a date, a multipart submission, and a full re-fetch after every save. */
module News {
  import opened Js
  import opened Http
  import opened Collection

  /** The draft the form starts from and is reset to after a save or a create click. */
  function InitialDraft(): Obj {
    [ Field("title", Str("")), Field("descriptions", Str("")), Field("date", Str("")), Field("images", Arr([])) ]
  }

  /** The draft fields sent before the files, in the order they are appended. */
  const NewsFields: seq<string> := ["title", "descriptions", "date"]

  /** The local check a submission has to pass: title, description and date are filled in. */
  predicate Complete(d: Obj) {
    Truthy(Get(d, "title")) && Truthy(Get(d, "descriptions")) && Truthy(Get(d, "date"))
  }

  /** The multipart body a news submission sends. */
  function NewsParts(d: Obj): seq<Part> {
    FieldsThenEach(d, NewsFields, "images")
  }

  /** The draft `handleEdit(newsItem)` builds: the three text fields as stored, no files. */
  function EditDraft(item: Obj): Obj {
    [ Field("title", Get(item, "title")), Field("descriptions", Get(item, "descriptions")),
      Field("date", Get(item, "date")), Field("images", Arr([])) ]
  }

  /** A fresh form cannot be submitted. */
  lemma InitialIncomplete()
    ensures !Complete(InitialDraft())
  {
  }

  /** An edit passes the handler's own check exactly when the item's three fields are
      truthy: that check asks for no file, and the stored files are not resent. (The file
      input's `required` attribute, which the browser checks before the handler runs, is
      not part of this model.) */
  lemma EditDraftComplete(item: Obj)
    ensures Complete(EditDraft(item)) <==>
      Truthy(Get(item, "title")) && Truthy(Get(item, "descriptions")) && Truthy(Get(item, "date"))
    ensures Named(NewsParts(EditDraft(item)), "images") == []
  {
    var d := EditDraft(item);
    GetFound(d, 0);
    GetFound(d, 1);
    GetFound(d, 2);
    GetFound(d, 3);
    assert "images" !in NewsFields;
    assert Distinct(NewsFields);
    FieldsThenEachNamed(d, NewsFields, "images", "images");
  }

  /** The three fields go first, in their order, each once; then every chosen file under
      `images`, in order; nothing else is sent. */
  lemma NewsPayload(d: Obj, name: string)
    ensures forall i :: 0 <= i < |NewsFields| ==> NewsParts(d)[i] == Part(NewsFields[i], Get(d, NewsFields[i]))
    ensures Named(NewsParts(d), "images") == Staged(Elems(Get(d, "images")))
    ensures name in NewsFields ==> Named(NewsParts(d), name) == [Get(d, name)]
    ensures name !in NewsFields && name != "images" ==> Named(NewsParts(d), name) == []
  {
    assert Distinct(NewsFields);
    assert "images" !in NewsFields;
    FieldsThenEachNamed(d, NewsFields, "images", name);
    FieldsThenEachNamed(d, NewsFields, "images", "images");
  }

  /** After a file change the next submission sends exactly the chosen files, in order. */
  lemma ChosenFilesSent(d: Obj, files: seq<Value>)
    ensures Named(NewsParts(Set(d, "images", Arr(Unholed(files)))), "images") == Unholed(files)
  {
    var d' := Set(d, "images", Arr(Unholed(files)));
    NewsPayload(d', "images");
    SetGet(d, "images", Arr(Unholed(files)), "images");
    StagedNoHoles(Unholed(files));
  }

  /** Appends the three fields one by one, then each file, to a fresh `FormData`. */
  method BuildNewsPayload(d: Obj) returns (parts: seq<Part>)
    ensures parts == NewsParts(d)
  {
    var fd := new FormData();
    fd.Append("title", Get(d, "title"));
    fd.Append("descriptions", Get(d, "descriptions"));
    fd.Append("date", Get(d, "date"));
    AppendEach(fd, "images", Elems(Get(d, "images")));
    parts := fd.entries;
  }

  /** The state of `News`: the list, the loading flag, the edit mode and the draft. */
  class NewsPage {
    var data: seq<Value>
    var loading: bool
    var isEditing: bool
    var editingId: Value
    var formData: Obj

    constructor ()
      ensures data == [] && loading && !isEditing && editingId == Null
      ensures formData == InitialDraft()
    {
      data := [];
      loading := true;
      isEditing := false;
      editingId := Null;
      formData := InitialDraft();
    }

    /** `dataRequest`: an ok JSON reply becomes the list; loading always ends. It catches
        its own failures, so it never throws into a caller. */
    method DataRequest(reply: Reply) returns (req: Request)
      modifies this
      ensures req == Bare(GET, Api + "news/")
      ensures data == if OkJson(reply) then AsList(reply.body.json, old(data)) else old(data)
      ensures !loading
      ensures isEditing == old(isEditing) && editingId == old(editingId) && formData == old(formData)
    {
      req := Bare(GET, Api + "news/");
      if OkJson(reply) {
        data := AsList(reply.body.json, data);
      }
      loading := false;
    }

    /** `handleFormChange(e)`: the input sets the one field it names. */
    method HandleFormChange(name: string, value: string)
      modifies this
      ensures formData == Set(old(formData), name, Str(value))
      ensures Get(formData, name) == Str(value)
      ensures forall k :: k != name ==> Get(formData, k) == Get(old(formData), k)
      ensures data == old(data) && loading == old(loading)
      ensures isEditing == old(isEditing) && editingId == old(editingId)
    {
      formData := Set(formData, name, Str(value));
      forall k ensures Get(formData, k) == (if k == name then Str(value) else Get(old(formData), k)) {
        SetGet(old(formData), name, Str(value), k);
      }
    }

    /** `handleFileChange(e)`: the chosen files replace `images` wholesale. */
    method HandleFileChange(files: seq<Value>)
      modifies this
      ensures formData == Set(old(formData), "images", Arr(Unholed(files)))
      ensures Get(formData, "images") == Arr(Unholed(files))
      ensures forall k :: k != "images" ==> Get(formData, k) == Get(old(formData), k)
      ensures data == old(data) && loading == old(loading)
      ensures isEditing == old(isEditing) && editingId == old(editingId)
    {
      formData := Set(formData, "images", Arr(Unholed(files)));
      forall k ensures Get(formData, k) == (if k == "images" then Arr(Unholed(files)) else Get(old(formData), k)) {
        SetGet(old(formData), "images", Arr(Unholed(files)), k);
      }
    }

    /** `handleFormSubmit`: an incomplete draft stops before any request. Otherwise PATCH the
        edited item or POST a new one; on an ok status re-fetch the whole list (`refresh` is
        that request's reply), then reset the draft and leave edit mode. Loading always ends. */
    method HandleFormSubmit(reply: Reply, refresh: Reply) returns (reqs: seq<Request>)
      modifies this
      ensures !Complete(old(formData)) ==> reqs == []
      ensures Complete(old(formData)) ==>
        && |reqs| == (if IsOk(reply) then 2 else 1)
        && reqs[0] == Request(
             if old(isEditing) then PATCH else POST,
             if old(isEditing) then Api + "news/" + Text(old(editingId)) else Api + "news/create",
             Multipart(NewsParts(old(formData))))
      ensures Complete(old(formData)) && IsOk(reply) ==>
        && reqs[1] == Bare(GET, Api + "news/")
        && data == (if OkJson(refresh) then AsList(refresh.body.json, old(data)) else old(data))
        && formData == InitialDraft() && !isEditing && editingId == Null
      ensures !(Complete(old(formData)) && IsOk(reply)) ==>
        && data == old(data) && formData == old(formData)
        && isEditing == old(isEditing) && editingId == old(editingId)
      ensures !loading
    {
      loading := true;
      if !Complete(formData) {
        loading := false;
        return [];
      }
      var parts := BuildNewsPayload(formData);
      var url := if isEditing then Api + "news/" + Text(editingId) else Api + "news/create";
      reqs := [Request(if isEditing then PATCH else POST, url, Multipart(parts))];
      if IsOk(reply) {
        var fetch := DataRequest(refresh);
        reqs := reqs + [fetch];
        formData := InitialDraft();
        isEditing := false;
        editingId := Null;
      }
      loading := false;
    }

    /** `handleDelete(id)`: on an ok reply drop every entry with that `_id`; an error reply
        is only reported. */
    method HandleDelete(id: Value, reply: Reply) returns (req: Request)
      modifies this
      ensures req == Bare(DELETE, Api + "news/" + Text(id))
      ensures data == if IsOk(reply) then Remove(old(data), id) else old(data)
      ensures loading == old(loading) && formData == old(formData)
      ensures isEditing == old(isEditing) && editingId == old(editingId)
    {
      req := Bare(DELETE, Api + "news/" + Text(id));
      if IsOk(reply) {
        data := Remove(data, id);
      }
    }

    /** `handleEdit(newsItem)`: enter edit mode on the item and seed the draft from it. */
    method HandleEdit(item: Obj)
      modifies this
      ensures isEditing && editingId == Get(item, "_id") && formData == EditDraft(item)
      ensures data == old(data) && loading == old(loading)
    {
      isEditing := true;
      editingId := Get(item, "_id");
      formData := EditDraft(item);
    }

    /** The "add" button: create mode with a fresh draft; `editingId` is left as it was. */
    method OpenCreate()
      modifies this
      ensures !isEditing && formData == InitialDraft()
      ensures data == old(data) && loading == old(loading) && editingId == old(editingId)
    {
      isEditing := false;
      formData := InitialDraft();
    }
  }
}
