/** The layouts screen: a list of page sections, a create/edit form that needs a title,
    a description and at least one image, and a multipart submission in a fixed order. */
module Layout {
  import opened Js
  import opened Http
  import opened Collection

  /** The draft the form starts from and is reset to after a save or a create click. */
  function InitialDraft(): Obj {
    [ Field("sectionTheme", Str("lemarc1")), Field("images", Arr([])), Field("imagePreviews", Arr([])),
      Field("title", Str("")), Field("description", Str("")),
      Field("layout_text_position", Str("left")), Field("layout_images_position", Str("right")) ]
  }

  /** The draft fields sent before the images, in the order they are appended. */
  const LayoutFields: seq<string> :=
    ["sectionTheme", "title", "description", "layout_text_position", "layout_images_position"]

  /** The local check a submission has to pass: a title, a description and an image. */
  predicate Complete(d: Obj) {
    Truthy(Get(d, "title")) && Truthy(Get(d, "description")) && |Elems(Get(d, "images"))| >= 1
  }

  /** The multipart body a layout submission sends. */
  function LayoutParts(d: Obj): seq<Part> {
    FieldsThenEach(d, LayoutFields, "images")
  }

  /** `files.map((file) => URL.createObjectURL(file))`: one preview handle per file. */
  function Previews(files: seq<Value>): (r: seq<Value>)
    ensures |r| == |files|
    ensures forall i :: 0 <= i < |files| ==> r[i] == ObjectUrl(files[i])
  {
    if files == [] then [] else [ObjectUrl(files[0])] + Previews(files[1..])
  }

  /** Where stored layout images are served from; the stored paths begin with a slash. */
  const ImageBase := "http://localhost:9000"

  /** `handleEdit` reads `[0]` of three fields and maps `images`: that throws, and the edit
      does not happen, unless the three can be read and `images` is an array. */
  predicate EditReadable(layout: Obj) {
    && Readable(Get(layout, "sectionTheme"))
    && Readable(Get(layout, "title"))
    && Readable(Get(layout, "description"))
    && Get(layout, "images").Arr?
  }

  /** The draft `handleEdit(layout)` builds: first elements of the three text fields, the two
      positions as they are, no staged images, and the stored images as preview URLs. */
  function EditDraft(layout: Obj): Obj {
    [ Field("sectionTheme", First(Get(layout, "sectionTheme"))),
      Field("title", First(Get(layout, "title"))),
      Field("description", First(Get(layout, "description"))),
      Field("layout_text_position", Get(layout, "layout_text_position")),
      Field("layout_images_position", Get(layout, "layout_images_position")),
      Field("images", Arr([])),
      Field("imagePreviews", Arr(Prefixed(ImageBase, Elems(Get(layout, "images"))))) ]
  }

  /** A fresh form cannot be submitted. */
  lemma InitialIncomplete()
    ensures !Complete(InitialDraft())
  {
  }

  /** An edit starts with no staged image, so it cannot be saved until images are chosen again. */
  lemma EditNeedsImages(layout: Obj)
    ensures !Complete(EditDraft(layout))
    ensures Get(EditDraft(layout), "imagePreviews") == Arr(Prefixed(ImageBase, Elems(Get(layout, "images"))))
  {
    GetFound(EditDraft(layout), 5);
    GetFound(EditDraft(layout), 6);
  }

  /** An edit keeps only element `[0]` of the theme, the title and the description: a field
      stored as an array is seeded with its first element, and one stored as a plain string
      with its first character alone, so saving that edit unchanged shortens the string. */
  lemma EditTakesFirst(layout: Obj, k: string)
    requires k == "sectionTheme" || k == "title" || k == "description"
    ensures var v := Get(layout, k);
      v.Arr? && v.elems != [] && v.elems[0] != Hole ==> Get(EditDraft(layout), k) == v.elems[0]
    ensures var v := Get(layout, k);
      v.Str? && v.s != "" ==> Get(EditDraft(layout), k) == Str(v.s[..1])
    ensures var v := Get(layout, k);
      v.Str? && |v.s| > 1 ==> Get(EditDraft(layout), k) != v
  {
    var v := Get(layout, k);
    assert Get(EditDraft(layout), k) == First(v) by {
      var d := EditDraft(layout);
      if k == "sectionTheme" {
        GetFound(d, 0);
      } else if k == "title" {
        GetFound(d, 1);
      } else {
        GetFound(d, 2);
      }
    }
    if v.Str? && v.s != "" {
      assert First(v) == Str(v.s[..1]) by {
        assert [v.s[0]] == v.s[..1];
      }
    }
  }

  /** The five fields go first, in their order, each once; then every staged image under
      `images`, in order; the previews are never sent. */
  lemma LayoutPayload(d: Obj, name: string)
    ensures forall i :: 0 <= i < |LayoutFields| ==> LayoutParts(d)[i] == Part(LayoutFields[i], Get(d, LayoutFields[i]))
    ensures Named(LayoutParts(d), "images") == Staged(Elems(Get(d, "images")))
    ensures name in LayoutFields ==> Named(LayoutParts(d), name) == [Get(d, name)]
    ensures name !in LayoutFields && name != "images" ==> Named(LayoutParts(d), name) == []
    ensures Named(LayoutParts(d), "imagePreviews") == []
  {
    assert Distinct(LayoutFields);
    assert "images" !in LayoutFields;
    assert "imagePreviews" !in LayoutFields;
    FieldsThenEachNamed(d, LayoutFields, "images", name);
    FieldsThenEachNamed(d, LayoutFields, "images", "images");
    FieldsThenEachNamed(d, LayoutFields, "images", "imagePreviews");
  }

  /** The draft after files are chosen: the files as an array, and one preview per file. */
  function WithFiles(d: Obj, files: seq<Value>): Obj {
    Set(Set(d, "images", Arr(Unholed(files))), "imagePreviews", Arr(Previews(Unholed(files))))
  }

  /** After a file change the next submission sends exactly the chosen files, in order,
      and passes the image check exactly when at least one file was chosen. */
  lemma ChosenFilesSent(d: Obj, files: seq<Value>)
    ensures Named(LayoutParts(WithFiles(d, files)), "images") == Unholed(files)
    ensures Complete(WithFiles(d, files)) <==>
      Truthy(Get(d, "title")) && Truthy(Get(d, "description")) && |files| >= 1
  {
    var staged := Set(d, "images", Arr(Unholed(files)));
    var d' := WithFiles(d, files);
    LayoutPayload(d', "images");
    SetGet(staged, "imagePreviews", Arr(Previews(Unholed(files))), "images");
    SetGet(d, "images", Arr(Unholed(files)), "images");
    SetGet(staged, "imagePreviews", Arr(Previews(Unholed(files))), "title");
    SetGet(d, "images", Arr(Unholed(files)), "title");
    SetGet(staged, "imagePreviews", Arr(Previews(Unholed(files))), "description");
    SetGet(d, "images", Arr(Unholed(files)), "description");
    StagedNoHoles(Unholed(files));
  }

  /** Appends the five fields one by one, then each image, to a fresh `FormData`. */
  method BuildLayoutPayload(d: Obj) returns (parts: seq<Part>)
    ensures parts == LayoutParts(d)
  {
    var fd := new FormData();
    fd.Append("sectionTheme", Get(d, "sectionTheme"));
    fd.Append("title", Get(d, "title"));
    fd.Append("description", Get(d, "description"));
    fd.Append("layout_text_position", Get(d, "layout_text_position"));
    fd.Append("layout_images_position", Get(d, "layout_images_position"));
    AppendEach(fd, "images", Elems(Get(d, "images")));
    parts := fd.entries;
  }

  /** The state of `Layout`: the list, the loading flag, the draft and the edit mode. */
  class LayoutPage {
    var data: seq<Value>
    var loading: bool
    var formData: Obj
    var isEditing: bool
    var editingId: Value

    constructor ()
      ensures data == [] && loading && formData == InitialDraft()
      ensures !isEditing && editingId == Null
    {
      data := [];
      loading := true;
      formData := InitialDraft();
      isEditing := false;
      editingId := Null;
    }

    /** `fetchLayouts`: an ok reply's `result.data || []` becomes the list; loading always ends. */
    method FetchLayouts(reply: Reply) returns (req: Request)
      modifies this
      ensures req == Bare(GET, Api + "layout")
      ensures OkJson(reply) && Readable(reply.body.json) ==>
        var listed := Member(reply.body.json, "data");
        data == if Truthy(listed) then AsList(listed, old(data)) else []
      ensures !(OkJson(reply) && Readable(reply.body.json)) ==> data == old(data)
      ensures !loading
      ensures formData == old(formData) && isEditing == old(isEditing) && editingId == old(editingId)
    {
      req := Bare(GET, Api + "layout");
      loading := true;
      if OkJson(reply) && Readable(reply.body.json) {
        var listed := Member(reply.body.json, "data");
        data := if Truthy(listed) then AsList(listed, data) else [];
      }
      loading := false;
    }

    /** `handleFormChange(e)`: chosen files replace the images wholesale, with one preview
        per file; any other input sets the one field it names. */
    method HandleFormChange(e: InputEvent)
      modifies this
      ensures e.TextInput? ==> formData == Set(old(formData), e.name, Str(e.value))
      ensures e.FileInput? ==> formData == WithFiles(old(formData), e.files)
      ensures e.FileInput? ==>
        && Get(formData, "images") == Arr(Unholed(e.files))
        && Elems(Get(formData, "imagePreviews")) == Previews(Elems(Get(formData, "images")))
      ensures forall k :: k != (if e.TextInput? then e.name else "images") && (e.TextInput? || k != "imagePreviews") ==>
        Get(formData, k) == Get(old(formData), k)
      ensures data == old(data) && loading == old(loading)
      ensures isEditing == old(isEditing) && editingId == old(editingId)
    {
      match e {
        case TextInput(name, value) =>
          formData := Set(formData, name, Str(value));
          forall k | k != name ensures Get(formData, k) == Get(old(formData), k) {
            SetGet(old(formData), name, Str(value), k);
          }
        case FileInput(_, files) =>
          var images := Unholed(files);
          var staged := Set(formData, "images", Arr(images));
          formData := Set(staged, "imagePreviews", Arr(Previews(images)));
          SetGet(staged, "imagePreviews", Arr(Previews(images)), "images");
          SetGet(old(formData), "images", Arr(images), "images");
          SetGet(staged, "imagePreviews", Arr(Previews(images)), "imagePreviews");
          forall k | k != "images" && k != "imagePreviews" ensures Get(formData, k) == Get(old(formData), k) {
            SetGet(staged, "imagePreviews", Arr(Previews(images)), k);
            SetGet(old(formData), "images", Arr(images), k);
          }
      }
    }

    /** `handleFormSubmit`: an incomplete draft stops before any request. Otherwise PUT to
        the edited layout or POST a new one; on an ok JSON reply merge `result.data`, leave
        edit mode and reset the draft. The merge reads `result` only when it appends or
        when an entry carries the edited id; a `null` body then throws into the `catch`
        and, like a failed or unparsable reply, changes nothing. */
    method HandleFormSubmit(reply: Reply) returns (req: Option<Request>)
      modifies this
      ensures !Complete(old(formData)) ==> req == None
      ensures Complete(old(formData)) ==>
        req == Some(Request(
          if old(isEditing) then PUT else POST,
          if old(isEditing) then Api + "layout/" + Text(old(editingId)) else Api + "layout/create",
          Multipart(LayoutParts(old(formData)))))
      ensures Complete(old(formData)) && OkJson(reply)
              && (Readable(reply.body.json) || !MergeReads(old(isEditing), old(editingId), old(data))) ==>
        && data == (if old(isEditing)
                    then Replace(old(data), old(editingId), Member(reply.body.json, "data"))
                    else old(data) + [Member(reply.body.json, "data")])
        && !isEditing && editingId == Null && formData == InitialDraft()
      ensures !(Complete(old(formData)) && OkJson(reply)
                && (Readable(reply.body.json) || !MergeReads(old(isEditing), old(editingId), old(data)))) ==>
        && data == old(data) && formData == old(formData)
        && isEditing == old(isEditing) && editingId == old(editingId)
      ensures Complete(old(formData)) && OkJson(reply) && !Readable(reply.body.json) ==> data == old(data)
      ensures loading == old(loading)
    {
      if !Complete(formData) {
        return None;
      }
      var parts := BuildLayoutPayload(formData);
      var url := if isEditing then Api + "layout/" + Text(editingId) else Api + "layout/create";
      req := Some(Request(if isEditing then PUT else POST, url, Multipart(parts)));
      if OkJson(reply) && (Readable(reply.body.json) || !MergeReads(isEditing, editingId, data)) {
        var saved := Member(reply.body.json, "data");
        if !Readable(reply.body.json) {
          UnreadMergeKeeps(isEditing, editingId, data, saved);
        }
        data := if isEditing then Replace(data, editingId, saved) else data + [saved];
        isEditing := false;
        editingId := Null;
        formData := InitialDraft();
      }
    }

    /** `handleDelete(id)`: on an ok reply drop every entry with that `_id`. */
    method HandleDelete(id: Value, reply: Reply) returns (req: Request)
      modifies this
      ensures req == Bare(DELETE, Api + "layout/" + Text(id))
      ensures data == if IsOk(reply) then Remove(old(data), id) else old(data)
      ensures loading == old(loading) && formData == old(formData)
      ensures isEditing == old(isEditing) && editingId == old(editingId)
    {
      req := Bare(DELETE, Api + "layout/" + Text(id));
      if IsOk(reply) {
        data := Remove(data, id);
      }
    }

    /** `handleEdit(layout)`: seed the draft from the record and enter edit mode; a record
        whose fields cannot be read throws and changes nothing. */
    method HandleEdit(layout: Obj)
      modifies this
      ensures EditReadable(layout) ==>
        formData == EditDraft(layout) && isEditing && editingId == Get(layout, "_id")
      ensures !EditReadable(layout) ==>
        formData == old(formData) && isEditing == old(isEditing) && editingId == old(editingId)
      ensures data == old(data) && loading == old(loading)
    {
      if EditReadable(layout) {
        formData := EditDraft(layout);
        isEditing := true;
        editingId := Get(layout, "_id");
      }
    }

    /** The "Add Layout" button: create mode with a fresh draft; `editingId` is left as it was. */
    method OpenCreate()
      modifies this
      ensures !isEditing && formData == InitialDraft()
      ensures data == old(data) && loading == old(loading) && editingId == old(editingId)
    {
      isEditing := false;
      formData := InitialDraft();
    }
  }
}
