/** The products screen: a product list, a create/edit form with up to six
    image slots and a PDF, and a multipart submission built in draft-key order. */
module Products {
  import opened Js
  import opened Http
  import opened Collection

  /** The properties of the `initialFormData` literal, in the order written. */
  function InitialFields(): Obj {
    [ Field("name", Str("")), Field("description", Str("")), Field("price", Str("")),
      Field("category", Str("asd")), Field("stock", Str("")), Field("rating", Str("")),
      Field("volume", Str("")), Field("discount_price", Str("")), Field("promotion", Bool(false)),
      Field("ruler", Str("")), Field("oils_type", Str("")), Field("fidbek", Str("")),
      Field("images", Arr([])), Field("imagePreviews", Arr([])), Field("pdf", Null) ]
  }

  /** `initialFormData`: an object literal, i.e. its properties written onto `{}` in order. */
  function InitialFormData(): (d: Obj)
    ensures UniqueKeys(d)
  {
    SpreadKeys([], InitialFields());
    Spread([], InitialFields())
  }

  /** Where the server serves stored product files from. */
  const AssetBase := "http://localhost:9000/"

  /** The images an edit starts from: the record's `image`, wrapped in an array unless it is one. */
  function SeedImages(image: Value): Value {
    if image.Arr? then image else Arr([image])
  }

  /** The previews an edit starts from: one server URL per stored image path. */
  function SeedPreviews(image: Value): Value {
    if image.Arr? then Arr(Prefixed(AssetBase, image.elems))
    else if Truthy(image) then Arr([Str(AssetBase + Text(image))])
    else Arr([])
  }

  /** `{...base, ...product, images: ..., imagePreviews: ...}` with both image slots
      taken from the record's `image`. */
  function Seeded(base: Obj, product: Obj): Obj {
    var image := Get(product, "image");
    Set(Set(Spread(base, product), "images", SeedImages(image)), "imagePreviews", SeedPreviews(image))
  }

  /** Seeding keeps the base keys first, in their order, and keeps keys unique; the image
      slots come from the record's `image`; every other field is the record's value when
      the record has the key, the base value otherwise. */
  lemma SeededFields(base: Obj, product: Obj, k: string)
    requires UniqueKeys(base)
    ensures UniqueKeys(Seeded(base, product))
    ensures Keys(base) <= Keys(Seeded(base, product))
    ensures Get(Seeded(base, product), "images") == SeedImages(Get(product, "image"))
    ensures Get(Seeded(base, product), "imagePreviews") == SeedPreviews(Get(product, "image"))
    ensures UniqueKeys(product) && k != "images" && k != "imagePreviews" ==>
      Get(Seeded(base, product), k) == if k in Keys(product) then Get(product, k) else Get(base, k)
  {
    var image := Get(product, "image");
    var s := Spread(base, product);
    var s1 := Set(s, "images", SeedImages(image));
    SpreadKeys(base, product);
    assert UniqueKeys(Seeded(base, product)) by {
      SetUnique(s, "images", SeedImages(image));
      SetUnique(s1, "imagePreviews", SeedPreviews(image));
    }
    assert Keys(base) <= Keys(Seeded(base, product)) by {
      SetKeys(s, "images", SeedImages(image));
      SetKeys(s1, "imagePreviews", SeedPreviews(image));
    }
    assert Get(Seeded(base, product), "images") == SeedImages(image) by {
      SetGet(s, "images", SeedImages(image), "images");
      SetGet(s1, "imagePreviews", SeedPreviews(image), "images");
    }
    assert Get(Seeded(base, product), "imagePreviews") == SeedPreviews(image) by {
      SetGet(s1, "imagePreviews", SeedPreviews(image), "imagePreviews");
    }
    if UniqueKeys(product) && k != "images" && k != "imagePreviews" {
      SpreadGet(base, product, k);
      SetGet(s, "images", SeedImages(image), k);
      SetGet(s1, "imagePreviews", SeedPreviews(image), k);
    }
  }

  /** The previews an edit starts from line up with its images slot by slot, each the
      server URL of the stored path in that slot, except for a falsy non-array `image`:
      that one gives a single image slot and no preview. */
  lemma SeedSlots(image: Value)
    ensures |Elems(SeedPreviews(image))| == |Elems(SeedImages(image))| <==> image.Arr? || Truthy(image)
    ensures image.Arr? || Truthy(image) ==>
      forall i :: 0 <= i < |Elems(SeedImages(image))| ==>
        Elems(SeedPreviews(image))[i] ==
          if Elems(SeedImages(image))[i] == Hole then Hole else Str(AssetBase + Text(Elems(SeedImages(image))[i]))
  {
  }

  /** Saving an edit unchanged resends the record's stored images under `images`: every
      stored path of an array, or the single value otherwise, so a product without an
      image sends one `undefined` entry. */
  lemma SeededPayloadImages(base: Obj, product: Obj)
    requires UniqueKeys(base)
    ensures var image := Get(product, "image");
      Named(ProductParts(Seeded(base, product)), "images") ==
        if image.Arr? then Staged(image.elems) else if image == Hole then [] else [image]
  {
    var image := Get(product, "image");
    var d := Seeded(base, product);
    SeededFields(base, product, "images");
    var s1 := Set(Spread(base, product), "images", SeedImages(image));
    SetKeys(Spread(base, product), "images", SeedImages(image));
    SetKeys(s1, "imagePreviews", SeedPreviews(image));
    assert "images" in Keys(d);
    ProductPayloadImages(d);
  }

  /** The draft after a file is chosen in image slot `index`: the images and previews
      arrays are copied and the slot is overwritten in each. */
  function StageImage(d: Obj, index: nat, file: Value): Obj {
    var images := PutAt(Unholed(Elems(Get(d, "images"))), index, file);
    var previews := PutAt(Unholed(Elems(Get(d, "imagePreviews"))), index, ObjectUrl(file));
    Set(Set(d, "images", Arr(images)), "imagePreviews", Arr(previews))
  }

  /** Staging replaces slot `index` of `images` and of `imagePreviews`, keeps every other
      slot (a hole reads back as `undefined`), and changes no other draft field. */
  lemma StageImageSlots(d: Obj, index: nat, file: Value, k: string)
    ensures var before := Elems(Get(d, "images"));
            var after := Elems(Get(StageImage(d, index, file), "images"));
            && |after| == (if index < |before| then |before| else index + 1)
            && after[index] == file
            && forall j :: 0 <= j < |after| && j != index ==>
                 after[j] == (if j >= |before| then Hole else if before[j] == Hole then Undefined else before[j])
    ensures var before := Elems(Get(d, "imagePreviews"));
            var after := Elems(Get(StageImage(d, index, file), "imagePreviews"));
            && |after| == (if index < |before| then |before| else index + 1)
            && after[index] == ObjectUrl(file)
            && forall j :: 0 <= j < |after| && j != index ==>
                 after[j] == (if j >= |before| then Hole else if before[j] == Hole then Undefined else before[j])
    ensures k != "images" && k != "imagePreviews" ==> Get(StageImage(d, index, file), k) == Get(d, k)
  {
    var images := PutAt(Unholed(Elems(Get(d, "images"))), index, file);
    var previews := PutAt(Unholed(Elems(Get(d, "imagePreviews"))), index, ObjectUrl(file));
    var d1 := Set(d, "images", Arr(images));
    SetGet(d, "images", Arr(images), k);
    SetGet(d1, "imagePreviews", Arr(previews), k);
    SetGet(d, "images", Arr(images), "images");
    SetGet(d1, "imagePreviews", Arr(previews), "images");
    SetGet(d1, "imagePreviews", Arr(previews), "imagePreviews");
  }

  /** The parts one draft key adds to the payload: staged images under `images`,
      a truthy pdf under `product_info_pdf`, anything else verbatim under its key. */
  function KeyParts(d: Obj, key: string): seq<Part> {
    if key == "images" then Each("images", Elems(Get(d, "images")))
    else if key == "pdf" && Truthy(Get(d, "pdf")) then [Part("product_info_pdf", Get(d, "pdf"))]
    else [Part(key, Get(d, key))]
  }

  /** The parts contributed by the first `n` keys of the draft. */
  function PartsUpTo(d: Obj, n: nat): seq<Part>
    requires n <= |d|
  {
    if n == 0 then [] else PartsUpTo(d, n - 1) + KeyParts(d, d[n - 1].key)
  }

  /** The multipart body a product submission sends. */
  function ProductParts(d: Obj): seq<Part> {
    PartsUpTo(d, |d|)
  }

  /** Walks `Object.keys(formData)` and appends each key's parts to a fresh `FormData`. */
  method BuildProductPayload(d: Obj) returns (parts: seq<Part>)
    ensures parts == ProductParts(d)
  {
    var fd := new FormData();
    var keys := Keys(d);
    var i := 0;
    while i < |keys|
      invariant 0 <= i <= |keys|
      invariant fd.entries == PartsUpTo(d, i)
    {
      var key := keys[i];
      if key == "images" {
        AppendEach(fd, "images", Elems(Get(d, "images")));
      } else if key == "pdf" && Truthy(Get(d, "pdf")) {
        fd.Append("product_info_pdf", Get(d, "pdf"));
      } else {
        fd.Append(key, Get(d, key));
      }
      i := i + 1;
    }
    parts := fd.entries;
  }

  /** The position of `k` in the key list `ks`, or `|ks|` when it is not listed. */
  function Position(ks: seq<string>, k: string): nat {
    if ks == [] then 0 else if ks[0] == k then 0 else 1 + Position(ks[1..], k)
  }

  /** The values a list of keys contributes, in key order. */
  function Gather(ks: seq<string>, contribution: string -> seq<Value>): seq<Value> {
    if ks == [] then [] else contribution(ks[0]) + Gather(ks[1..], contribution)
  }

  /** What the draft's key `k` sends under `name`. */
  function Contribution(d: Obj, name: string): string -> seq<Value> {
    k => Named(KeyParts(d, k), name)
  }

  /** An unlisted key is found at the end of the list. */
  lemma {:induction false} PositionMissing(ks: seq<string>, k: string)
    requires k !in ks
    ensures Position(ks, k) == |ks|
  {
    if ks != [] {
      assert k !in ks[1..];
      PositionMissing(ks[1..], k);
    }
  }

  /** A listed key is found before the end of the list. */
  lemma {:induction false} PositionListed(ks: seq<string>, k: string)
    requires k in ks
    ensures Position(ks, k) < |ks|
  {
    if ks[0] != k {
      assert k in ks[1..];
      PositionListed(ks[1..], k);
    }
  }

  /** When only the keys `a` and `b` contribute anything, the gathered values are their
      contributions in the order the two keys are listed. */
  lemma {:induction false} GatherTwo(ks: seq<string>, contribution: string -> seq<Value>, a: string, b: string)
    requires Distinct(ks) && a != b
    requires forall i :: 0 <= i < |ks| && ks[i] != a && ks[i] != b ==> contribution(ks[i]) == []
    ensures var fromA := if a in ks then contribution(a) else [];
            var fromB := if b in ks then contribution(b) else [];
            Gather(ks, contribution) == if Position(ks, b) < Position(ks, a) then fromB + fromA else fromA + fromB
  {
    if ks != [] {
      var rest := ks[1..];
      assert Distinct(rest);
      assert forall i :: 0 <= i < |rest| ==> rest[i] == ks[i + 1];
      GatherTwo(rest, contribution, a, b);
      assert ks[0] !in rest;
      assert forall k :: k in ks <==> k == ks[0] || k in rest;
      if ks[0] == a {
        PositionMissing(rest, a);
        if b in rest {
          PositionListed(rest, b);
        }
      } else if ks[0] == b {
        PositionMissing(rest, b);
        if a in rest {
          PositionListed(rest, a);
        }
      } else {
        assert contribution(ks[0]) == [];
      }
    }
  }

  /** Gathering over a list with one more key at the end appends that key's values. */
  lemma {:induction false} GatherSnoc(ks: seq<string>, k: string, contribution: string -> seq<Value>)
    ensures Gather(ks + [k], contribution) == Gather(ks, contribution) + contribution(k)
  {
    if ks != [] {
      assert (ks + [k])[1..] == ks[1..] + [k];
      GatherSnoc(ks[1..], k, contribution);
    }
  }

  /** A prefix one longer is the shorter prefix and then the next element. */
  lemma PrefixSnoc(xs: seq<string>, n: nat)
    requires 0 < n <= |xs|
    ensures xs[..n] == xs[..n - 1] + [xs[n - 1]]
  {
  }

  /** The payload under `name` gathers, key by key in draft order, what each key sends. */
  lemma {:induction false} PartsGather(d: Obj, n: nat, name: string)
    requires n <= |d|
    ensures Named(PartsUpTo(d, n), name) == Gather(Keys(d)[..n], Contribution(d, name))
  {
    if n > 0 {
      var ks := Keys(d)[..n - 1];
      var k := d[n - 1].key;
      var c := Contribution(d, name);
      calc {
        Named(PartsUpTo(d, n), name);
      == { NamedAppend(PartsUpTo(d, n - 1), KeyParts(d, k), name); }
        Named(PartsUpTo(d, n - 1), name) + Named(KeyParts(d, k), name);
      == { PartsGather(d, n - 1, name); }
        Gather(ks, c) + c(k);
      == { GatherSnoc(ks, k, c); }
        Gather(ks + [k], c);
      == { PrefixSnoc(Keys(d), n); }
        Gather(Keys(d)[..n], c);
      }
    } else {
      assert Keys(d)[..0] == [];
    }
  }

  /** When only the key `a` contributes anything, the gathered values are its contribution. */
  lemma {:induction false} GatherOne(ks: seq<string>, contribution: string -> seq<Value>, a: string)
    requires Distinct(ks)
    requires forall i :: 0 <= i < |ks| && ks[i] != a ==> contribution(ks[i]) == []
    ensures Gather(ks, contribution) == if a in ks then contribution(a) else []
  {
    if ks != [] {
      var rest := ks[1..];
      assert Distinct(rest);
      assert forall i :: 0 <= i < |rest| ==> rest[i] == ks[i + 1];
      GatherOne(rest, contribution, a);
      assert forall k :: k in ks <==> k == ks[0] || k in rest;
      if ks[0] == a {
        assert a !in rest;
      }
    }
  }

  /** The whole body under `name` gathers what each draft key sends, in draft key order. */
  lemma PayloadGather(d: Obj, name: string)
    ensures Named(ProductParts(d), name) == Gather(Keys(d), Contribution(d, name))
  {
    PartsGather(d, |d|, name);
    assert Keys(d)[..|d|] == Keys(d);
  }

  /** What one draft key sends under `name`: the staged images under `images`, a truthy
      pdf under `product_info_pdf`, and any other key its own value under its own name. */
  lemma KeyContribution(d: Obj, k: string, name: string)
    ensures Contribution(d, name)(k) ==
      if k == "images" then (if name == "images" then Staged(Elems(Get(d, "images"))) else [])
      else if k == "pdf" && Truthy(Get(d, "pdf")) then (if name == "product_info_pdf" then [Get(d, "pdf")] else [])
      else if k == name then [Get(d, k)] else []
  {
    if k == "images" {
      NamedEach("images", Elems(Get(d, "images")), name);
    } else {
      var p := KeyParts(d, k)[0];
      assert KeyParts(d, k) == [p];
      assert Named([p], name) == if p.name == name then [p.value] else [] by {
        assert [p][1..] == [];
      }
    }
  }

  /** The staged images are sent under `images`, in array order, holes skipped. */
  lemma ProductPayloadImages(d: Obj)
    requires UniqueKeys(d)
    ensures Named(ProductParts(d), "images") ==
      if "images" in Keys(d) then Staged(Elems(Get(d, "images"))) else []
  {
    var ks := Keys(d);
    var c := Contribution(d, "images");
    assert Distinct(ks);
    assert forall i :: 0 <= i < |ks| && ks[i] != "images" ==> c(ks[i]) == [] by {
      forall i | 0 <= i < |ks| && ks[i] != "images" ensures c(ks[i]) == [] {
        KeyContribution(d, ks[i], "images");
      }
    }
    assert c("images") == Staged(Elems(Get(d, "images"))) by {
      KeyContribution(d, "images", "images");
    }
    GatherOne(ks, c, "images");
    PayloadGather(d, "images");
  }

  /** Under `product_info_pdf` the payload holds a truthy `pdf` (the file chosen in the form)
      and the draft's own `product_info_pdf` (the stored path an edit copies from the record),
      each when present and in the order of the draft's keys; an edit that picks a new pdf
      therefore sends both the new file and the stored path. */
  lemma ProductPayloadPdf(d: Obj)
    requires UniqueKeys(d)
    ensures var chosen := if "pdf" in Keys(d) && Truthy(Get(d, "pdf")) then [Get(d, "pdf")] else [];
            var stored := if "product_info_pdf" in Keys(d) then [Get(d, "product_info_pdf")] else [];
            Named(ProductParts(d), "product_info_pdf") ==
              if Position(Keys(d), "product_info_pdf") < Position(Keys(d), "pdf") then stored + chosen else chosen + stored
  {
    var ks := Keys(d);
    var c := Contribution(d, "product_info_pdf");
    assert Distinct(ks);
    assert forall i :: 0 <= i < |ks| && ks[i] != "pdf" && ks[i] != "product_info_pdf" ==> c(ks[i]) == [] by {
      forall i | 0 <= i < |ks| && ks[i] != "pdf" && ks[i] != "product_info_pdf" ensures c(ks[i]) == [] {
        KeyContribution(d, ks[i], "product_info_pdf");
      }
    }
    assert c("pdf") == if Truthy(Get(d, "pdf")) then [Get(d, "pdf")] else [] by {
      KeyContribution(d, "pdf", "product_info_pdf");
    }
    assert c("product_info_pdf") == [Get(d, "product_info_pdf")] by {
      KeyContribution(d, "product_info_pdf", "product_info_pdf");
    }
    GatherTwo(ks, c, "pdf", "product_info_pdf");
    PayloadGather(d, "product_info_pdf");
  }

  /** Every other key, a falsy `pdf`, `imagePreviews` and (beside a falsy `pdf`) a stored
      `product_info_pdf` included, is sent once, verbatim, under its own name; a name the
      draft does not have is not sent. */
  lemma ProductPayloadVerbatim(d: Obj, name: string)
    requires UniqueKeys(d)
    requires name != "images"
    requires name == "pdf" || name == "product_info_pdf" ==> !Truthy(Get(d, "pdf"))
    ensures Named(ProductParts(d), name) == if name in Keys(d) then [Get(d, name)] else []
  {
    var ks := Keys(d);
    var c := Contribution(d, name);
    assert Distinct(ks);
    assert forall i :: 0 <= i < |ks| && ks[i] != name ==> c(ks[i]) == [] by {
      forall i | 0 <= i < |ks| && ks[i] != name ensures c(ks[i]) == [] {
        KeyContribution(d, ks[i], name);
      }
    }
    assert c(name) == [Get(d, name)] by {
      KeyContribution(d, name, name);
    }
    GatherOne(ks, c, name);
    PayloadGather(d, name);
  }

  /** The state of `Products`: the list, the loading flag, the image slots shown,
      the edit mode and the draft, with the defaults every reset goes back to. */
  class ProductsPage {
    const initialFormData: Obj
    var data: seq<Value>
    var loading: bool
    var imageFields: seq<int>
    var isEditMode: bool
    var editProductId: Value
    var formData: Obj

    /** The defaults and every draft the handlers build are objects with unique keys. */
    ghost predicate Valid()
      reads this
    {
      UniqueKeys(initialFormData) && UniqueKeys(formData)
    }

    /** The first render: `useState` initial values, the draft starting at the defaults. */
    constructor (defaults: Obj)
      requires UniqueKeys(defaults)
      ensures Valid() && initialFormData == defaults
      ensures data == [] && loading && imageFields == [0]
      ensures !isEditMode && editProductId == Null && formData == defaults
    {
      initialFormData := defaults;
      data := [];
      loading := true;
      imageFields := [0];
      isEditMode := false;
      editProductId := Null;
      formData := defaults;
    }

    /** `handleFormChange(e, index)`. */
    method HandleFormChange(e: InputEvent, index: nat)
      requires Valid()
      modifies this
      ensures Valid()
      ensures data == old(data) && loading == old(loading) && imageFields == old(imageFields)
      ensures isEditMode == old(isEditMode) && editProductId == old(editProductId)
      ensures e.TextInput? ==> formData == Set(old(formData), e.name, Str(e.value))
      ensures e.FileInput? && e.name == "pdf" ==>
        formData == Set(old(formData), "pdf", First(Arr(e.files)))
      ensures e.FileInput? && e.name == "images" && e.files != [] ==>
        formData == StageImage(old(formData), index, e.files[0])
      ensures e.FileInput? && e.name != "pdf" && (e.name != "images" || e.files == []) ==>
        formData == old(formData)
      ensures e.TextInput? || e.name == "pdf" ==>
        forall k :: k != e.name ==> Get(formData, k) == Get(old(formData), k)
    {
      match e {
        case TextInput(name, value) =>
          SetUnique(formData, name, Str(value));
          formData := Set(formData, name, Str(value));
        case FileInput(name, files) =>
          if name == "pdf" {
            SetUnique(formData, "pdf", First(Arr(files)));
            formData := Set(formData, "pdf", First(Arr(files)));
          } else if name == "images" && files != [] {
            var images := PutAt(Unholed(Elems(Get(formData, "images"))), index, files[0]);
            var previews := PutAt(Unholed(Elems(Get(formData, "imagePreviews"))), index, ObjectUrl(files[0]));
            SetUnique(formData, "images", Arr(images));
            SetUnique(Set(formData, "images", Arr(images)), "imagePreviews", Arr(previews));
            formData := StageImage(formData, index, files[0]);
          }
      }
      forall k | k != e.name && (e.TextInput? || e.name == "pdf")
        ensures Get(formData, k) == Get(old(formData), k)
      {
        if e.TextInput? {
          SetGet(old(formData), e.name, Str(e.value), k);
        } else {
          SetGet(old(formData), "pdf", First(Arr(e.files)), k);
        }
      }
    }

    /** `addImageField`: one more slot, unless six images are already staged. */
    method AddImageField()
      modifies this
      ensures imageFields == if |Elems(Get(formData, "images"))| >= 6 then old(imageFields)
                             else old(imageFields) + [|old(imageFields)|]
      ensures data == old(data) && loading == old(loading) && formData == old(formData)
      ensures isEditMode == old(isEditMode) && editProductId == old(editProductId)
    {
      if |Elems(Get(formData, "images"))| < 6 {
        imageFields := imageFields + [|imageFields|];
      }
    }

    /** `closeModal(modalId)`: leaves edit mode; the draft is kept. */
    method CloseModal()
      modifies this
      ensures !isEditMode && editProductId == Null
      ensures data == old(data) && loading == old(loading) && imageFields == old(imageFields)
      ensures formData == old(formData)
    {
      isEditMode := false;
      editProductId := Null;
    }

    /** `openProductModal(product)`: defaults for a create, the record's fields for an edit. */
    method OpenProductModal(product: Option<Obj>)
      requires Valid()
      modifies this
      ensures Valid()
      ensures product.None? ==> formData == initialFormData && !isEditMode && editProductId == Null
      ensures product.Some? ==>
        formData == Seeded(initialFormData, product.value) && isEditMode && editProductId == Get(product.value, "_id")
      ensures data == old(data) && loading == old(loading) && imageFields == old(imageFields)
    {
      match product {
        case None =>
          formData := initialFormData;
          isEditMode := false;
          editProductId := Null;
        case Some(p) =>
          SeededFields(initialFormData, p, "_id");
          formData := Seeded(initialFormData, p);
          isEditMode := true;
          editProductId := Get(p, "_id");
      }
    }

    /** `handleFormSubmit`: PUT to the edited product or POST a new one. On an ok JSON reply
        the handler leaves edit mode and resets the draft whatever the body holds, because
        `result.product` is only read inside the `setData` updater. That updater merges
        the record; it reads `result` only when it appends or when an entry carries the
        edited id, and a `null` body then makes it throw, which leaves the list as it was.
        A failed or unparsable reply throws into the `catch` and changes nothing. */
    method HandleFormSubmit(reply: Reply) returns (req: Request)
      requires Valid()
      modifies this
      ensures Valid()
      ensures req.verb == if old(isEditMode) then PUT else POST
      ensures req.url == if old(isEditMode) then Api + "products/" + Text(old(editProductId))
                         else Api + "products/create"
      ensures req.payload == Multipart(ProductParts(old(formData)))
      ensures loading == old(loading) && imageFields == old(imageFields)
      ensures OkJson(reply) ==> !isEditMode && editProductId == Null && formData == initialFormData
      ensures OkJson(reply) ==>
        data == (if !Readable(reply.body.json) && MergeReads(old(isEditMode), old(editProductId), old(data))
                 then old(data)
                 else if old(isEditMode)
                 then Replace(old(data), old(editProductId), Member(reply.body.json, "product"))
                 else old(data) + [Member(reply.body.json, "product")])
      ensures OkJson(reply) && !Readable(reply.body.json) ==> data == old(data)
      ensures !OkJson(reply) ==>
        && data == old(data) && formData == old(formData)
        && isEditMode == old(isEditMode) && editProductId == old(editProductId)
    {
      var parts := BuildProductPayload(formData);
      var url := if isEditMode then Api + "products/" + Text(editProductId) else Api + "products/create";
      req := Request(if isEditMode then PUT else POST, url, Multipart(parts));
      if OkJson(reply) {
        var json := reply.body.json;
        if Readable(json) || !MergeReads(isEditMode, editProductId, data) {
          var product := Member(json, "product");
          if !Readable(json) {
            UnreadMergeKeeps(isEditMode, editProductId, data, product);
          }
          if isEditMode {
            data := Replace(data, editProductId, product);
          } else {
            data := data + [product];
          }
        }
        CloseModal();
        formData := initialFormData;
      }
    }

    /** `handleDelete(id)`: on an ok reply drop every entry with that `_id`. */
    method HandleDelete(id: Value, reply: Reply) returns (req: Request)
      modifies this
      ensures req == Bare(DELETE, Api + "products/" + Text(id))
      ensures data == if IsOk(reply) then Remove(old(data), id) else old(data)
      ensures loading == old(loading) && imageFields == old(imageFields) && formData == old(formData)
      ensures isEditMode == old(isEditMode) && editProductId == old(editProductId)
    {
      req := Bare(DELETE, Api + "products/" + Text(id));
      if IsOk(reply) {
        data := Remove(data, id);
      }
    }

    /** The mount-time `fetchData`: an ok JSON reply becomes the list; loading always ends. */
    method FetchData(reply: Reply) returns (req: Request)
      modifies this
      ensures req == Bare(GET, Api + "products")
      ensures data == if OkJson(reply) then AsList(reply.body.json, old(data)) else old(data)
      ensures !loading
      ensures imageFields == old(imageFields) && formData == old(formData)
      ensures isEditMode == old(isEditMode) && editProductId == old(editProductId)
    {
      req := Bare(GET, Api + "products");
      if OkJson(reply) {
        data := AsList(reply.body.json, data);
      }
      loading := false;
    }
  }

  /** The screen as first mounted: the page over the `initialFormData` literal. */
  method Mount() returns (page: ProductsPage)
    ensures fresh(page) && page.Valid()
    ensures page.initialFormData == InitialFormData() && page.formData == InitialFormData()
    ensures page.data == [] && page.loading && !page.isEditMode
  {
    page := new ProductsPage(InitialFormData());
  }
}
