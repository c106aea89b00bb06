# Admin console screens: list reconciliation, form sessions and submissions

This project models the client-side core of a React admin console for a shop. The console has five list screens and one modal:
- Products, Layout, News, NewsCategory and Category are the list screens.
- The partner-creation modal is the sixth.

Every screen follows the same pattern:
- It keeps a `data` list of records keyed by `_id`.
- A fetch fills that list.
- A draft `formData` is edited field by field.
- The draft is opened either for create or for edit. Edit mode is `isEditing`/`isEditMode` plus `editingId`/`editProductId`.
- A submission does three things:
  - it validates the draft locally;
  - it builds an ordered multipart or JSON payload;
  - it picks the verb and URL from the mode.
- The reply is then merged into the list:
  - a create appends the returned record;
  - an update replaces every entry with the same `_id`;
  - a delete removes every entry with that `_id`.

The modules follow the program's structure.

- `Js` covers the JavaScript semantics the screens rely on:
  - values, including array holes;
  - objects as ordered property lists, the order `Object.keys` reports;
  - truthiness and `String()`;
  - property read, `{...o, [k]: v}` and `{...o, ...p}`;
  - `[...xs]`, `a[i] = v` past the end, and `map` with a template string.
- `Http` holds:
  - the requests the screens send: verb, URL and payload;
  - the replies they can get: a network error, or a response with an `ok` flag and a body that parsed or did not;
  - the browser's `FormData` buffer, as a class whose `Append` only ever adds an entry at the end;
  - the `forEach` loop that appends an array to it.
- `Collection` covers the three list merges. The `map` replace-by-id and the `filter` remove-by-id are functions; an append is the handlers' own `data + [record]`. Lemmas state what each merge does to length, order, membership and unique ids, and how the merges compose.
- `CategoryForm` holds the one-field draft that the Category and NewsCategory screens share.
- `Products`, `Layout`, `News`, `NewsCategory`, `Category` and `Partner` each hold one class whose fields are the component's React state. Each handler is a method:
  - It takes the server's reply as a parameter.
  - It returns the request it issues, or `None`/`[]` when local validation stops it.
  - Its `ensures` gives the whole new state.
  - The pure parts are functions: payloads, edit drafts and validation. Lemmas state their properties.

Server replies are parameters throughout. A handler is one atomic step.

## Model

| member | source | states |
|---|---|---|
| Js.Keys | src/pages/Products.jsx:120 | `Object.keys(formData)` lists one key per property, in insertion order |
| Js.Truthy | src/pages/Layout.jsx:57 | the `!x` tests of the submit checks: `undefined`, `null`, `false`, `0` and `''` are falsy; its uses are stated by Layout.ChosenFilesSent, News.EditDraftComplete and Partner.Failure |
| Js.Text | src/pages/Products.jsx:134 | `String(v)` inside the request URLs' template literals; the handlers' `ensures` give each URL in terms of it |
| Js.Get | src/pages/Products.jsx:128 | `o[k]`, read from the key's first occurrence and `undefined` when the key is missing; Js.GetFound, Js.SetGet and Js.SpreadGet state it |
| Js.Set | src/pages/Products.jsx:57-61 | `{...o, [k]: v}`; Js.SetGet, Js.SetKeys and Js.SetUnique state what it changes and keeps |
| Js.Spread | src/pages/Products.jsx:91-93 | `{...o, ...p}`, the properties of `p` written onto `o` in order; Js.SpreadGet and Js.SpreadKeys state its values and key order |
| Js.PutAt | src/pages/Products.jsx:46-49 | `a[index] = v` sets slot `index`; it keeps every other slot; past the end it grows the array to `index + 1` and fills the gap with holes |
| Js.Prefixed | src/pages/Layout.jsx:123 | `xs.map((x) => prefix + x)` keeps the length, prefixes every present element and leaves holes in place |
| Js.GetFound | src/pages/Products.jsx:128 | `formData[key]` reads the value at the key's first occurrence |
| Js.SetGet | src/pages/Products.jsx:57-61 | `{...prev, [name]: value}` changes the property `name` and no other |
| Js.SetKeys | src/pages/Products.jsx:57-61 | setting an existing key keeps the key order; setting a new key appends it |
| Js.SetUnique | src/pages/Products.jsx:57-61 | setting a property keeps the keys unique |
| Js.SpreadGet | src/pages/Products.jsx:91-93 | `{...base, ...product}` reads the record's value for the keys the record has, and the base value for the rest |
| Js.SpreadKeys | src/pages/Products.jsx:91-93 | a spread keeps the base keys first, in order; its keys are exactly the base's and the record's; keys stay unique |
| Http.Staged | src/pages/Products.jsx:122-124 | `forEach` visits exactly the present elements, no more of them than the array has |
| Http.Fields | src/pages/Layout.jsx:63-67 | appending named fields gives one part per name, in order, holding the draft's value |
| Http.FormData.constructor | src/pages/Products.jsx:117 | `new FormData()` is empty |
| Http.FormData.Append | src/pages/Products.jsx:123 | `append` adds exactly one entry at the end |
| Http.AppendEach | src/pages/Products.jsx:122-124 | the `forEach` loop appends exactly `Each(name, xs)` after the entries already there |
| Http.NamedAppend | src/pages/Products.jsx:120-130 | looking up a name in a payload built in two steps joins what each step sent under it |
| Http.NamedEach | src/pages/Products.jsx:122-124 | a `forEach` append sends every present element under its name, in array order, and nothing under any other name |
| Http.StagedNoHoles | src/pages/News.jsx:43 | an array with no holes, such as one from `Array.from`, is sent element for element |
| Http.CopySentWhole | src/pages/Products.jsx:45-48 | the copy `[...formData.images]` has no holes, so a `forEach` over it visits every slot, and copying it again changes nothing |
| Http.NamedFields | src/pages/Layout.jsx:63-67 | with distinct names, each listed name is sent once with the draft's value; an unlisted name is not sent |
| Http.FieldsThenEachNamed | src/pages/Layout.jsx:62-68 | in a fields-then-array payload the fields come first, in order; the array elements go under the array's name, in order; every other field is sent once |
| Collection.Ids | src/pages/Products.jsx:148 | the ids of the list are read entry by entry, in list order |
| Collection.Replace | src/pages/Products.jsx:147-149 | the update `map`; Collection.ReplaceAt, ReplaceStale, ReplaceIdempotent and ReplaceKeepsIds state what it does |
| Collection.Remove | src/pages/Products.jsx:189 | the delete `filter`; Collection.RemoveMembers, RemoveAppend, RemoveCount, RemoveUnique and RemoveListed state what it does |
| Collection.ReplaceAt | src/pages/Products.jsx:146-150 | an update keeps the list length and swaps in the record exactly at the entries whose `_id` matches |
| Collection.UnreadMergeKeeps | src/pages/Layout.jsx:81-85 | a merge that never reads the reply is an update of an unlisted id and keeps the list, so an unreadable body cannot reach the list that way |
| Collection.ReplaceStale | src/pages/Category.jsx:60-61 | an update whose id is not listed leaves the list unchanged, as when `isEditing` holds with a null `editingId` |
| Collection.ReplaceIdempotent | src/pages/Products.jsx:146-150 | applying the same update twice equals applying it once |
| Collection.ReplaceKeepsIds | src/pages/Products.jsx:146-150 | an update that returns the record under the same id keeps the ids, so keeps them unique |
| Collection.RemoveMembers | src/pages/Products.jsx:189 | after a delete, the list holds exactly the old entries whose `_id` differs |
| Collection.RemoveAppend | src/pages/Products.jsx:189 | delete is a filter: it works piecewise, so the survivors keep their relative order |
| Collection.RemoveCount | src/pages/Products.jsx:189 | a delete drops exactly one entry per occurrence of the id; an unlisted id changes nothing |
| Collection.UniqueCount | src/pages/Products.jsx:189 | with unique ids, a listed id occurs exactly once |
| Collection.RemoveUnique | src/pages/Products.jsx:189 | a delete keeps the ids unique |
| Collection.AppendUnique | src/pages/Products.jsx:152 | appending keeps ids unique if and only if the new id is not yet listed |
| Collection.RemoveListed | src/pages/Products.jsx:189 | with unique ids, deleting a listed id shortens the list by exactly one and removes the id |
| Collection.RemoveAfterAppend | src/pages/Products.jsx:152 | deleting a freshly created record restores the list it was appended to |
| Collection.ReplaceAfterAppend | src/pages/Products.jsx:148 | updating a freshly created record changes only the last entry |
| Collection.RemoveAfterReplace | src/pages/Products.jsx:148 | after an update that keeps the id, deleting the id also removes the updated entries |
| Collection.CountListed | src/pages/Products.jsx:189 | an id is counted zero times exactly when it is not listed |
| Products.InitialFormData | src/pages/Products.jsx:7-23 | the default product draft is an object with unique keys |
| Products.Seeded | src/pages/Products.jsx:91-100 | the edit draft `{...initialFormData, ...product, images, imagePreviews}`; Products.SeededFields, SeedSlots and SeededPayloadImages state it |
| Products.SeedSlots | src/pages/Products.jsx:94-99 | the previews an edit starts from line up slot by slot with its images, each the server URL of the stored path; a falsy non-array `image` gives one image slot and no preview |
| Products.SeededPayloadImages | src/pages/Products.jsx:91-124 | saving an edit unchanged resends the stored image paths under `images`, in order; a product without an image sends one `undefined` entry |
| Products.SeededFields | src/pages/Products.jsx:91-100 | the edit draft keeps the default keys first; its keys stay unique; both image slots come from `image`; every other field is the record's value if it has the key, else the default |
| Products.StageImage | src/pages/Products.jsx:44-55 | choosing a file in image slot `index`: the copied `images` and `imagePreviews` get that slot overwritten; Products.StageImageSlots states it |
| Products.StageImageSlots | src/pages/Products.jsx:44-55 | staging a file at `index` replaces that slot of `images` and of `imagePreviews`; it keeps every other slot (a hole reads back as `undefined`) and changes no other field |
| Products.KeyParts | src/pages/Products.jsx:121-129 | what one key of `Object.keys(formData)` appends; Products.KeyContribution and the payload lemmas state it |
| Products.ProductParts | src/pages/Products.jsx:120-130 | the multipart body, key by key in draft order; Products.BuildProductPayload is proved to build exactly it |
| Products.PartsGather | src/pages/Products.jsx:120-130 | what the body holds under a name is gathered key by key, in the draft's key order |
| Products.PayloadGather | src/pages/Products.jsx:120-130 | what the whole body holds under a name is what each draft key sends there, gathered in `Object.keys` order |
| Products.GatherTwo | src/pages/Products.jsx:120-130 | when only two keys send under a name, the body holds their values in the order the two keys have in the draft |
| Products.KeyContribution | src/pages/Products.jsx:121-128 | what one draft key sends under a name: the staged images under `images`, a truthy `pdf` under `product_info_pdf`, any other key its own value under its own name, and nothing under any other name |
| Products.BuildProductPayload | src/pages/Products.jsx:117-130 | the loop over `Object.keys` builds exactly `ProductParts` of the draft |
| Products.GatherOne | src/pages/Products.jsx:120-130 | when only one key sends under a name, the body holds exactly that key's values |
| Products.ProductPayloadImages | src/pages/Products.jsx:121-124 | the staged images go under `images`, in array order, with holes skipped |
| Products.ProductPayloadPdf | src/pages/Products.jsx:120-130 | under `product_info_pdf` the body holds a truthy `pdf` and the draft's stored `product_info_pdf`, each when present, in draft key order; an edit of a product with a stored pdf that picks a new one sends both |
| Products.ProductPayloadVerbatim | src/pages/Products.jsx:127-128 | every other key is sent once, verbatim, under its own name; this includes a falsy `pdf`, `imagePreviews`, and a stored `product_info_pdf` when `pdf` is falsy |
| Products.ProductsPage.constructor | src/pages/Products.jsx:26-33 | initial state: empty list, loading, one image slot, create mode, null id, draft at the defaults |
| Products.ProductsPage.HandleFormChange | src/pages/Products.jsx:35-62 | a text input sets its field; the pdf input sets `pdf` to the first file; the images input stages the first file at `index`; no other field changes |
| Products.ProductsPage.AddImageField | src/pages/Products.jsx:65-71 | with six or more staged images there is no new slot; otherwise the slot list grows by one, by its old length |
| Products.ProductsPage.CloseModal | src/pages/Products.jsx:77-82 | leaves edit mode and nulls the edit id; the draft and the list are kept |
| Products.ProductsPage.OpenProductModal | src/pages/Products.jsx:89-109 | create resets the draft to the defaults in create mode; edit seeds the draft from the record and sets edit mode and the record's `_id` |
| Products.ProductsPage.HandleFormSubmit | src/pages/Products.jsx:115-161 | sends PUT `products/{id}` or POST `products/create` with the draft's payload; on an ok JSON reply it always leaves edit mode and resets the draft, and replaces or appends `result.product` unless the body is unreadable and the merge would read it (an append, or an entry with the edited id), in which case the list is kept; a failed or unparsable reply changes nothing |
| Products.ProductsPage.HandleDelete | src/pages/Products.jsx:179-193 | sends DELETE `products/{id}`; an ok reply removes exactly the entries with that `_id` |
| Products.ProductsPage.FetchData | src/pages/Products.jsx:196-207 | sends GET `products`; an ok JSON array becomes the list; loading ends whatever happens |
| Products.Mount | src/pages/Products.jsx:33 | the first render starts the draft at the `initialFormData` literal |
| Layout.Previews | src/pages/Layout.jsx:41 | one preview handle per chosen file, in order |
| Layout.Complete | src/pages/Layout.jsx:57 | the submit check: a title, a description and an image; Layout.InitialIncomplete, EditNeedsImages and ChosenFilesSent state when it holds |
| Layout.EditDraft | src/pages/Layout.jsx:115-124 | the draft `handleEdit(layout)` builds; Layout.EditTakesFirst and EditNeedsImages state it |
| Layout.EditTakesFirst | src/pages/Layout.jsx:117-119 | an edit keeps only element `[0]` of the theme, title and description: an array gives its first element, a plain string only its first character, so saving that edit unchanged shortens a stored string |
| Layout.WithFiles | src/pages/Layout.jsx:39-46 | the draft after files are chosen; Layout.ChosenFilesSent states what the next submission then sends |
| Layout.InitialIncomplete | src/pages/Layout.jsx:7-15 | a fresh draft fails the submit check |
| Layout.EditNeedsImages | src/pages/Layout.jsx:115-124 | an edit starts with no staged image, so it fails validation until images are chosen again; its previews are the stored paths prefixed with the server origin |
| Layout.ChosenFilesSent | src/pages/Layout.jsx:39-46 | after a file change the next submission sends exactly the chosen files, and passes the image check exactly when a file was chosen |
| Layout.LayoutPayload | src/pages/Layout.jsx:62-68 | the five fields come first, in order, each once; then every image under `images`, in order; the previews are never sent |
| Layout.BuildLayoutPayload | src/pages/Layout.jsx:62-68 | the appends build exactly `LayoutParts` of the draft |
| Layout.LayoutPage.constructor | src/pages/Layout.jsx:5-17 | initial state: empty list, loading, default draft, create mode, null id |
| Layout.LayoutPage.FetchLayouts | src/pages/Layout.jsx:19-31 | sends GET `layout`; an ok readable reply sets the list to `result.data \|\| []`; loading ends whatever happens |
| Layout.LayoutPage.HandleFormChange | src/pages/Layout.jsx:37-53 | chosen files replace `images` wholesale, with one preview each; any other input sets its field; nothing else changes |
| Layout.LayoutPage.HandleFormSubmit | src/pages/Layout.jsx:55-103 | without a title, a description or an image there is no request and no change; otherwise it sends PUT `layout/{id}` or POST `layout/create`; on an ok JSON reply it merges `result.data`, leaves edit mode and resets the draft, except that an unreadable body whose merge reads it (an append, or an entry with the edited id) throws into the `catch` and changes nothing; a `null` body for an unlisted id still resets |
| Layout.LayoutPage.HandleDelete | src/pages/Layout.jsx:105-113 | sends DELETE `layout/{id}`; an ok reply removes the entries with that `_id` |
| Layout.LayoutPage.HandleEdit | src/pages/Layout.jsx:115-128 | a readable record seeds the draft and enters edit mode on its `_id`; an unreadable one changes nothing |
| Layout.LayoutPage.OpenCreate | src/pages/Layout.jsx:136-140 | create mode with the default draft; `editingId` is kept |
| News.InitialIncomplete | src/pages/News.jsx:10-15 | a fresh draft fails the submit check |
| News.Complete | src/pages/News.jsx:54 | the submit check: a title, a description and a date; News.InitialIncomplete and EditDraftComplete state when it holds |
| News.EditDraft | src/pages/News.jsx:106-114 | the draft `handleEdit(newsItem)` builds; News.EditDraftComplete states it |
| News.EditDraftComplete | src/pages/News.jsx:106-114 | an edit passes validation exactly when the record's title, description and date are truthy; no stored file is resent |
| News.NewsPayload | src/pages/News.jsx:61-65 | title, descriptions and date come first, in order, each once; then every file under `images`, in order; nothing else is sent |
| News.ChosenFilesSent | src/pages/News.jsx:42-48 | after a file change the next submission sends exactly the chosen files, in order |
| News.BuildNewsPayload | src/pages/News.jsx:61-65 | the appends build exactly `NewsParts` of the draft |
| News.NewsPage.constructor | src/pages/News.jsx:6-15 | initial state: empty list, loading, create mode, null id, empty draft |
| News.NewsPage.DataRequest | src/pages/News.jsx:17-28 | sends GET `news/`; an ok JSON array becomes the list; loading ends whatever happens |
| News.NewsPage.HandleFormChange | src/pages/News.jsx:34-40 | the input sets its field and no other |
| News.NewsPage.HandleFileChange | src/pages/News.jsx:42-48 | the chosen files replace `images` wholesale; no other field changes |
| News.NewsPage.HandleFormSubmit | src/pages/News.jsx:50-87 | without a title, description or date there is no request; otherwise it sends PATCH `news/{id}` or POST `news/create`; an ok status is followed by a full re-fetch that alone decides the list, then the draft and the mode reset; a failure changes nothing; loading always ends false |
| News.NewsPage.HandleDelete | src/pages/News.jsx:89-104 | sends DELETE `news/{id}`; an ok reply removes the entries with that `_id`; an error reply leaves the list |
| News.NewsPage.HandleEdit | src/pages/News.jsx:106-116 | enters edit mode on the record's `_id`, with its three fields and no files |
| News.NewsPage.OpenCreate | src/pages/News.jsx:124-128 | create mode with the empty draft; `editingId` is kept |
| NewsCategory.NewsCategoryPage.constructor | src/pages/NewsCategory.jsx:7-13 | initial state: empty list, loading, empty draft, create mode, null id |
| NewsCategory.NewsCategoryPage.FetchNewsCategories | src/pages/NewsCategory.jsx:15-25 | sends GET `news-category`; any parsed body becomes the list, whatever its status; loading ends whatever happens |
| NewsCategory.NewsCategoryPage.HandleFormChange | src/pages/NewsCategory.jsx:31-34 | the input sets its field and no other |
| NewsCategory.NewsCategoryPage.HandleFormSubmit | src/pages/NewsCategory.jsx:36-77 | with edit mode and a truthy id it sends PUT `news-category/update/{id}` with the draft; otherwise it POSTs the fixed sample body whatever the draft holds; on an ok JSON reply it replaces (leaving edit mode) or appends, then resets the draft; otherwise nothing changes; loading ends false |
| NewsCategory.NewsCategoryPage.HandleDelete | src/pages/NewsCategory.jsx:79-93 | sends DELETE `news-category/delete/{id}`; an ok reply removes the entries with that `_id` |
| NewsCategory.NewsCategoryPage.HandleEdit | src/pages/NewsCategory.jsx:95-100 | seeds the draft with the record's name and enters edit mode on its `_id` |
| NewsCategory.NewsCategoryPage.OpenCreate | src/pages/NewsCategory.jsx:110-114 | create mode with the empty draft; `editingId` is kept |
| CategoryForm.InitialDraft | src/pages/Category.jsx:8-10 | the one-field draft both category screens start from; CategoryForm.TypedNameDecides states it |
| CategoryForm.EditDraft | src/pages/Category.jsx:96 | the edit draft: the record's name alone; CategoryForm.TypedNameDecides states it |
| CategoryForm.TypedNameDecides | src/pages/Category.jsx:32-35 | whichever way the form was opened, the typed name is the whole draft: nothing else of an edited record is sent |
| Category.CategoryPage.constructor | src/pages/Category.jsx:6-12 | initial state: empty list, loading, empty draft, create mode, null id |
| Category.CategoryPage.FetchCategories | src/pages/Category.jsx:15-25 | sends GET `categories`; any parsed body becomes the list, whatever its status; loading ends whatever happens |
| Category.CategoryPage.HandleFormChange | src/pages/Category.jsx:32-35 | the input sets its field and no other |
| Category.CategoryPage.HandleFormSubmit | src/pages/Category.jsx:38-75 | with edit mode and a truthy id it sends PATCH `categories/{id}`, otherwise POST `categories`, both with the draft; any parsed body is merged whatever the status, by replace when `isEditing` and by append otherwise; then the draft resets; loading ends false |
| Category.CategoryPage.HandleDelete | src/pages/Category.jsx:78-92 | sends DELETE `categories/{id}`; an ok reply removes the entries with that `_id` |
| Category.CategoryPage.HandleEdit | src/pages/Category.jsx:95-100 | seeds the draft with the record's name and enters edit mode on its `_id` |
| Category.CategoryPage.OpenCreate | src/pages/Category.jsx:110-114 | create mode with the empty draft; `editingId` is kept |
| Partner.Failure | src/components/Create.jsx:39-51 | no message exactly when the reply is ok and parsed; a network or parse error shows its own message; a refusal shows a non-empty string `message`, or `Error creating partner` when `message` is falsy |
| Partner.CreatePartner.constructor | src/components/Create.jsx:4-8 | initial state: closed, all inputs and the error empty |
| Partner.CreatePartner.OpenModal | src/components/Create.jsx:10-12 | opens the modal and changes nothing else |
| Partner.CreatePartner.CloseModal | src/components/Create.jsx:14-20 | closes the modal and clears the three inputs and the error |
| Partner.CreatePartner.SetUsername | src/components/Create.jsx:74 | sets the username only |
| Partner.CreatePartner.SetPassword | src/components/Create.jsx:84 | sets the password only |
| Partner.CreatePartner.SetRole | src/components/Create.jsx:94 | sets the role only |
| Partner.CreatePartner.HandleCreate | src/components/Create.jsx:22-52 | an empty input sets `Please fill in all fields` and sends nothing; otherwise it sends POST `auth/create-partnyor` with the three fields; success closes and clears the modal; a failure shows its message and keeps the modal and the inputs |

## Left out

- Network I/O and JSON parsing are not modelled. The reply of each `fetch`/`response.json()` is a parameter: a network error, or a status flag with a body that parsed or failed to parse with a message. `response.text()` on a failed product save only feeds a message and is not modelled.
- The DOM is not modelled: `showModal`/`close`, `alert`, `console.*` and all JSX rendering.
- The loading spinner is not modelled; `loading` is kept as a plain field.
- `URL.createObjectURL` is not modelled: a preview is an opaque `ObjectUrl` handle of its file.
- `async` interleavings are not modelled. Each handler is one atomic step. The stale-closure `data` in Layout, NewsCategory and Category therefore reads the same as the functional updates.
- The Products category dropdown fetch (src/pages/Products.jsx:163-177) is not modelled. It only feeds display options.
- The image viewer state (`selectedImage`, `mainImageIndex`, `openImageModal`, `handleMainImageSelection`) is not modelled. It is display only.
- src/pages/Login.jsx, src/index.js and src/components/Navbar.jsx are not part of this model.
- Collection.AsList: in the model, a list fetch whose JSON is not an array leaves the list as it was. The source stores that value in `data` instead. Layout then shows its empty branch, because its table is guarded by `Array.isArray(data)` (src/pages/Layout.jsx:229). Products guards with `data?.length > 0` (src/pages/Products.jsx:461), so `null` or an object without `length` renders no rows. News, Category and NewsCategory guard with `data.length > 0` (src/pages/News.jsx:215, src/pages/Category.jsx:160, src/pages/NewsCategory.jsx:165), so `null` throws while rendering, and an object without `length` shows the "no items" row. On every screen but Layout, a non-empty string passes the guard and `.map` throws. A later `map` or `filter` merge over a stored non-array throws too. In Layout, Category and NewsCategory the handler's `catch` then leaves the list and the draft as they were; in Products and News the throw happens inside the state updater. None of these render or merge failures is modelled.
- Collection.Ids: reading `_id` of a `null` or `undefined` list entry throws in the source. The model reads it as `undefined`, so a `map` or `filter` over such a list goes through.
- Identifiers are compared as values. For the string and number ids the server sends, this is what `===` does.
- Object keys keep insertion order. JavaScript's rule that lists integer-like keys first is not modelled; no draft key is integer-like.
- Multipart entries keep the value itself. `FormData`'s conversion of non-file values to strings is not modelled.
- Partner.Failure: when a refusal's `message` is truthy but not a string, the model writes it out with `Text`, which follows `String()` for the value kinds the model has.
- Partner.NullRead: a `null` refusal body shows V8's wording for the TypeError; other engines word it differently.
- Products.ProductsPage.constructor: the defaults are a constructor parameter, so the page's other methods never unfold the fifteen-field literal; `Products.Mount` supplies the literal itself.
- Products.ProductsPage.HandleFormChange: it takes the slot `index` as a `nat`. Every images input in the source passes its slot index, so the `null` default is never used.
- Layout.LayoutPage.HandleEdit, News.NewsPage.HandleEdit, NewsCategory.NewsCategoryPage.HandleEdit, Category.CategoryPage.HandleEdit and Products.ProductsPage.OpenProductModal take the record as an object; the screens only pass entries of the list, and an entry that is not an object is not modelled.
- The browser's constraint validation is not modelled. Several inputs carry the HTML `required` attribute: the Layout inputs (src/pages/Layout.jsx:178, 189), the News inputs including its file input (src/pages/News.jsx:148, 160, 172, 185), the inputs of the product form including the pdf input (src/pages/Products.jsx:248-370), and the category name inputs (src/pages/Category.jsx:135, src/pages/NewsCategory.jsx:138). The browser refuses to submit such a form before the handler runs; the model starts at the handler, so a submission it allows may be stopped earlier in a browser. The Products image inputs (src/pages/Products.jsx:407-413) are also `required`, but they sit in the separate image dialog, which has no form, so their attribute stops nothing.
- Products.ProductsPage.HandleFormSubmit: when an ok reply's JSON is `null` and the merge reads it (a create, or an edit of a listed id), the source's `setData` updater throws later, while React renders, outside the handler's `catch`. The model keeps the list as it was and still leaves edit mode and resets the draft, as the handler itself does; the render failure is not modelled.
- Js.Value: `Num` holds integers only. Fractional JSON numbers, such as a price of 12.5, and their `String()` form are not modelled.
- Js.First: a string is a sequence of Unicode scalar values, while JavaScript's `v[0]` reads one UTF-16 code unit. For a string that starts with a character outside the Basic Multilingual Plane, the source takes half a surrogate pair; the model takes the whole character.

The source differs from a plain reading of the screens' purpose in a few places. The model follows the code in each:
- Opening a product for edit seeds `images` from the stored `image`; it does not clear the staged files.
- The Layout, News, Category and NewsCategory create buttons do not reset `editingId`.
- The ✕ of the Products image dialog calls `closeModal("image_upload_modal")` (src/pages/Products.jsx:397), which also leaves edit mode (src/pages/Products.jsx:77-82). The next save of the edited product is then a POST to `products/create`. Products.ProductsPage.CloseModal models this, because it does not depend on which dialog is closed.
- News saves by re-fetching the list instead of merging the reply.
- NewsCategory always creates `Sample Category`.
- Category merges a reply body whatever the status.
