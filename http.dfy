/** Requests the screens send, the replies they get back, and the
    `FormData` buffer that multipart payloads are built in. */
module Http {
  import opened Js

  datatype Option<+T> = None | Some(value: T)

  /** Every endpoint lives under this prefix. */
  const Api := "http://localhost:9000/api/v1/"

  datatype Verb = GET | POST | PUT | PATCH | DELETE

  /** One `name=value` entry of a multipart body. */
  datatype Part = Part(name: string, value: Value)

  datatype Payload =
    | NoBody
    | Multipart(parts: seq<Part>)
    | Json(body: Value)

  datatype Request = Request(verb: Verb, url: string, payload: Payload)

  /** What `await response.json()` produced: a value, or the parse error it threw. */
  datatype Body = Parsed(json: Value) | Unparsable(message: string)

  /** What `await fetch(...)` produced: a rejection, or a response with `ok` and a body. */
  datatype Reply =
    | NetworkError(message: string)
    | Response(ok: bool, body: Body)

  /** A response whose status is in the 2xx range, whatever its body. */
  predicate IsOk(r: Reply) {
    r.Response? && r.ok
  }

  /** An ok response whose body parsed as JSON. */
  predicate OkJson(r: Reply) {
    r.Response? && r.ok && r.body.Parsed?
  }

  /** A response whose body parsed as JSON, whatever its status. */
  predicate AnyJson(r: Reply) {
    r.Response? && r.body.Parsed?
  }

  /** A request without a body. */
  function Bare(verb: Verb, url: string): (r: Request)
    ensures r.verb == verb && r.url == url && r.payload == NoBody
  {
    Request(verb, url, NoBody)
  }

  /** The values of `xs` that are present: holes are not visited by `forEach`. */
  function Staged(xs: seq<Value>): (r: seq<Value>)
    ensures |r| <= |xs|
    ensures forall v :: v in r <==> v in xs && v != Hole
  {
    if xs == [] then []
    else if xs[0] == Hole then Staged(xs[1..])
    else [xs[0]] + Staged(xs[1..])
  }

  /** The parts `xs.forEach((x) => fd.append(name, x))` adds. */
  function Each(name: string, xs: seq<Value>): seq<Part> {
    if xs == [] then []
    else if xs[0] == Hole then Each(name, xs[1..])
    else [Part(name, xs[0])] + Each(name, xs[1..])
  }

  /** The parts `names.forEach((n) => fd.append(n, d[n]))` adds: one per name, in order. */
  function Fields(d: Obj, names: seq<string>): (r: seq<Part>)
    ensures |r| == |names|
    ensures forall i :: 0 <= i < |names| ==> r[i] == Part(names[i], Get(d, names[i]))
  {
    if names == [] then [] else [Part(names[0], Get(d, names[0]))] + Fields(d, names[1..])
  }

  /** A form's fixed fields in order, then each present element of its array `listName`. */
  function FieldsThenEach(d: Obj, names: seq<string>, listName: string): seq<Part> {
    Fields(d, names) + Each(listName, Elems(Get(d, listName)))
  }

  /** No name occurs twice. */
  predicate Distinct(names: seq<string>) {
    forall i, j :: 0 <= i < j < |names| ==> names[i] != names[j]
  }

  /** `fd.getAll(name)`: the values sent under `name`, in order. */
  function Named(parts: seq<Part>, name: string): seq<Value> {
    if parts == [] then []
    else if parts[0].name == name then [parts[0].value] + Named(parts[1..], name)
    else Named(parts[1..], name)
  }

  /** The browser's `FormData`: entries are appended, never reordered. */
  class FormData {
    var entries: seq<Part>

    constructor ()
      ensures entries == []
    {
      entries := [];
    }

    method Append(name: string, value: Value)
      modifies this
      ensures entries == old(entries) + [Part(name, value)]
    {
      entries := entries + [Part(name, value)];
    }
  }

  /** `xs.forEach((x) => fd.append(name, x))`. */
  method AppendEach(fd: FormData, name: string, xs: seq<Value>)
    modifies fd
    ensures fd.entries == old(fd.entries) + Each(name, xs)
  {
    var i := 0;
    while i < |xs|
      invariant 0 <= i <= |xs|
      invariant fd.entries + Each(name, xs[i..]) == old(fd.entries) + Each(name, xs)
    {
      assert xs[i..][1..] == xs[i + 1..];
      if xs[i] != Hole {
        fd.Append(name, xs[i]);
      }
      i := i + 1;
    }
    assert xs[i..] == [];
  }

  /** Looking up a name distributes over concatenated payloads. */
  lemma {:induction false} NamedAppend(a: seq<Part>, b: seq<Part>, name: string)
    ensures Named(a + b, name) == Named(a, name) + Named(b, name)
  {
    if a != [] {
      assert (a + b)[1..] == a[1..] + b;
      NamedAppend(a[1..], b, name);
    } else {
      assert a + b == b;
    }
  }

  /** A `forEach` append sends every present element under its name, in array order,
      and nothing under any other name. */
  lemma {:induction false} NamedEach(name: string, xs: seq<Value>, other: string)
    ensures Named(Each(name, xs), name) == Staged(xs)
    ensures other != name ==> Named(Each(name, xs), other) == []
  {
    if xs != [] {
      NamedEach(name, xs[1..], other);
    }
  }

  /** A name listed once is sent once, with the draft's value; an unlisted name is not sent. */
  lemma {:induction false} NamedFields(d: Obj, names: seq<string>, name: string)
    requires Distinct(names)
    ensures Named(Fields(d, names), name) == if name in names then [Get(d, name)] else []
  {
    if names != [] {
      assert Distinct(names[1..]);
      NamedFields(d, names[1..], name);
      assert Fields(d, names) == [Part(names[0], Get(d, names[0]))] + Fields(d, names[1..]);
      if names[0] == name {
        assert name !in names[1..] by {
          forall i | 0 <= i < |names[1..]| ensures names[1..][i] != name {
            assert names[1..][i] == names[i + 1];
          }
        }
      }
    }
  }

  /** In a fixed-fields-then-array payload the fields come first, in their order; the array
      elements are sent under `listName`, in order, holes skipped; every other field once. */
  lemma FieldsThenEachNamed(d: Obj, names: seq<string>, listName: string, name: string)
    requires Distinct(names) && listName !in names
    ensures forall i :: 0 <= i < |names| ==>
      FieldsThenEach(d, names, listName)[i] == Part(names[i], Get(d, names[i]))
    ensures Named(FieldsThenEach(d, names, listName), name) ==
      if name == listName then Staged(Elems(Get(d, listName)))
      else if name in names then [Get(d, name)]
      else []
  {
    NamedAppend(Fields(d, names), Each(listName, Elems(Get(d, listName))), name);
    NamedFields(d, names, name);
    NamedEach(listName, Elems(Get(d, listName)), name);
  }

  /** An array without holes is sent element for element. */
  lemma {:induction false} StagedNoHoles(xs: seq<Value>)
    requires Hole !in xs
    ensures Staged(xs) == xs
  {
    if xs != [] {
      StagedNoHoles(xs[1..]);
    }
  }

  /** `[...xs]` leaves no hole behind, so `forEach` over a copy visits every slot; copying
      again changes nothing. */
  lemma CopySentWhole(xs: seq<Value>)
    ensures Hole !in Unholed(xs)
    ensures Staged(Unholed(xs)) == Unholed(xs)
    ensures Unholed(Unholed(xs)) == Unholed(xs)
  {
    StagedNoHoles(Unholed(xs));
  }
}
