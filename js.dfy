/** The slice of JavaScript's value model that the admin screens rely on:
    JSON values, file handles, preview handles, object key order and truthiness. */
module Js {

  /** A JavaScript value as the screens see it. `Hole` is an absent array
      element (what `a[i] = x` leaves between the old end and `i`). */
  datatype Value =
    | Undefined
    | Null
    | Bool(b: bool)
    | Num(n: int)
    | Str(s: string)
    | Arr(elems: seq<Value>)
    | Object(props: Obj)
    | File(handle: nat)
    | ObjectUrl(file: Value)
    | Hole

  /** A change event from a form control: a text-like input's name and value,
      or a file input's name and the files chosen in it. */
  datatype InputEvent =
    | TextInput(name: string, value: string)
    | FileInput(name: string, files: seq<Value>)

  /** One own property of an object. */
  datatype Field = Field(key: string, val: Value)

  /** An object: its own properties in insertion order (the order `Object.keys` reports). */
  type Obj = seq<Field>

  /** JavaScript truthiness: `undefined`, `null`, `false`, `0` and `''` are falsy. */
  predicate Truthy(v: Value) {
    match v
    case Undefined => false
    case Null => false
    case Hole => false
    case Bool(b) => b
    case Num(n) => n != 0
    case Str(s) => s != ""
    case _ => true
  }

  function DigitChar(d: nat): char
    requires d < 10
  {
    "0123456789"[d]
  }

  /** Decimal numeral of a natural number. */
  function Digits(n: nat): (r: string)
    ensures |r| > 0
    ensures forall i :: 0 <= i < |r| ==> '0' <= r[i] <= '9'
  {
    if n < 10 then [DigitChar(n)] else Digits(n / 10) + [DigitChar(n % 10)]
  }

  /** `String(v)`, as used by template literals such as `` `.../${id}` ``. */
  function Text(v: Value): string
    decreases v, 1
  {
    match v
    case Undefined => "undefined"
    case Null => "null"
    case Hole => ""
    case Bool(b) => if b then "true" else "false"
    case Num(n) => if n < 0 then "-" + Digits(-n) else Digits(n)
    case Str(s) => s
    case Arr(xs) => Join(xs)
    case Object(_) => "[object Object]"
    case File(_) => "[object File]"
    case ObjectUrl(_) => "blob:"
  }

  /** `xs.join(",")`: `null`, `undefined` and holes print as the empty string. */
  function Join(xs: seq<Value>): string
    decreases xs, 0
  {
    if xs == [] then ""
    else
      var head := if xs[0] == Null || xs[0] == Undefined then "" else Text(xs[0]);
      if |xs| == 1 then head else head + "," + Join(xs[1..])
  }

  /** The keys of `o`, in order. */
  function Keys(o: Obj): (ks: seq<string>)
    ensures |ks| == |o|
    ensures forall i :: 0 <= i < |o| ==> ks[i] == o[i].key
  {
    if o == [] then [] else [o[0].key] + Keys(o[1..])
  }

  /** No key occurs twice, as in every object JavaScript builds. */
  predicate UniqueKeys(o: Obj) {
    forall i, j :: 0 <= i < j < |o| ==> o[i].key != o[j].key
  }

  /** `o[k]`: the property's value, `undefined` when `o` has no such key. */
  function Get(o: Obj, k: string): Value {
    if o == [] then Undefined
    else if o[0].key == k then o[0].val
    else Get(o[1..], k)
  }

  /** `{...o, [k]: v}`: an existing key keeps its position, a new key goes last. */
  function Set(o: Obj, k: string, v: Value): Obj {
    if o == [] then [Field(k, v)]
    else if o[0].key == k then [Field(k, v)] + o[1..]
    else [o[0]] + Set(o[1..], k, v)
  }

  /** `{...o, ...p}`: the properties of `p` are written onto `o` one by one, in order. */
  function Spread(o: Obj, p: Obj): Obj
    decreases |p|
  {
    if p == [] then o else Spread(Set(o, p[0].key, p[0].val), p[1..])
  }

  /** Reading a property of `v` does not throw: it is neither `null` nor `undefined`. */
  predicate Readable(v: Value) {
    v != Null && v != Undefined && v != Hole
  }

  /** `o.k` on a `Readable` value; reading a property of a non-object gives `undefined`. */
  function Member(v: Value, k: string): Value {
    match v
    case Object(p) => Get(p, k)
    case _ => Undefined
  }

  /** The elements of an array value; a non-array has none. */
  function Elems(v: Value): seq<Value> {
    match v
    case Arr(xs) => xs
    case _ => []
  }

  /** `[...xs]`: copying an array turns its holes into `undefined`. */
  function Unholed(xs: seq<Value>): (r: seq<Value>)
    ensures |r| == |xs| && Hole !in r
    ensures forall i :: 0 <= i < |xs| && xs[i] != Hole ==> r[i] == xs[i]
  {
    seq(|xs|, i requires 0 <= i < |xs| => if xs[i] == Hole then Undefined else xs[i])
  }

  /** `a[i] = v` on an array: past the end the array grows and the gap is left as holes. */
  function PutAt(xs: seq<Value>, i: nat, v: Value): (r: seq<Value>)
    ensures |r| == if i < |xs| then |xs| else i + 1
    ensures r[i] == v
    ensures forall j :: 0 <= j < |r| && j != i ==> r[j] == (if j < |xs| then xs[j] else Hole)
  {
    if i < |xs| then xs[i := v] else xs + seq(i - |xs|, _ => Hole) + [v]
  }

  /** `v[0]` on a `Readable` value: the first element of an array, the first character
      of a string, an object's property `"0"`, and `undefined` for anything else. */
  function First(v: Value): Value {
    match v
    case Arr(xs) => if xs == [] || xs[0] == Hole then Undefined else xs[0]
    case Str(s) => if s == "" then Undefined else Str([s[0]])
    case Object(p) => Get(p, "0")
    case _ => Undefined
  }

  /** `xs.map((x) => `${prefix}${x}`)`; `map` leaves holes where they are. */
  function Prefixed(prefix: string, xs: seq<Value>): (r: seq<Value>)
    ensures |r| == |xs|
    ensures forall i :: 0 <= i < |xs| ==> r[i] == if xs[i] == Hole then Hole else Str(prefix + Text(xs[i]))
  {
    if xs == [] then []
    else [if xs[0] == Hole then Hole else Str(prefix + Text(xs[0]))] + Prefixed(prefix, xs[1..])
  }

  /** A property is read from its first occurrence: no earlier key may shadow it. */
  lemma {:induction false} GetFound(o: Obj, i: nat)
    requires i < |o|
    requires forall j :: 0 <= j < i ==> o[j].key != o[i].key
    ensures Get(o, o[i].key) == o[i].val
  {
    if i > 0 {
      GetFound(o[1..], i - 1);
    }
  }

  /** Setting a property changes that property and no other. */
  lemma {:induction false} SetGet(o: Obj, k: string, v: Value, j: string)
    ensures Get(Set(o, k, v), j) == if j == k then v else Get(o, j)
  {
    if o != [] && o[0].key != k {
      SetGet(o[1..], k, v, j);
    }
  }

  /** Setting an existing key keeps the key order; a new key is appended. */
  lemma {:induction false} SetKeys(o: Obj, k: string, v: Value)
    ensures Keys(Set(o, k, v)) == if k in Keys(o) then Keys(o) else Keys(o) + [k]
  {
    if o != [] {
      assert Keys(o) == [o[0].key] + Keys(o[1..]);
      if o[0].key != k {
        SetKeys(o[1..], k, v);
      }
    }
  }

  /** Setting a property keeps keys unique. */
  lemma SetUnique(o: Obj, k: string, v: Value)
    requires UniqueKeys(o)
    ensures UniqueKeys(Set(o, k, v))
  {
    var r := Set(o, k, v);
    SetKeys(o, k, v);
    forall i, j | 0 <= i < j < |r| ensures r[i].key != r[j].key {
      assert Keys(r)[i] == r[i].key && Keys(r)[j] == r[j].key;
      if j < |o| {
        assert Keys(o)[i] == o[i].key && Keys(o)[j] == o[j].key;
      } else {
        assert k !in Keys(o) && Keys(r)[j] == k;
        assert Keys(r)[i] == Keys(o)[i];
      }
    }
  }

  /** A spread reads `p`'s value for the keys `p` has and `o`'s value for the rest. */
  lemma {:induction false} SpreadGet(o: Obj, p: Obj, k: string)
    requires UniqueKeys(p)
    ensures Get(Spread(o, p), k) == if k in Keys(p) then Get(p, k) else Get(o, k)
    decreases |p|
  {
    if p != [] {
      var o' := Set(o, p[0].key, p[0].val);
      assert UniqueKeys(p[1..]);
      assert Keys(p) == [p[0].key] + Keys(p[1..]);
      SpreadGet(o', p[1..], k);
      SetGet(o, p[0].key, p[0].val, k);
      if k == p[0].key {
        assert k !in Keys(p[1..]) by {
          forall i | 0 <= i < |p[1..]| ensures Keys(p[1..])[i] != k {
            assert p[1..][i] == p[i + 1];
          }
        }
      }
    }
  }

  /** A spread keeps the keys of `o` in front, in their order, and keeps keys unique. */
  lemma {:induction false} SpreadKeys(o: Obj, p: Obj)
    requires UniqueKeys(o)
    ensures UniqueKeys(Spread(o, p))
    ensures Keys(o) <= Keys(Spread(o, p))
    ensures forall k :: k in Keys(Spread(o, p)) <==> k in Keys(o) || k in Keys(p)
    decreases |p|
  {
    if p != [] {
      var o' := Set(o, p[0].key, p[0].val);
      SetUnique(o, p[0].key, p[0].val);
      SetKeys(o, p[0].key, p[0].val);
      assert Keys(p) == [p[0].key] + Keys(p[1..]);
      SpreadKeys(o', p[1..]);
    }
  }
}
