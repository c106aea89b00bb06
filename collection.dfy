/** The in-memory list every screen keeps (`data`) and the three ways a
    mutation response changes it: append, replace by `_id`, remove by `_id`. */
module Collection {
  import opened Js

  /** The list `setData(v)` leaves: the elements of an array `v`. The screens only ever
      list arrays, so a value of any other kind leaves `current` in place. */
  function AsList(v: Value, current: seq<Value>): seq<Value> {
    if v.Arr? then v.elems else current
  }

  /** `record._id`. */
  function IdOf(record: Value): Value {
    Member(record, "_id")
  }

  /** The ids of the list, in list order. */
  function Ids(xs: seq<Value>): (ids: seq<Value>)
    ensures |ids| == |xs|
    ensures forall i :: 0 <= i < |xs| ==> ids[i] == IdOf(xs[i])
  {
    if xs == [] then [] else [IdOf(xs[0])] + Ids(xs[1..])
  }

  /** No two entries share an `_id`. */
  predicate UniqueIds(xs: seq<Value>) {
    forall i, j :: 0 <= i < j < |xs| ==> IdOf(xs[i]) != IdOf(xs[j])
  }

  /** How many entries carry `id`. */
  function Count(xs: seq<Value>, id: Value): nat {
    if xs == [] then 0
    else (if IdOf(xs[0]) == id then 1 else 0) + Count(xs[1..], id)
  }

  /** `xs.map((x) => x._id === id ? record : x)`. */
  function Replace(xs: seq<Value>, id: Value, record: Value): seq<Value> {
    if xs == [] then []
    else [if IdOf(xs[0]) == id then record else xs[0]] + Replace(xs[1..], id, record)
  }

  /** `xs.filter((x) => x._id !== id)`. */
  function Remove(xs: seq<Value>, id: Value): seq<Value> {
    if xs == [] then []
    else if IdOf(xs[0]) == id then Remove(xs[1..], id)
    else [xs[0]] + Remove(xs[1..], id)
  }

  /** An update keeps the length and swaps in `record` exactly at the entries that carry `id`. */
  lemma {:induction false} ReplaceAt(xs: seq<Value>, id: Value, record: Value)
    ensures |Replace(xs, id, record)| == |xs|
    ensures forall i :: 0 <= i < |xs| ==>
      Replace(xs, id, record)[i] == if IdOf(xs[i]) == id then record else xs[i]
  {
    if xs != [] {
      ReplaceAt(xs[1..], id, record);
    }
  }

  /** Whether merging a saved record reads the reply it came in: an append always does,
      a `map` replace only when some entry carries the id, since the arrow's other branch
      keeps the entry without touching the reply. */
  predicate MergeReads(editing: bool, id: Value, xs: seq<Value>) {
    !editing || id in Ids(xs)
  }

  /** A merge that does not read the reply is an update of an unlisted id, and keeps the
      list whatever record it is given. */
  lemma UnreadMergeKeeps(editing: bool, id: Value, xs: seq<Value>, record: Value)
    requires !MergeReads(editing, id, xs)
    ensures editing && Replace(xs, id, record) == xs
  {
    ReplaceStale(xs, id, record);
  }

  /** An update whose id is not in the list leaves it as it was. */
  lemma {:induction false} ReplaceStale(xs: seq<Value>, id: Value, record: Value)
    requires id !in Ids(xs)
    ensures Replace(xs, id, record) == xs
  {
    ReplaceAt(xs, id, record);
    assert forall i :: 0 <= i < |xs| ==> IdOf(xs[i]) != id by {
      forall i | 0 <= i < |xs| ensures IdOf(xs[i]) != id {
        assert Ids(xs)[i] == IdOf(xs[i]);
      }
    }
  }

  /** Applying the same update twice is the same as applying it once. */
  lemma {:induction false} ReplaceIdempotent(xs: seq<Value>, id: Value, record: Value)
    ensures Replace(Replace(xs, id, record), id, record) == Replace(xs, id, record)
  {
    var once := Replace(xs, id, record);
    ReplaceAt(xs, id, record);
    ReplaceAt(once, id, record);
  }

  /** An update that returns the record under the same id keeps the ids, and so keeps them unique. */
  lemma {:induction false} ReplaceKeepsIds(xs: seq<Value>, id: Value, record: Value)
    requires IdOf(record) == id
    ensures Ids(Replace(xs, id, record)) == Ids(xs)
    ensures UniqueIds(xs) ==> UniqueIds(Replace(xs, id, record))
  {
    ReplaceAt(xs, id, record);
    var r := Replace(xs, id, record);
    assert forall i :: 0 <= i < |xs| ==> IdOf(r[i]) == IdOf(xs[i]);
  }

  /** A delete keeps exactly the entries whose id differs. */
  lemma {:induction false} RemoveMembers(xs: seq<Value>, id: Value)
    ensures forall x :: x in Remove(xs, id) <==> x in xs && IdOf(x) != id
  {
    if xs != [] {
      RemoveMembers(xs[1..], id);
      assert xs == [xs[0]] + xs[1..];
    }
  }

  /** A delete is a filter: it works piecewise, so the survivors keep their relative order. */
  lemma {:induction false} RemoveAppend(a: seq<Value>, b: seq<Value>, id: Value)
    ensures Remove(a + b, id) == Remove(a, id) + Remove(b, id)
  {
    if a == [] {
      assert a + b == b;
    } else {
      assert (a + b)[1..] == a[1..] + b;
      RemoveAppend(a[1..], b, id);
    }
  }

  /** A delete drops one entry per occurrence of the id and no more. */
  lemma {:induction false} RemoveCount(xs: seq<Value>, id: Value)
    ensures |Remove(xs, id)| == |xs| - Count(xs, id)
    ensures Count(xs, id) == 0 ==> Remove(xs, id) == xs
  {
    if xs != [] {
      RemoveCount(xs[1..], id);
    }
  }

  /** With unique ids an id occurs at most once, and exactly once when it is listed. */
  lemma {:induction false} UniqueCount(xs: seq<Value>, id: Value)
    requires UniqueIds(xs)
    ensures Count(xs, id) == if id in Ids(xs) then 1 else 0
  {
    if xs != [] {
      assert UniqueIds(xs[1..]);
      assert Ids(xs) == [IdOf(xs[0])] + Ids(xs[1..]);
      UniqueCount(xs[1..], id);
      if IdOf(xs[0]) == id {
        assert id !in Ids(xs[1..]) by {
          forall i | 0 <= i < |xs[1..]| ensures Ids(xs[1..])[i] != id {
            assert xs[1..][i] == xs[i + 1];
          }
        }
      }
    }
  }

  /** A delete keeps the ids unique. */
  lemma {:induction false} RemoveUnique(xs: seq<Value>, id: Value)
    requires UniqueIds(xs)
    ensures UniqueIds(Remove(xs, id))
  {
    if xs != [] {
      assert UniqueIds(xs[1..]);
      RemoveUnique(xs[1..], id);
      if IdOf(xs[0]) != id {
        var rest := Remove(xs[1..], id);
        RemoveMembers(xs[1..], id);
        forall j | 0 <= j < |rest| ensures IdOf(xs[0]) != IdOf(rest[j]) {
          assert rest[j] in xs[1..];
          var k :| 0 <= k < |xs[1..]| && xs[1..][k] == rest[j];
          assert xs[k + 1] == rest[j];
        }
      }
    }
  }

  /** Appending keeps the ids unique exactly when the new id is not listed yet. */
  lemma AppendUnique(xs: seq<Value>, record: Value)
    ensures UniqueIds(xs + [record]) <==> UniqueIds(xs) && IdOf(record) !in Ids(xs)
  {
    var ys := xs + [record];
    assert forall i :: 0 <= i < |xs| ==> ys[i] == xs[i];
    if UniqueIds(ys) {
      forall i | 0 <= i < |xs| ensures Ids(xs)[i] != IdOf(record) {
        assert IdOf(ys[i]) != IdOf(ys[|xs|]);
      }
    }
  }

  /** With unique ids, deleting a listed id shortens the list by exactly one. */
  lemma RemoveListed(xs: seq<Value>, id: Value)
    requires UniqueIds(xs) && id in Ids(xs)
    ensures |Remove(xs, id)| == |xs| - 1
    ensures UniqueIds(Remove(xs, id)) && id !in Ids(Remove(xs, id))
  {
    UniqueCount(xs, id);
    RemoveCount(xs, id);
    RemoveUnique(xs, id);
    RemoveMembers(xs, id);
    var r := Remove(xs, id);
    forall i | 0 <= i < |r| ensures Ids(r)[i] != id {
      assert r[i] in r;
    }
  }

  /** Deleting a freshly created record restores the list it was appended to. */
  lemma RemoveAfterAppend(xs: seq<Value>, record: Value)
    requires IdOf(record) !in Ids(xs)
    ensures Remove(xs + [record], IdOf(record)) == xs
  {
    var id := IdOf(record);
    RemoveAppend(xs, [record], id);
    assert Remove([record], id) == [];
    assert Count(xs, id) == 0 by {
      CountListed(xs, id);
    }
    RemoveCount(xs, id);
  }

  /** Updating a freshly created record changes only the last entry. */
  lemma ReplaceAfterAppend(xs: seq<Value>, record: Value, updated: Value)
    requires IdOf(record) !in Ids(xs)
    ensures Replace(xs + [record], IdOf(record), updated) == xs + [updated]
  {
    var id := IdOf(record);
    ReplaceAt(xs + [record], id, updated);
    forall i | 0 <= i < |xs| ensures IdOf(xs[i]) != id {
      assert Ids(xs)[i] == IdOf(xs[i]);
    }
  }

  /** After an update that keeps the id, a delete of that id removes the updated entries too. */
  lemma {:induction false} RemoveAfterReplace(xs: seq<Value>, id: Value, record: Value)
    requires IdOf(record) == id
    ensures Remove(Replace(xs, id, record), id) == Remove(xs, id)
    decreases |xs|
  {
    if xs != [] {
      RemoveAfterReplace(xs[1..], id, record);
    }
  }

  /** An id that is not listed is counted zero times. */
  lemma {:induction false} CountListed(xs: seq<Value>, id: Value)
    ensures Count(xs, id) == 0 <==> id !in Ids(xs)
  {
    if xs != [] {
      assert Ids(xs) == [IdOf(xs[0])] + Ids(xs[1..]);
      CountListed(xs[1..], id);
    }
  }
}
