// Tuples of records that are looked up by one identifier.  The source repeats
// `tuple(item for item in items if item.id != id)` for actions, actors,
// energies, memories, branches and propositions; here it is written once.
module Keyed {
  import opened Values

  predicate Has<T>(key: T -> Text, items: seq<T>, id: Text) {
    exists i :: 0 <= i < |items| && key(items[i]) == id
  }

  function Find<T>(key: T -> Text, items: seq<T>, id: Text): (x: T)
    requires Has(key, items, id)
    ensures x in items && key(x) == id
  {
    if key(items[0]) == id then items[0] else Find(key, items[1..], id)
  }

  function Without<T>(key: T -> Text, items: seq<T>, id: Text): (r: seq<T>)
    ensures |r| <= |items|
  {
    if items == [] then []
    else (if key(items[0]) == id then [] else [items[0]]) + Without(key, items[1..], id)
  }

  // (*retained, x)
  function Upsert<T>(key: T -> Text, items: seq<T>, x: T): (r: seq<T>)
    ensures 1 <= |r| <= |items| + 1
  {
    Without(key, items, key(x)) + [x]
  }

  // Assignment into an insertion-ordered dictionary: an existing key keeps its
  // place, a new one goes last.
  function Put<T>(key: T -> Text, items: seq<T>, x: T): (r: seq<T>)
    ensures |items| <= |r| <= |items| + 1
  {
    if items == [] then [x]
    else if key(items[0]) == key(x) then [x] + items[1..]
    else [items[0]] + Put(key, items[1..], x)
  }

  function PutAll<T>(key: T -> Text, items: seq<T>, more: seq<T>): seq<T>
    decreases |more|
  {
    if more == [] then items else PutAll(key, Put(key, items, more[0]), more[1..])
  }

  // How many of the records bear a key that the dictionary lacks.
  function CountNew<T>(key: T -> Text, items: seq<T>, more: seq<T>): nat {
    if more == [] then 0
    else (if Has(key, items, key(more[0])) then 0 else 1) + CountNew(key, items, more[1..])
  }

  ghost predicate Unique<T>(key: T -> Text, items: seq<T>) {
    forall i, j :: 0 <= i < j < |items| ==> key(items[i]) != key(items[j])
  }

  function Keys<T>(key: T -> Text, items: seq<T>): (r: set<Text>)
    ensures forall id :: id in r <==> Has(key, items, id)
    ensures |r| <= |items|
  {
    if items == [] then {}
    else
      var r := Keys(key, items[1..]) + {key(items[0])};
      assert forall id :: Has(key, items, id) <==> key(items[0]) == id || Has(key, items[1..], id) by {
        HasTail(key, items);
      }
      r
  }

  lemma HasTail<T>(key: T -> Text, items: seq<T>)
    requires items != []
    ensures forall id :: Has(key, items, id) <==> key(items[0]) == id || Has(key, items[1..], id)
  {
    forall id ensures Has(key, items, id) <==> key(items[0]) == id || Has(key, items[1..], id) {
      if Has(key, items[1..], id) {
        var i :| 0 <= i < |items[1..]| && key(items[1..][i]) == id;
        assert key(items[i + 1]) == id;
      }
    }
  }

  lemma HasIn<T(!new)>(key: T -> Text, items: seq<T>, x: T)
    requires x in items
    ensures Has(key, items, key(x))
  {
  }

  lemma {:induction false} WithoutElements<T(!new)>(key: T -> Text, items: seq<T>, id: Text)
    ensures forall x :: x in Without(key, items, id) <==> x in items && key(x) != id
    ensures !Has(key, Without(key, items, id), id)
    ensures !Has(key, items, id) ==> Without(key, items, id) == items
  {
    if items != [] {
      WithoutElements(key, items[1..], id);
      HasTail(key, items);
      assert items == [items[0]] + items[1..];
    }
  }

  // Taking out the only record of a key leaves the others in their order.
  lemma {:induction false} WithoutSole<T(!new)>(key: T -> Text, items: seq<T>, k: nat)
    requires k < |items| && forall i :: 0 <= i < |items| && i != k ==> key(items[i]) != key(items[k])
    ensures Without(key, items, key(items[k])) == items[..k] + items[k + 1..]
  {
    var tail := items[1..];
    assert forall i :: 0 <= i < |tail| ==> tail[i] == items[i + 1];
    if k == 0 {
      WithoutElements(key, tail, key(items[0]));
    } else {
      WithoutSole(key, tail, k - 1);
      assert items[..k] == [items[0]] + tail[..k - 1] && tail[k..] == items[k + 1..];
    }
  }

  // An upsert puts the record last: after all the others when it is new, and
  // in place of its only namesake when it is not.
  lemma UpsertOrder<T(!new)>(key: T -> Text, items: seq<T>, x: T)
    ensures !Has(key, items, key(x)) ==> Upsert(key, items, x) == items + [x]
    ensures forall k :: 0 <= k < |items| && Sole(key, items, key(x), k) ==>
              Upsert(key, items, x) == items[..k] + items[k + 1..] + [x]
  {
    WithoutElements(key, items, key(x));
    forall k | 0 <= k < |items| && Sole(key, items, key(x), k)
      ensures Upsert(key, items, x) == items[..k] + items[k + 1..] + [x]
    {
      WithoutSole(key, items, k);
    }
  }

  lemma {:induction false} WithoutUnique<T(!new)>(key: T -> Text, items: seq<T>, id: Text)
    requires Unique(key, items)
    ensures Unique(key, Without(key, items, id))
    ensures |Without(key, items, id)| == |items| - (if Has(key, items, id) then 1 else 0)
  {
    if items != [] {
      var tail := items[1..];
      TailUnique(key, items);
      WithoutUnique(key, tail, id);
      HasTail(key, items);
      if key(items[0]) == id {
        assert Without(key, items, id) == Without(key, tail, id);
      } else {
        assert !Has(key, Without(key, tail, id), key(items[0])) by {
          WithoutElements(key, tail, id);
        }
        ConsUnique(key, items[0], Without(key, tail, id));
        assert Without(key, items, id) == [items[0]] + Without(key, tail, id);
      }
    }
  }

  lemma TailUnique<T>(key: T -> Text, items: seq<T>)
    requires items != [] && Unique(key, items)
    ensures Unique(key, items[1..]) && !Has(key, items[1..], key(items[0]))
  {
    forall i | 0 <= i < |items[1..]| ensures key(items[1..][i]) != key(items[0]) {
      assert items[1..][i] == items[i + 1];
    }
  }

  lemma ConsUnique<T>(key: T -> Text, x: T, rest: seq<T>)
    requires Unique(key, rest) && !Has(key, rest, key(x))
    ensures Unique(key, [x] + rest)
  {
  }

  lemma UpsertElements<T(!new)>(key: T -> Text, items: seq<T>, x: T)
    ensures forall y :: y in Upsert(key, items, x) <==> y == x || (y in items && key(y) != key(x))
    ensures forall id :: Has(key, Upsert(key, items, x), id) <==> id == key(x) || Has(key, items, id)
  {
    WithoutElements(key, items, key(x));
    var r := Upsert(key, items, x);
    assert r[|r| - 1] == x;
    forall id ensures Has(key, r, id) <==> id == key(x) || Has(key, items, id) {
      if Has(key, items, id) && id != key(x) {
        var i :| 0 <= i < |items| && key(items[i]) == id;
        assert items[i] in r;
      }
      if Has(key, r, id) {
        var i :| 0 <= i < |r| && key(r[i]) == id;
        assert r[i] in r;
      }
    }
  }

  lemma UpsertUnique<T(!new)>(key: T -> Text, items: seq<T>, x: T)
    requires Unique(key, items)
    ensures Unique(key, Upsert(key, items, x))
    ensures |Upsert(key, items, x)| == |items| + (if Has(key, items, key(x)) then 0 else 1)
  {
    WithoutUnique(key, items, key(x));
    WithoutElements(key, items, key(x));
    var rest := Without(key, items, key(x));
    forall j | 0 <= j < |rest| ensures key(rest[j]) != key(x) {
      assert rest[j] in rest;
    }
  }

  // With unique keys, finding a key gives the record that carries it.
  lemma FindUnique<T(!new)>(key: T -> Text, items: seq<T>, x: T)
    requires Unique(key, items) && x in items
    ensures Has(key, items, key(x)) && Find(key, items, key(x)) == x
  {
    var i :| 0 <= i < |items| && items[i] == x;
    var y := Find(key, items, key(x));
    var j :| 0 <= j < |items| && items[j] == y;
  }

  lemma {:induction false} UniqueKeyCount<T>(key: T -> Text, items: seq<T>)
    requires Unique(key, items)
    ensures |Keys(key, items)| == |items|
  {
    if items != [] {
      TailUnique(key, items);
      UniqueKeyCount(key, items[1..]);
      assert Keys(key, items) == Keys(key, items[1..]) + {key(items[0])};
    }
  }

  lemma {:induction false} PutKeys<T>(key: T -> Text, items: seq<T>, x: T)
    ensures forall id :: Has(key, Put(key, items, x), id) <==> id == key(x) || Has(key, items, id)
    ensures |Put(key, items, x)| == |items| + (if Has(key, items, key(x)) then 0 else 1)
  {
    var r := Put(key, items, x);
    HasTail(key, r);
    if items != [] {
      HasTail(key, items);
      if key(items[0]) == key(x) {
        assert r[1..] == items[1..];
      } else {
        PutKeys(key, items[1..], x);
        assert r[1..] == Put(key, items[1..], x);
      }
    }
  }

  // Merging into a dictionary never adds more entries than there are records
  // with a key that the old tuple lacked.
  lemma {:induction false} PutAllSize<T>(key: T -> Text, base: seq<T>, items: seq<T>, more: seq<T>)
    requires forall id :: Has(key, base, id) ==> Has(key, items, id)
    ensures |PutAll(key, items, more)| <= |items| + CountNew(key, base, more)
    decreases |more|
  {
    if more != [] {
      PutKeys(key, items, more[0]);
      PutAllSize(key, base, Put(key, items, more[0]), more[1..]);
    }
  }

  lemma {:induction false} PutAllHas<T>(key: T -> Text, items: seq<T>, more: seq<T>)
    ensures forall id :: Has(key, items, id) || Has(key, more, id) ==> Has(key, PutAll(key, items, more), id)
    ensures |PutAll(key, items, more)| <= |items| + |more|
    decreases |more|
  {
    if more != [] {
      PutKeys(key, items, more[0]);
      HasTail(key, more);
      PutAllHas(key, Put(key, items, more[0]), more[1..]);
    }
  }

  lemma {:induction false} CountNewAppend<T>(key: T -> Text, items: seq<T>, more: seq<T>, x: T)
    ensures CountNew(key, items, more + [x]) ==
            CountNew(key, items, more) + (if Has(key, items, key(x)) then 0 else 1)
  {
    if more == [] {
      assert more + [x] == [x];
    } else {
      assert (more + [x])[1..] == more[1..] + [x];
      CountNewAppend(key, items, more[1..], x);
    }
  }

  lemma {:induction false} CountNewNone<T>(key: T -> Text, items: seq<T>, more: seq<T>)
    requires forall i :: 0 <= i < |more| ==> Has(key, items, key(more[i]))
    ensures CountNew(key, items, more) == 0
  {
    if more != [] {
      CountNewNone(key, items, more[1..]);
    }
  }

  // Replacing or adding one record admits it exactly when its key is new.
  lemma CountNewUpsert<T(!new)>(key: T -> Text, items: seq<T>, x: T)
    ensures CountNew(key, items, Upsert(key, items, x)) == if Has(key, items, key(x)) then 0 else 1
  {
    var rest := Without(key, items, key(x));
    WithoutElements(key, items, key(x));
    forall i | 0 <= i < |rest| ensures Has(key, items, key(rest[i])) {
      assert rest[i] in items;
    }
    CountNewNone(key, items, rest);
    CountNewAppend(key, items, rest, x);
  }

  function RemoveAt<T>(items: seq<T>, i: nat): (r: seq<T>)
    requires i < |items|
    ensures |r| == |items| - 1
  {
    items[..i] + items[i + 1..]
  }

  lemma RemoveAtUnique<T(!new)>(key: T -> Text, items: seq<T>, i: nat)
    requires Unique(key, items) && i < |items|
    ensures Unique(key, RemoveAt(items, i))
    ensures forall x :: x in RemoveAt(items, i) <==> x in items && x != items[i]
    ensures forall id :: Has(key, RemoveAt(items, i), id) <==> Has(key, items, id) && id != key(items[i])
  {
    var r := RemoveAt(items, i);
    forall x | x in items && x != items[i] ensures x in r {
      var j :| 0 <= j < |items| && items[j] == x;
      assert r[if j < i then j else j - 1] == x;
    }
    forall id | Has(key, items, id) && id != key(items[i]) ensures Has(key, r, id) {
      var j :| 0 <= j < |items| && key(items[j]) == id;
      assert items[j] in r;
    }
    forall id | Has(key, r, id) ensures Has(key, items, id) && id != key(items[i]) {
      var j :| 0 <= j < |r| && key(r[j]) == id;
      assert r[j] == items[if j < i then j else j + 1];
    }
  }

  // Subset of keys, stated on records.
  ghost predicate Within<T(!new), U(!new)>(key: T -> Text, items: seq<T>, other: U -> Text, others: seq<U>) {
    forall id :: Has(key, items, id) ==> Has(other, others, id)
  }

  lemma WithinKeys<T(!new), U(!new)>(key: T -> Text, items: seq<T>, other: U -> Text, others: seq<U>)
    ensures Keys(key, items) <= Keys(other, others) <==> Within(key, items, other, others)
  {
    if Keys(key, items) <= Keys(other, others) {
      forall id | Has(key, items, id) ensures Has(other, others, id) {
        assert id in Keys(key, items);
      }
    }
  }

  lemma SubsetSize(a: set<Text>, b: set<Text>)
    requires a <= b
    ensures |a| <= |b|
  {
    assert b == a + (b - a);
  }

  // Distinct records whose keys all occur elsewhere are no more numerous.
  lemma WithinSize<T(!new), U(!new)>(key: T -> Text, items: seq<T>, other: U -> Text, others: seq<U>)
    requires Unique(key, items) && Within(key, items, other, others)
    ensures |items| <= |others|
  {
    WithinKeys(key, items, other, others);
    UniqueKeyCount(key, items);
    SubsetSize(Keys(key, items), Keys(other, others));
  }

  lemma {:induction false} WithoutSize<T>(key: T -> Text, items: seq<T>, id: Text)
    ensures Has(key, items, id) ==> |Without(key, items, id)| < |items|
  {
    if items != [] {
      HasTail(key, items);
      WithoutSize(key, items[1..], id);
    }
  }

  // Even with repeated keys, an upsert grows the tuple only for a new key.
  lemma UpsertSize<T>(key: T -> Text, items: seq<T>, x: T)
    ensures |Upsert(key, items, x)| <= |items| + (if Has(key, items, key(x)) then 0 else 1)
  {
    WithoutSize(key, items, key(x));
  }

  lemma {:induction false} PutAllConcat<T>(key: T -> Text, items: seq<T>, front: seq<T>, back: seq<T>)
    ensures PutAll(key, items, front + back) == PutAll(key, PutAll(key, items, front), back)
    decreases |front|
  {
    if front == [] {
      assert front + back == back;
    } else {
      assert (front + back)[1..] == front[1..] + back;
      PutAllConcat(key, Put(key, items, front[0]), front[1..], back);
    }
  }

  // {item.id: item for item in (*items, *more)} has at most as many entries
  // as there are old items and new keys.
  lemma MergedDictSize<T(!new)>(key: T -> Text, items: seq<T>, more: seq<T>)
    ensures |PutAll(key, [], items + more)| <= |items| + CountNew(key, items, more)
  {
    PutAllConcat(key, [], items, more);
    PutAllHas(key, [], items);
    PutAllSize(key, items, PutAll(key, [], items), more);
  }

  function Count<T>(key: T -> Text, items: seq<T>, id: Text): (n: nat)
    ensures n <= |items|
  {
    if items == [] then 0 else (if key(items[0]) == id then 1 else 0) + Count(key, items[1..], id)
  }

  lemma {:induction false} CountHas<T>(key: T -> Text, items: seq<T>, id: Text)
    ensures Count(key, items, id) >= 1 <==> Has(key, items, id)
  {
    if items != [] {
      HasTail(key, items);
      CountHas(key, items[1..], id);
    }
  }

  lemma {:induction false} CountAppend<T>(key: T -> Text, front: seq<T>, back: seq<T>, id: Text)
    ensures Count(key, front + back, id) == Count(key, front, id) + Count(key, back, id)
  {
    if front == [] {
      assert front + back == back;
    } else {
      assert (front + back)[1..] == front[1..] + back;
      CountAppend(key, front[1..], back, id);
    }
  }

  lemma {:induction false} CountWithout<T>(key: T -> Text, items: seq<T>, gone: Text, id: Text)
    ensures |Without(key, items, gone)| == |items| - Count(key, items, gone)
    ensures Count(key, Without(key, items, gone), id) == if id == gone then 0 else Count(key, items, id)
  {
    if items != [] {
      CountWithout(key, items[1..], gone, id);
      var rest := Without(key, items[1..], gone);
      if key(items[0]) == gone {
        assert Without(key, items, gone) == rest;
      } else {
        assert Without(key, items, gone) == [items[0]] + rest;
        assert ([items[0]] + rest)[1..] == rest;
      }
    }
  }

  lemma CountUpsert<T>(key: T -> Text, items: seq<T>, x: T, id: Text)
    ensures |Upsert(key, items, x)| == |items| - Count(key, items, key(x)) + 1
    ensures Count(key, Upsert(key, items, x), id) == if id == key(x) then 1 else Count(key, items, id)
  {
    CountWithout(key, items, key(x), id);
    CountAppend(key, Without(key, items, key(x)), [x], id);
  }

  lemma {:induction false} UniqueMeansCount<T>(key: T -> Text, items: seq<T>, id: Text)
    requires Unique(key, items)
    ensures Count(key, items, id) <= 1
  {
    if items != [] {
      TailUnique(key, items);
      UniqueMeansCount(key, items[1..], id);
      CountHas(key, items[1..], id);
    }
  }

  ghost predicate Sole<T>(key: T -> Text, items: seq<T>, id: Text, i: nat) {
    && i < |items| && key(items[i]) == id
    && forall j :: 0 <= j < |items| && j != i ==> key(items[j]) != id
  }

  lemma {:induction false} CountFindsSole<T>(key: T -> Text, items: seq<T>, id: Text) returns (i: nat)
    requires Count(key, items, id) == 1
    ensures Sole(key, items, id, i)
  {
    CountHas(key, items[1..], id);
    if key(items[0]) == id {
      i := 0;
      forall j | 0 < j < |items| ensures key(items[j]) != id {
        assert items[1..][j - 1] == items[j];
      }
    } else {
      var k := CountFindsSole(key, items[1..], id);
      i := k + 1;
      forall j | 0 < j < |items| && j != i ensures key(items[j]) != id {
        assert items[1..][j - 1] == items[j];
      }
    }
  }

  lemma {:induction false} SoleCounts<T>(key: T -> Text, items: seq<T>, id: Text, i: nat)
    requires Sole(key, items, id, i)
    ensures Count(key, items, id) == 1
  {
    forall j | 0 <= j < |items[1..]| ensures items[1..][j] == items[j + 1] {
    }
    if i == 0 {
      CountHas(key, items[1..], id);
    } else {
      SoleCounts(key, items[1..], id, i - 1);
    }
  }
}
