/**
 * A JavaScript plain object used as a string-keyed record: its entries keep
 * insertion order (which `Object.values` reports for keys that are not array
 * indices, which `uuidV4` ids never are), assigning to an existing key
 * replaces the value in place, assigning to a new key appends, and `delete`
 * removes the key if present.
 */
module Records {
  import opened Wrappers

  datatype Entry<V> = Entry(key: string, value: V)

  function Keys<V>(r: seq<Entry<V>>): set<string>
  {
    if r == [] then {} else {r[0].key} + Keys(r[1..])
  }

  /** An object never holds a key twice. */
  ghost predicate UniqueKeys<V>(r: seq<Entry<V>>)
  {
    forall i, j :: 0 <= i < j < |r| ==> r[i].key != r[j].key
  }

  /** `record[k]`. */
  function Get<V>(r: seq<Entry<V>>, k: string): (v: Option<V>)
    ensures v.Some? <==> k in Keys(r)
  {
    if r == [] then None
    else if r[0].key == k then Some(r[0].value)
    else Get(r[1..], k)
  }

  /** `record[k] = v`. */
  function Put<V>(r: seq<Entry<V>>, k: string, v: V): (r': seq<Entry<V>>)
    ensures Keys(r') == Keys(r) + {k}
    ensures |r'| == if k in Keys(r) then |r| else |r| + 1
  {
    if r == [] then [Entry(k, v)]
    else if r[0].key == k then
      assert ([Entry(k, v)] + r[1..])[1..] == r[1..];
      [Entry(k, v)] + r[1..]
    else
      var rest := Put(r[1..], k, v);
      assert ([r[0]] + rest)[1..] == rest;
      [r[0]] + rest
  }

  /** `delete record[k]`. */
  function Delete<V>(r: seq<Entry<V>>, k: string): (r': seq<Entry<V>>)
    ensures Keys(r') == Keys(r) - {k}
    ensures |r'| <= |r|
  {
    if r == [] then []
    else
      var rest := Delete(r[1..], k);
      if r[0].key == k then rest
      else
        assert ([r[0]] + rest)[1..] == rest;
        [r[0]] + rest
  }

  /** Every entry's key is among the record's keys. */
  lemma {:induction false} KeyAt<V>(r: seq<Entry<V>>, i: nat)
    requires i < |r|
    ensures r[i].key in Keys(r)
  {
    if i > 0 {
      KeyAt(r[1..], i - 1);
    }
  }

  /** Assignment sets the assigned key and no other. */
  lemma {:induction false} GetPut<V>(r: seq<Entry<V>>, k: string, v: V, k': string)
    ensures Get(Put(r, k, v), k') == if k' == k then Some(v) else Get(r, k')
  {
    if r != [] && r[0].key != k {
      GetPut(r[1..], k, v, k');
      assert Put(r, k, v)[1..] == Put(r[1..], k, v);
    } else if r != [] {
      assert Put(r, k, v)[1..] == r[1..];
    }
  }

  /** Deletion removes the deleted key and no other. */
  lemma {:induction false} GetDelete<V>(r: seq<Entry<V>>, k: string, k': string)
    ensures Get(Delete(r, k), k') == if k' == k then None else Get(r, k')
  {
    if r != [] {
      GetDelete(r[1..], k, k');
      if r[0].key != k {
        assert Delete(r, k)[1..] == Delete(r[1..], k);
      }
    }
  }

  /** Deleting the same key twice is the same as deleting it once. */
  lemma {:induction false} DeleteIdempotent<V>(r: seq<Entry<V>>, k: string)
    ensures Delete(Delete(r, k), k) == Delete(r, k)
  {
    if r != [] {
      DeleteIdempotent(r[1..], k);
      if r[0].key != k {
        assert Delete(r, k)[1..] == Delete(r[1..], k);
      }
    }
  }

  /** Deleting a key the record does not hold leaves it as it is. */
  lemma {:induction false} DeleteAbsent<V>(r: seq<Entry<V>>, k: string)
    requires k !in Keys(r)
    ensures Delete(r, k) == r
  {
    if r != [] {
      DeleteAbsent(r[1..], k);
    }
  }

  /** Assigning to a key the record already holds replaces its value where it stands. */
  lemma {:induction false} PutExisting<V>(r: seq<Entry<V>>, i: nat, v: V)
    requires UniqueKeys(r) && i < |r|
    ensures Put(r, r[i].key, v) == r[i := Entry(r[i].key, v)]
  {
    if i > 0 {
      assert r[0].key != r[i].key;
      assert UniqueKeys(r[1..]) by {
        forall a, b | 0 <= a < b < |r[1..]|
          ensures r[1..][a].key != r[1..][b].key
        {
          assert r[1..][a] == r[a + 1] && r[1..][b] == r[b + 1];
        }
      }
      PutExisting(r[1..], i - 1, v);
      assert r[1..][i - 1] == r[i];
      assert [r[0]] + r[1..][i - 1 := Entry(r[i].key, v)] == r[i := Entry(r[i].key, v)];
    }
  }

  /** A new key is appended after every existing entry. */
  lemma {:induction false} PutFresh<V>(r: seq<Entry<V>>, k: string, v: V)
    requires k !in Keys(r)
    ensures Put(r, k, v) == r + [Entry(k, v)]
  {
    if r != [] {
      PutFresh(r[1..], k, v);
      assert r == [r[0]] + r[1..];
    }
  }

  /** Adding a new key and deleting it again restores the record. */
  lemma DeletePutFresh<V>(r: seq<Entry<V>>, k: string, v: V)
    requires k !in Keys(r)
    ensures Delete(Put(r, k, v), k) == r
  {
    PutFresh(r, k, v);
    DeleteAppended(r, k, v);
  }

  lemma {:induction false} DeleteAppended<V>(r: seq<Entry<V>>, k: string, v: V)
    requires k !in Keys(r)
    ensures Delete(r + [Entry(k, v)], k) == r
  {
    if r == [] {
      assert Delete([Entry(k, v)], k) == Delete([Entry(k, v)][1..], k);
    } else {
      assert (r + [Entry(k, v)])[1..] == r[1..] + [Entry(k, v)];
      DeleteAppended(r[1..], k, v);
      assert r == [r[0]] + r[1..];
    }
  }

  /** Deleting a key that sits at position i removes exactly that entry and keeps the others in order. */
  lemma {:induction false} DeleteAt<V>(r: seq<Entry<V>>, i: nat)
    requires UniqueKeys(r) && i < |r|
    ensures Delete(r, r[i].key) == r[..i] + r[i + 1..]
  {
    var k := r[i].key;
    if i == 0 {
      assert forall j :: 0 <= j < |r[1..]| ==> r[1..][j].key != k;
      NotInKeys(r[1..], k);
      DeleteAbsent(r[1..], k);
    } else {
      assert r[0].key != k;
      DeleteAt(r[1..], i - 1);
      assert r[1..][i - 1].key == k;
      assert r[..i] == [r[0]] + r[1..][..i - 1];
      assert r[i + 1..] == r[1..][i..];
    }
  }

  lemma {:induction false} NotInKeys<V>(r: seq<Entry<V>>, k: string)
    requires forall j :: 0 <= j < |r| ==> r[j].key != k
    ensures k !in Keys(r)
  {
    if r != [] {
      NotInKeys(r[1..], k);
    }
  }

  /** Assignment keeps an object's keys distinct. */
  lemma {:induction false} PutKeepsUnique<V>(r: seq<Entry<V>>, k: string, v: V)
    requires UniqueKeys(r)
    ensures UniqueKeys(Put(r, k, v))
  {
    if r != [] {
      PutKeepsUnique(r[1..], k, v);
      var r' := Put(r, k, v);
      forall j | 1 <= j < |r'|
        ensures r'[0].key != r'[j].key
      {
        KeyAt(r'[1..], j - 1);
        DistinctFromRest(r);
      }
    }
  }

  lemma DistinctFromRest<V>(r: seq<Entry<V>>)
    requires UniqueKeys(r) && r != []
    ensures r[0].key !in Keys(r[1..])
  {
    NotInKeys(r[1..], r[0].key);
  }

  /** Deletion keeps an object's keys distinct. */
  lemma {:induction false} DeleteKeepsUnique<V>(r: seq<Entry<V>>, k: string)
    requires UniqueKeys(r)
    ensures UniqueKeys(Delete(r, k))
  {
    if r != [] {
      DeleteKeepsUnique(r[1..], k);
      var r' := Delete(r, k);
      if r[0].key != k {
        DistinctFromRest(r);
        forall j | 1 <= j < |r'|
          ensures r'[0].key != r'[j].key
        {
          KeyAt(r'[1..], j - 1);
        }
      }
    }
  }
}
