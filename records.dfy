/** Lists of records keyed by their `id` property, and the list updates the
    storefront performs on them: `findIndex`/`find` by id, `filter` out an
    id, `map` that touches only the entries of one id, and the insert row
    `{ user_id, ...data }`. */
module Records {
  import opened JsValues

  function IdOf(r: Record): Value
  {
    Get(r, "id")
  }

  function IdsOf(rs: seq<Record>): (ids: seq<Value>)
    ensures |ids| == |rs|
    ensures forall i :: 0 <= i < |rs| ==> ids[i] == IdOf(rs[i])
  {
    seq(|rs|, i requires 0 <= i < |rs| => IdOf(rs[i]))
  }

  /** No two entries share an id. */
  predicate UniqueIds(rs: seq<Record>)
  {
    forall i, j :: 0 <= i < j < |rs| ==> IdOf(rs[i]) != IdOf(rs[j])
  }

  /** `rs.findIndex(r => r.id === id)`: the first index holding id, or -1. */
  function FindIndex(rs: seq<Record>, id: Value): (k: int)
    ensures -1 <= k < |rs|
    ensures k >= 0 ==> IdOf(rs[k]) == id
    ensures k >= 0 ==> forall j :: 0 <= j < k ==> IdOf(rs[j]) != id
    ensures k == -1 <==> forall j :: 0 <= j < |rs| ==> IdOf(rs[j]) != id
  {
    if rs == [] then -1
    else if IdOf(rs[0]) == id then 0
    else
      var k := FindIndex(rs[1..], id);
      if k == -1 then -1 else k + 1
  }

  /** `rs.find(r => r.id === id)`. */
  function FindById(rs: seq<Record>, id: Value): (r: Option<Record>)
    ensures r.Some? ==> r.value in rs && IdOf(r.value) == id
    ensures r.None? <==> forall j :: 0 <= j < |rs| ==> IdOf(rs[j]) != id
    ensures r.Some? ==> FindIndex(rs, id) >= 0 && r.value == rs[FindIndex(rs, id)]
    ensures r.Some? ==> exists k :: 0 <= k < |rs| && rs[k] == r.value && forall j :: 0 <= j < k ==> IdOf(rs[j]) != id
  {
    var k := FindIndex(rs, id);
    if k >= 0 then Some(rs[k]) else None
  }

  /** What the filter keeps of one record. */
  function Kept(r: Record, id: Value): seq<Record>
  {
    if IdOf(r) == id then [] else [r]
  }

  /** `rs.filter(r => r.id !== id)`. */
  function WithoutId(rs: seq<Record>, id: Value): (r: seq<Record>)
    ensures |r| <= |rs|
  {
    if rs == [] then [] else Kept(rs[0], id) + WithoutId(rs[1..], id)
  }

  /** What the filter keeps: every record keeps its multiplicity unless its id
      is the one removed, in which case none of it is left. */
  lemma {:induction false} WithoutIdCounts(rs: seq<Record>, id: Value)
    ensures forall x :: multiset(WithoutId(rs, id))[x] == if IdOf(x) == id then 0 else multiset(rs)[x]
  {
    if rs != [] {
      WithoutIdCounts(rs[1..], id);
      assert rs == [rs[0]] + rs[1..];
    }
  }

  /** The filter unfolded once over a concatenation whose left part is non-empty. */
  lemma WithoutIdConsAppend(a: seq<Record>, b: seq<Record>, id: Value)
    requires a != []
    ensures WithoutId(a + b, id) == Kept(a[0], id) + WithoutId(a[1..] + b, id)
    ensures WithoutId(a, id) == Kept(a[0], id) + WithoutId(a[1..], id)
  {
    assert (a + b)[1..] == a[1..] + b;
    assert (a + b)[0] == a[0];
  }

  /** Filtering distributes over concatenation: the survivors keep their order. */
  lemma {:induction false} WithoutIdAppend(a: seq<Record>, b: seq<Record>, id: Value)
    ensures WithoutId(a + b, id) == WithoutId(a, id) + WithoutId(b, id)
  {
    if a == [] {
      assert a + b == b;
    } else {
      WithoutIdAppend(a[1..], b, id);
      WithoutIdConsAppend(a, b, id);
      assert Kept(a[0], id) + (WithoutId(a[1..], id) + WithoutId(b, id))
          == (Kept(a[0], id) + WithoutId(a[1..], id)) + WithoutId(b, id);
    }
  }

  /** Filtering an id that no entry has changes nothing. */
  lemma {:induction false} WithoutAbsentId(rs: seq<Record>, id: Value)
    requires forall j :: 0 <= j < |rs| ==> IdOf(rs[j]) != id
    ensures WithoutId(rs, id) == rs
  {
    if rs != [] {
      WithoutAbsentId(rs[1..], id);
      assert [rs[0]] + rs[1..] == rs;
    }
  }

  /** After filtering, no entry carries the removed id. */
  lemma WithoutIdHasNoId(rs: seq<Record>, id: Value)
    ensures forall j :: 0 <= j < |WithoutId(rs, id)| ==> IdOf(WithoutId(rs, id)[j]) != id
  {
    var r := WithoutId(rs, id);
    WithoutIdCounts(rs, id);
    forall j | 0 <= j < |r| ensures IdOf(r[j]) != id {
      assert multiset(r)[r[j]] > 0;
    }
  }

  /** The filter keeps only records of the input. */
  lemma WithoutIdKeepsOnlyInputs(rs: seq<Record>, id: Value, x: Record)
    requires x in WithoutId(rs, id)
    ensures x in rs
  {
    WithoutIdCounts(rs, id);
    assert multiset(WithoutId(rs, id))[x] > 0;
  }

  /** A record whose id no later record has can be put in front. */
  lemma ConsKeepsUniqueIds(x: Record, rs: seq<Record>)
    requires UniqueIds(rs) && forall j :: 0 <= j < |rs| ==> IdOf(rs[j]) != IdOf(x)
    ensures UniqueIds([x] + rs)
  {
    var r := [x] + rs;
    forall i, j | 0 <= i < j < |r| ensures IdOf(r[i]) != IdOf(r[j]) {
      assert r[j] == rs[j - 1];
      if i > 0 {
        assert r[i] == rs[i - 1];
      }
    }
  }

  /** Filtering preserves the invariant "ids are unique". */
  lemma {:induction false} WithoutIdKeepsUniqueIds(rs: seq<Record>, id: Value)
    requires UniqueIds(rs)
    ensures UniqueIds(WithoutId(rs, id))
  {
    if rs != [] {
      var tail := WithoutId(rs[1..], id);
      WithoutIdKeepsUniqueIds(rs[1..], id);
      if IdOf(rs[0]) != id {
        forall j | 0 <= j < |tail| ensures IdOf(tail[j]) != IdOf(rs[0]) {
          WithoutIdKeepsOnlyInputs(rs[1..], id, tail[j]);
          var m :| 0 <= m < |rs[1..]| && rs[1..][m] == tail[j];
          assert rs[1 + m] == tail[j];
        }
        ConsKeepsUniqueIds(rs[0], tail);
      }
    }
  }

  /** `rs.map(r => r.id === id ? { ...r, [key]: v } : r)`. */
  function SetFieldWhereId(rs: seq<Record>, id: Value, key: string, v: Value): (r: seq<Record>)
    ensures |r| == |rs|
    ensures forall i :: 0 <= i < |rs| ==> r[i] == if IdOf(rs[i]) == id then rs[i][key := v] else rs[i]
  {
    if rs == [] then []
    else [if IdOf(rs[0]) == id then rs[0][key := v] else rs[0]] + SetFieldWhereId(rs[1..], id, key, v)
  }

  /** Setting a field other than `id` keeps every entry's id, so unique ids stay unique. */
  lemma SetFieldKeepsIds(rs: seq<Record>, id: Value, key: string, v: Value)
    requires key != "id"
    ensures IdsOf(SetFieldWhereId(rs, id, key, v)) == IdsOf(rs)
    ensures UniqueIds(rs) ==> UniqueIds(SetFieldWhereId(rs, id, key, v))
  {
    var r := SetFieldWhereId(rs, id, key, v);
    assert forall i :: 0 <= i < |rs| ==> IdOf(r[i]) == IdOf(rs[i]);
  }

  /** Applying the same field update twice is the same as applying it once. */
  lemma SetFieldIdempotent(rs: seq<Record>, id: Value, key: string, v: Value)
    requires key != "id"
    ensures SetFieldWhereId(SetFieldWhereId(rs, id, key, v), id, key, v) == SetFieldWhereId(rs, id, key, v)
  {
    var once := SetFieldWhereId(rs, id, key, v);
    var twice := SetFieldWhereId(once, id, key, v);
    forall i | 0 <= i < |rs| ensures twice[i] == once[i] {
      assert IdOf(once[i]) == IdOf(rs[i]);
      if IdOf(rs[i]) == id {
        assert once[i] == rs[i][key := v];
        assert once[i][key := v] == once[i];
      }
    }
  }

  /** `rs.map(r => r.id === id ? data : r)`. */
  function ReplaceWhereId(rs: seq<Record>, id: Value, data: Record): (r: seq<Record>)
    ensures |r| == |rs|
    ensures forall i :: 0 <= i < |rs| ==> r[i] == if IdOf(rs[i]) == id then data else rs[i]
  {
    if rs == [] then []
    else [if IdOf(rs[0]) == id then data else rs[0]] + ReplaceWhereId(rs[1..], id, data)
  }

  /** When the replacement row keeps the id it replaces, every entry keeps its
      id, unique ids stay unique, and every other entry is untouched. */
  lemma ReplaceKeepsIds(rs: seq<Record>, id: Value, data: Record)
    requires IdOf(data) == id
    ensures IdsOf(ReplaceWhereId(rs, id, data)) == IdsOf(rs)
    ensures UniqueIds(rs) ==> UniqueIds(ReplaceWhereId(rs, id, data))
  {
    var r := ReplaceWhereId(rs, id, data);
    assert forall i :: 0 <= i < |rs| ==> IdOf(r[i]) == IdOf(rs[i]);
  }

  /** The row a client sends to the backend: `{ user_id, ...data }`; a
      `user_id` already present in `data` wins over the signed-in user's id. */
  function WithUserId(userId: Value, data: Record): (row: Record)
    ensures row.Keys == data.Keys + {"user_id"}
    ensures forall k :: k in data ==> row[k] == data[k]
    ensures "user_id" !in data ==> row["user_id"] == userId
  {
    map["user_id" := userId] + data
  }
}
