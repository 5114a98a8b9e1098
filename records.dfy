/**
 * Values shared by both storage tiers: the records every collection holds,
 * the key-uniqueness rule of an object store declared with keyPath "id",
 * and the two ways an asynchronous call can settle.
 */
module Records {

  datatype Option<T> = None | Some(value: T)

  /** A stored record. `id` is the primary key; `body` stands for every other field. */
  datatype Record = Record(id: string, body: string)

  /** How a promise returned by the service settles. */
  datatype Outcome<T> = Resolved(value: T) | Rejected

  /** How a synchronous call ends: with a value, or by throwing. */
  datatype Sync<T> = Returns(value: T) | Throws

  /** No two records share a primary key. */
  predicate DistinctIds(rs: seq<Record>)
  {
    forall i, j :: 0 <= i < j < |rs| ==> rs[i].id != rs[j].id
  }

  /** Some record has primary key `id`. */
  predicate HasId(rs: seq<Record>, id: string)
  {
    exists i :: 0 <= i < |rs| && rs[i].id == id
  }

  /** The set of primary keys used in `rs`. */
  function Ids(rs: seq<Record>): (ids: set<string>)
    ensures forall i :: 0 <= i < |rs| ==> rs[i].id in ids
    ensures forall id :: id in ids ==> HasId(rs, id)
  {
    set i | 0 <= i < |rs| :: rs[i].id
  }

  /** store.get(id): the record with primary key `id`, if any. */
  function Find(rs: seq<Record>, id: string): (r: Option<Record>)
    ensures r.Some? <==> HasId(rs, id)
    ensures r.Some? ==> r.value.id == id && r.value in rs
  {
    if rs == [] then None
    else if rs[0].id == id then Some(rs[0])
    else
      var r := Find(rs[1..], id);
      assert r.Some? <==> HasId(rs[1..], id);
      assert HasId(rs, id) ==> rs[0].id == id || HasId(rs[1..], id) by {
        if HasId(rs, id) {
          var i :| 0 <= i < |rs| && rs[i].id == id;
          if i > 0 { assert rs[1..][i - 1].id == id; }
        }
      }
      r
  }

  /** Appending a record whose key is new keeps the keys distinct. */
  lemma AppendFreshId(rs: seq<Record>, r: Record)
    requires DistinctIds(rs) && !HasId(rs, r.id)
    ensures DistinctIds(rs + [r])
  {
  }
}
