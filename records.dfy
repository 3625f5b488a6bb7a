/**
 * Rows as the client state holds them: plain objects, merged with the
 * spread operator (`{ ...row, ...patch }`, later keys win), and the list
 * updates the stores and hooks perform keyed by `id`.
 */
module Records {

  import opened Wrappers
  import opened Js
  import opened Seqs

  type Record = map<string, Value>

  /** `row.id === id`. */
  predicate HasId(r: Record, id: Value) {
    Get(r, "id") == id
  }

  /** `{ ...r, ...patch }`: every key of both, the patch's values winning. */
  function Merge(r: Record, patch: Record): (m: Record)
    ensures m.Keys == r.Keys + patch.Keys
    ensures forall k :: k in patch ==> m[k] == patch[k]
    ensures forall k :: k in r && k !in patch ==> m[k] == r[k]
  {
    r + patch
  }

  /**
   * The properties `{ ...v }` copies from a value: an object's own fields,
   * nothing from null, undefined, booleans and numbers. (Strings and arrays
   * would contribute their indices; no spread in the core sees one.)
   */
  function Spread(v: Value): (r: Record)
    ensures v.Obj? ==> r == v.fields
    ensures !v.Obj? ==> r == map[]
  {
    if v.Obj? then v.fields else map[]
  }

  /** `{ ...v, role }`: the spread object with its `role` set. */
  function WithRole(v: Value, role: Value): (r: Record)
    ensures r.Keys == Spread(v).Keys + {"role"} && r["role"] == role
    ensures forall k :: k in Spread(v) && k != "role" ==> r[k] == Spread(v)[k]
  {
    Spread(v)["role" := role]
  }

  /**
   * `{ ...(body.f !== undefined && { f: body.f }), ... }` over the named
   * fields: each field the body defines, with its value, and no other key.
   */
  function Defined(body: Record, fields: set<string>): (r: Record)
    ensures forall f :: f in r <==> f in fields && Get(body, f) != Undefined
    ensures forall f :: f in r ==> f in body && r[f] == body[f]
  {
    map f | f in fields && f in body && body[f] != Undefined :: body[f]
  }

  /** `xs.map(x => x.id === id ? { ...x, ...patch } : x)`. */
  function UpdateById(xs: seq<Record>, id: Value, patch: Record): (ys: seq<Record>)
    ensures |ys| == |xs|
    ensures forall i :: 0 <= i < |xs| ==> ys[i] == if HasId(xs[i], id) then Merge(xs[i], patch) else xs[i]
  {
    if xs == [] then []
    else [if HasId(xs[0], id) then Merge(xs[0], patch) else xs[0]] + UpdateById(xs[1..], id, patch)
  }

  /** `xs.filter(x => x.id !== id)`. */
  function RemoveById(xs: seq<Record>, id: Value): seq<Record> {
    Filter(xs, x => !HasId(x, id))
  }

  /**
   * Removal keeps exactly the rows with another id, in their order, and
   * leaves none carrying `id`; removing again changes nothing.
   */
  lemma RemoveByIdSpec(xs: seq<Record>, id: Value)
    ensures forall y :: y in RemoveById(xs, id) <==> y in xs && !HasId(y, id)
    ensures RemoveById(RemoveById(xs, id), id) == RemoveById(xs, id)
    ensures forall a, b :: xs == a + b ==> RemoveById(xs, id) == RemoveById(a, id) + RemoveById(b, id)
    ensures (forall i :: 0 <= i < |xs| ==> !HasId(xs[i], id)) ==> RemoveById(xs, id) == xs
  {
    FilterIdempotent(xs, x => !HasId(x, id));
    forall a, b | xs == a + b ensures RemoveById(xs, id) == RemoveById(a, id) + RemoveById(b, id) {
      FilterDistributes(a, b, x => !HasId(x, id));
    }
    if forall i :: 0 <= i < |xs| ==> !HasId(xs[i], id) {
      FilterAllPass(xs, x => !HasId(x, id));
    }
  }

  /** An update keeps every field the patch does not name, and a row whose id is not `id` stays as it was. */
  lemma UpdateKeepsUntouched(xs: seq<Record>, id: Value, patch: Record)
    ensures forall i, k :: 0 <= i < |xs| && k in xs[i] && k !in patch ==> UpdateById(xs, id, patch)[i][k] == xs[i][k]
    ensures "id" !in patch ==> forall i :: 0 <= i < |xs| ==> (HasId(UpdateById(xs, id, patch)[i], id) <==> HasId(xs[i], id))
  {
  }

  /** `xs.find(x => x[key] === v)`: the first row whose field matches, if any. */
  function FindFirst(xs: seq<Record>, key: string, v: Value): (r: Option<Record>)
    ensures r.Some? ==> exists i :: 0 <= i < |xs| && xs[i] == r.value && Get(xs[i], key) == v &&
                                    forall j :: 0 <= j < i ==> Get(xs[j], key) != v
    ensures r.None? <==> forall i :: 0 <= i < |xs| ==> Get(xs[i], key) != v
  {
    if xs == [] then None
    else if Get(xs[0], key) == v then Some(xs[0])
    else
      var r := FindFirst(xs[1..], key, v);
      assert forall i :: 1 <= i < |xs| ==> xs[i] == xs[1..][i - 1];
      if r.Some? then
        assert exists i :: 1 <= i < |xs| && xs[i] == r.value && Get(xs[i], key) == v &&
                           forall j :: 0 <= j < i ==> Get(xs[j], key) != v by {
          var i :| 0 <= i < |xs[1..]| && xs[1..][i] == r.value && Get(xs[1..][i], key) == v &&
                   forall j :: 0 <= j < i ==> Get(xs[1..][j], key) != v;
          assert forall j :: 1 <= j < i + 1 ==> Get(xs[j], key) != v by {
            forall j | 1 <= j < i + 1 ensures Get(xs[j], key) != v { assert xs[j] == xs[1..][j - 1]; }
          }
        }
        r
      else r
  }
}
