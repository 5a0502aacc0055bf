/** The hosted realtime database, as far as the chat screens use it: a tree
    location (a path) holds a sequence of children; `push` appends one child
    under a key the library generates; a subscription delivers the
    location's whole current content as a snapshot. The sequence is the push
    order, which is the order the database itself lists the children in (by
    key) as long as each generated key is greater than the keys before it. */
module Store {
  import opened Records

  type Tree = map<string, seq<Child>>

  /** The children at `path`, none if nothing was ever written there. */
  function EntriesAt(data: Tree, path: string): seq<Child> {
    if path in data then data[path] else []
  }

  function KeysOf(cs: seq<Child>): set<string> {
    set c | c in cs :: c.key
  }

  predicate UniqueKeys(cs: seq<Child>) {
    forall i, j :: 0 <= i < j < |cs| ==> cs[i].key != cs[j].key
  }

  /** A value the database takes: it holds no `undefined`. */
  predicate Storable(rec: Record) {
    forall f :: f in rec ==> !rec[f].Undefined?
  }

  /** The tree after a push of `rec` under `key` at `path`: exactly one child
      is added, at the end of that location, and no other location changes. */
  function Appended(data: Tree, path: string, key: string, rec: Record): (r: Tree)
    ensures r.Keys == data.Keys + {path}
    ensures EntriesAt(r, path) == EntriesAt(data, path) + [Child(key, rec)]
    ensures forall p :: p in data && p != path ==> r[p] == data[p]
  {
    data[path := EntriesAt(data, path) + [Child(key, rec)]]
  }

  /** The snapshot a subscription to `path` delivers: `null` when the location
      has no children, its children otherwise. */
  function SnapshotOf(data: Tree, path: string): (s: Snapshot)
    ensures s.Null? <==> EntriesAt(data, path) == []
    ensures s.Children? ==> s.entries == EntriesAt(data, path)
  {
    if EntriesAt(data, path) == [] then Null else Children(EntriesAt(data, path))
  }

  /** A pushed record reaches every subscriber of its location: the last item
      of the parsed snapshot is the record with the push key as its `id`, and
      the items before it are the ones that were there already. */
  lemma PushedRecordDelivered(data: Tree, path: string, key: string, rec: Record)
    requires "id" !in rec
    ensures var before := Parse(SnapshotOf(data, path));
            var after := Parse(SnapshotOf(Appended(data, path, key, rec), path));
            && after == before + [rec["id" := Str(key)]]
  {
    var es := EntriesAt(data, path);
    var before := Parse(SnapshotOf(data, path));
    var after := Parse(SnapshotOf(Appended(data, path, key, rec), path));
    assert |after| == |es| + 1;
    forall i | 0 <= i < |es| ensures after[i] == before[i] {
      assert (es + [Child(key, rec)])[i] == es[i];
    }
    assert Project(key, rec) == rec["id" := Str(key)];
  }

  /** The database client: the tree it writes to. */
  class Database {
    var data: Tree

    /** Every location's keys are distinct and every stored value is storable. */
    ghost predicate Valid()
      reads this
    {
      forall p :: p in data ==>
        UniqueKeys(data[p]) && forall i :: 0 <= i < |data[p]| ==> Storable(data[p][i].value)
    }

    constructor ()
      ensures Valid() && data == map[]
    {
      data := map[];
    }

    /** `push(ref(db, path), rec)` with the key the library generates, which is
        not yet used at `path`. A record holding `undefined` is refused: the
        call throws and nothing is written. */
    method Push(path: string, key: string, rec: Record) returns (ok: bool)
      requires Valid()
      requires key !in KeysOf(EntriesAt(data, path))
      modifies this
      ensures Valid()
      ensures ok == Storable(rec)
      ensures data == if ok then Appended(old(data), path, key, rec) else old(data)
    {
      ok := Storable(rec);
      if ok {
        var es := EntriesAt(data, path);
        assert forall i :: 0 <= i < |es| ==> es[i].key in KeysOf(es);
        data := Appended(data, path, key, rec);
        assert EntriesAt(data, path) == es + [Child(key, rec)];
      }
    }
  }
}
