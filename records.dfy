/**
 * What the two in-memory stores have in common: records keyed by a numeric `Id`, the
 * `findIndex`/`find` lookup by Id, the `max(Id) + 1` rule for new Ids and the
 * `{ ...record, ...changes, Id: id }` merge of an update.
 */
module Records {
  import opened JsValues

  /** The properties of a record other than `Id`. */
  type Props = m: map<string, Value> | "Id" !in m witness map[]

  /** A stored object: its numeric `Id` and its other properties. */
  datatype Record = Record(id: int, props: Props)

  /** `s.findIndex(item => item.Id === id)`: the first position holding `id`, or -1. */
  function IndexOfId(s: seq<Record>, id: int): (i: int)
    ensures -1 <= i < |s|
    ensures 0 <= i ==> s[i].id == id
    ensures forall j :: 0 <= j < |s| && (i < 0 || j < i) ==> s[j].id != id
  {
    if s == [] then -1
    else if s[0].id == id then 0
    else
      var j := IndexOfId(s[1..], id);
      if j < 0 then -1 else j + 1
  }

  /** Some record carries `id`. */
  predicate HasId(s: seq<Record>, id: int) {
    exists j :: 0 <= j < |s| && s[j].id == id
  }

  lemma IndexOfIdFound(s: seq<Record>, id: int)
    ensures IndexOfId(s, id) >= 0 <==> HasId(s, id)
  {
  }

  /** `Math.max(...s.map(r => r.Id))` on a non-empty store. */
  function MaxId(s: seq<Record>): (m: int)
    requires s != []
    ensures exists j :: 0 <= j < |s| && s[j].id == m
    ensures forall j :: 0 <= j < |s| ==> s[j].id <= m
  {
    if |s| == 1 then s[0].id
    else
      var rest := MaxId(s[1..]);
      assert forall j :: 1 <= j < |s| ==> s[j] == s[1..][j - 1];
      if s[0].id >= rest then s[0].id else rest
  }

  /** A JavaScript number as far as `Math.max(...ids) + 1` can produce one. */
  datatype JsNumber = NegInfinity | Finite(n: int)

  /**
   * The new Id exactly as the source computes it: `Math.max()` of no arguments is
   * `-Infinity`, and `-Infinity + 1` is still `-Infinity`.
   */
  function MaxIdPlusOneAsWritten(s: seq<Record>): (r: JsNumber)
    ensures s == [] <==> r.NegInfinity?
  {
    if s == [] then NegInfinity else Finite(MaxId(s) + 1)
  }

  /**
   * On an empty store the source's new Id is `-Infinity`, which is not an integer: no Id a
   * caller passes to a lookup can ever equal it.
   */
  lemma EmptyStoreIdAsWrittenIsNoInteger(id: int)
    ensures MaxIdPlusOneAsWritten([]) != Finite(id)
  {
  }

  /**
   * The Id given to a new record: one more than the largest Id in the store, and 1 for an
   * empty store (where the source yields `-Infinity`).
   */
  function NextId(s: seq<Record>): (r: int)
    ensures forall j :: 0 <= j < |s| ==> s[j].id < r
    ensures s != [] ==> HasId(s, r - 1)
    ensures s == [] ==> r == 1
  {
    if s == [] then 1 else MaxId(s) + 1
  }

  /** On every non-empty store the corrected Id is the one the source computes. */
  lemma NextIdAgreesOnNonEmptyStore(s: seq<Record>)
    requires s != []
    ensures MaxIdPlusOneAsWritten(s) == Finite(NextId(s))
  {
  }

  /** No two records share an Id. */
  predicate UniqueIds(s: seq<Record>) {
    forall i, j :: 0 <= i < j < |s| ==> s[i].id != s[j].id
  }

  /** With unique Ids, the record holding `id` sits exactly at `IndexOfId`. */
  lemma UniqueIdsIndex(s: seq<Record>, id: int, k: int)
    requires UniqueIds(s) && 0 <= k < |s| && s[k].id == id
    ensures IndexOfId(s, id) == k
  {
  }

  /** `{ ...r, ...changes, Id: id }`: the changes override, the rest of `r` is copied, and `Id` is forced. */
  function Merge(r: Record, changes: Props, id: int): (m: Record)
    ensures m.id == id
    ensures m.props.Keys == r.props.Keys + changes.Keys
    ensures forall k :: k in changes ==> m.props[k] == changes[k]
    ensures forall k :: k in r.props && k !in changes ==> m.props[k] == r.props[k]
  {
    Record(id, r.props + changes)
  }

  /** Two stores whose records carry the same Ids, position by position, find an Id at the same place. */
  lemma SameIdsSameIndex(s: seq<Record>, t: seq<Record>, id: int)
    requires |s| == |t| && forall j :: 0 <= j < |s| ==> s[j].id == t[j].id
    ensures IndexOfId(s, id) == IndexOfId(t, id)
  {
  }

  /**
   * The store after an update: the first record with the Id merged with the changes, or the
   * store as it was when no record has the Id. Every position keeps its Id.
   */
  function UpdateStore(s: seq<Record>, id: int, changes: Props): (t: seq<Record>)
    ensures |t| == |s|
    ensures forall j :: 0 <= j < |t| ==> t[j].id == s[j].id
    ensures !HasId(s, id) ==> t == s
    ensures HasId(s, id) ==> t[IndexOfId(s, id)] == Merge(s[IndexOfId(s, id)], changes, id)
    ensures forall j :: 0 <= j < |t| && j != IndexOfId(s, id) ==> t[j] == s[j]
  {
    IndexOfIdFound(s, id);
    var i := IndexOfId(s, id);
    if i < 0 then s else s[i := Merge(s[i], changes, id)]
  }

  /** An update without changes leaves the store as it was. */
  lemma UpdateNothingKeepsStore(s: seq<Record>, id: int)
    ensures UpdateStore(s, id, map[]) == s
  {
    var i := IndexOfId(s, id);
    if i >= 0 {
      assert s[i].props + map[] == s[i].props;
    }
  }

  /** Sending the same update twice leaves the store as sending it once. */
  lemma UpdateTwiceIsOnce(s: seq<Record>, id: int, changes: Props)
    ensures UpdateStore(UpdateStore(s, id, changes), id, changes) == UpdateStore(s, id, changes)
  {
    var once := UpdateStore(s, id, changes);
    SameIdsSameIndex(s, once, id);
    var i := IndexOfId(s, id);
    if i >= 0 {
      assert once[i].props + changes == once[i].props;
    }
  }

  /** `s.splice(i, 1)`: the store without position `i`, the others in their order. */
  function RemoveAt(s: seq<Record>, i: int): (t: seq<Record>)
    requires 0 <= i < |s|
    ensures |t| == |s| - 1
    ensures forall j :: 0 <= j < i ==> t[j] == s[j]
    ensures forall j :: i <= j < |t| ==> t[j] == s[j + 1]
    ensures multiset(t) + multiset{s[i]} == multiset(s)
  {
    assert s == s[..i] + [s[i]] + s[i + 1..];
    s[..i] + s[i + 1..]
  }

  /** A fresh Id put in front keeps the Ids unique. */
  lemma PrependKeepsUnique(s: seq<Record>, r: Record)
    requires UniqueIds(s)
    requires forall j :: 0 <= j < |s| ==> s[j].id < r.id
    ensures UniqueIds([r] + s)
  {
    var t := [r] + s;
    forall i, j | 0 <= i < j < |t| ensures t[i].id != t[j].id {
      assert t[j] == s[j - 1];
      if i > 0 {
        assert t[i] == s[i - 1];
      }
    }
  }

  /** A record whose Id is absent from the store, put at the end, keeps the Ids unique. */
  lemma AppendKeepsUnique(s: seq<Record>, r: Record)
    requires UniqueIds(s)
    requires !HasId(s, r.id)
    ensures UniqueIds(s + [r])
  {
  }

  /** Replacing a record by one with the same Id keeps the Ids unique. */
  lemma ReplaceKeepsUnique(s: seq<Record>, i: int, r: Record)
    requires UniqueIds(s) && 0 <= i < |s| && r.id == s[i].id
    ensures UniqueIds(s[i := r])
  {
  }

  /** Removing a record keeps the Ids unique. */
  lemma RemoveKeepsUnique(s: seq<Record>, i: int)
    requires UniqueIds(s) && 0 <= i < |s|
    ensures UniqueIds(RemoveAt(s, i))
  {
    var t := RemoveAt(s, i);
    forall a, b | 0 <= a < b < |t| ensures t[a].id != t[b].id {
      var a' := if a < i then a else a + 1;
      var b' := if b < i then b else b + 1;
      assert t[a] == s[a'] && t[b] == s[b'];
    }
  }
}
