/**
 * The style-preset service: an in-memory list of presets with lookup, create, update and
 * delete by numeric `Id`. Every operation returns a copy; the list itself is changed in place.
 */
module StylePresetService {
  import opened Wrappers
  import opened JsValues
  import opened Text
  import opened Records

  /** What `create` is given: the preset's properties and, possibly, an `Id` of its own. */
  datatype PresetData = PresetData(id: Option<int>, props: Props)

  /** The one error the service throws. */
  datatype PresetError = NotFound(id: int)

  /** The message names the service's entity and carries the Id that was asked for. */
  function ErrorMessage(e: PresetError): (msg: string)
    ensures StartsWith(msg, "Style preset with id ")
    ensures Contains(msg, IntToString(e.id))
  {
    var prefix, id := "Style preset with id ", IntToString(e.id);
    var msg := prefix + id + " not found";
    assert msg[|prefix|..|prefix| + |id|] == id;
    ContainsAt(msg, id, |prefix|);
    msg
  }

  /**
   * `{ Id: max + 1, ...presetData }`: the data is spread after the generated `Id`, so an `Id`
   * in the data replaces it.
   */
  function NewPreset(s: seq<Record>, data: PresetData): (r: Record)
    ensures data.id.None? ==> r.id == NextId(s)
    ensures data.id.None? ==> forall j :: 0 <= j < |s| ==> s[j].id < r.id
    ensures data.id.Some? ==> r.id == data.id.value
    ensures r.props == data.props
  {
    Record(data.id.GetOr(NextId(s)), data.props)
  }

  /**
   * A new preset keeps the Ids unique exactly when the data brings no Id or one the list does
   * not hold yet.
   */
  lemma NewPresetKeepsUnique(s: seq<Record>, data: PresetData)
    requires UniqueIds(s)
    ensures UniqueIds(s + [NewPreset(s, data)]) <==> data.id.None? || !HasId(s, data.id.value)
  {
    var r := NewPreset(s, data);
    var t := s + [r];
    if data.id.None? || !HasId(s, r.id) {
      AppendKeepsUnique(s, r);
    } else {
      var j :| 0 <= j < |s| && s[j].id == r.id;
      assert t[j].id == t[|s|].id;
    }
  }

  /** The module-level `stylePresetData` array, in insertion order. */
  class StylePresetStore {
    var presets: seq<Record>

    /** The store as loaded from the fixture. */
    constructor (initial: seq<Record>)
      ensures presets == initial
    {
      presets := initial;
    }

    /** `getAll`: a copy of every preset. */
    method GetAll() returns (all: seq<Record>)
      ensures all == presets
    {
      all := presets;
    }

    /** `getById`: the first preset with that Id, or "not found". */
    method GetById(id: int) returns (r: Result<Record, PresetError>)
      ensures r.Success? <==> HasId(presets, id)
      ensures r.Success? ==> r.value.id == id && r.value == presets[IndexOfId(presets, id)]
      ensures r.Failure? ==> r.error == NotFound(id)
    {
      var i := IndexOfId(presets, id);
      if i < 0 {
        r := Failure(NotFound(id));
      } else {
        r := Success(presets[i]);
      }
    }

    /** `create`: appends the new preset and returns it. */
    method Create(data: PresetData) returns (r: Record)
      modifies this
      ensures r == NewPreset(old(presets), data)
      ensures presets == old(presets) + [r]
      ensures UniqueIds(old(presets)) ==>
        (UniqueIds(presets) <==> data.id.None? || !HasId(old(presets), data.id.value))
    {
      r := NewPreset(presets, data);
      if UniqueIds(presets) {
        NewPresetKeepsUnique(presets, data);
      }
      presets := presets + [r];
    }

    /**
     * `update`: merges the changes into the first preset with that Id, in place, keeping its
     * Id; "not found" leaves the list as it was.
     */
    method Update(id: int, changes: Props) returns (r: Result<Record, PresetError>)
      modifies this
      ensures var i := IndexOfId(old(presets), id);
        if i < 0 then r == Failure(NotFound(id)) && presets == old(presets)
        else presets == old(presets)[i := Merge(old(presets)[i], changes, id)] && r == Success(presets[i])
      ensures presets == UpdateStore(old(presets), id, changes)
      ensures |presets| == |old(presets)|
      ensures forall j :: 0 <= j < |presets| ==> presets[j].id == old(presets)[j].id
      ensures UniqueIds(old(presets)) ==> UniqueIds(presets)
    {
      var i := IndexOfId(presets, id);
      if i < 0 {
        r := Failure(NotFound(id));
      } else {
        var updated := Merge(presets[i], changes, id);
        if UniqueIds(presets) {
          ReplaceKeepsUnique(presets, i, updated);
        }
        presets := presets[i := updated];
        r := Success(updated);
      }
    }

    /**
     * `delete`: removes the first preset with that Id and returns it; the others keep their
     * order. "Not found" leaves the list as it was.
     */
    method Delete(id: int) returns (r: Result<Record, PresetError>)
      modifies this
      ensures var i := IndexOfId(old(presets), id);
        if i < 0 then r == Failure(NotFound(id)) && presets == old(presets)
        else r == Success(old(presets)[i]) && presets == RemoveAt(old(presets), i)
      ensures r.Success? ==> r.value.id == id && multiset(presets) + multiset{r.value} == multiset(old(presets))
      ensures UniqueIds(old(presets)) ==> UniqueIds(presets)
    {
      var s := presets;
      var i := IndexOfId(s, id);
      if i < 0 {
        r := Failure(NotFound(id));
      } else {
        var rest := RemoveAt(s, i);
        if UniqueIds(s) {
          RemoveKeepsUnique(s, i);
        }
        r := Success(s[i]);
        presets := rest;
      }
    }
  }

  /** After a create without an Id, the new preset is found again by its Id. */
  lemma CreatedPresetIsFound(s: seq<Record>, props: Props)
    requires UniqueIds(s)
    ensures var r := NewPreset(s, PresetData(None, props));
      IndexOfId(s + [r], r.id) == |s| && (s + [r])[|s|] == r
  {
    var r := NewPreset(s, PresetData(None, props));
    NewPresetKeepsUnique(s, PresetData(None, props));
    UniqueIdsIndex(s + [r], r.id, |s|);
  }

  /** After a delete of a present Id, with unique Ids, that Id is gone from the list. */
  lemma DeletedIdIsGone(s: seq<Record>, id: int)
    requires UniqueIds(s) && HasId(s, id)
    ensures !HasId(RemoveAt(s, IndexOfId(s, id)), id)
  {
    var i := IndexOfId(s, id);
    IndexOfIdFound(s, id);
    var t := RemoveAt(s, i);
    forall j | 0 <= j < |t| ensures t[j].id != id {
      if j < i {
        assert t[j] == s[j];
      } else {
        assert t[j] == s[j + 1];
      }
    }
  }
}
