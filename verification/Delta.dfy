/** The delta object: tombstones, additions and their FRNs, changed in place by each event (delta.rs). */
module Deltas {
  import opened Records
  import opened Ascii
  import opened Bitsets
  import opened DeltaState

  class Delta {
    const tombstones: Bitset
    var added: seq<DeltaRecord>
    var addedFrns: map<Frn, nat>
    ghost var ids: seq<Identity>

    ghost function View(): State
      reads this, tombstones.bytes
    {
      State(tombstones.Contents(), added, addedFrns, ids)
    }

    ghost predicate Valid(base: BaseStore)
      reads this, tombstones, tombstones.bytes
    {
      && tombstones.Valid() && IsStore(base)
      && tombstones.bytes.Length == WORD_BYTES * WordsFor(base.records)
      && Inv(View(), base)
    }

    constructor (ghost base: BaseStore, baseRecords: nat)
      requires IsStore(base) && baseRecords == base.records
      ensures Valid(base) && View() == Start()
      ensures fresh(tombstones) && fresh(tombstones.bytes)
    {
      tombstones := new Bitset(baseRecords);
      added, addedFrns, ids := [], map[], [];
      new;
      StartsInv(base);
    }

    method Apply(e: Event, base: BaseStore) returns (outcome: Outcome)
      requires Valid(base)
      modifies this, tombstones, tombstones.bytes
      ensures Valid(base)
      ensures (View(), outcome) == DeltaState.Apply(old(View()), base, e)
    {
      TheoremApplyKeepsInv(View(), base, e);
      if base.frns.None? {
        return if e.Modified? then Applied else NeedsFullReindex;
      }
      hide DeltaState.Create, DeltaState.Delete, DeltaState.Inv, DeltaState.MetadataOf, DeltaState.ResolveParent;
      match e {
        case Created(frn, parentFrn, name, isDir, mtimeSecs) =>
          outcome := Create(frn, parentFrn, name, Meta(isDir, mtimeSecs, 0, false), base);
        case Deleted(frn) =>
          Delete(frn, base);
          outcome := Applied;
        case Renamed(frn, parentFrn, name) =>
          outcome := Rename(frn, parentFrn, name, base);
        case Modified =>
          outcome := Applied;
      }
    }

    method Rename(frn: Frn, parentFrn: Frn, name: Name, base: BaseStore) returns (outcome: Outcome)
      requires Valid(base) && base.frns.Some?
      modifies this, tombstones, tombstones.bytes
      ensures Valid(base)
      ensures (View(), outcome) == DeltaState.Apply(old(View()), base, Renamed(frn, parentFrn, name))
    {
      InvMap(View(), base);
      if frn in addedFrns {
        var parent := ResolveParent(parentFrn, base);
        if parent.Some? {
          var record := added[addedFrns[frn]];
          if record.live && record.parent == parent.value && record.name == name {
            return Applied;
          }
        }
      }
      hide DeltaState.Create, DeltaState.Delete, DeltaState.Inv, DeltaState.ResolveParent;
      var meta := Metadata(frn, base);
      if meta.None? {
        return NeedsFullReindex;
      }
      hide DeltaState.MetadataOf;
      Delete(frn, base);
      outcome := Create(frn, parentFrn, name, meta.value, base);
    }

    method ResolveParent(frn: Frn, base: BaseStore) returns (parent: Option<ParentRef>)
      requires Valid(base)
      ensures parent == DeltaState.ResolveParent(View(), base, frn)
    {
      InvMap(View(), base);
      if frn in addedFrns {
        var index := addedFrns[frn];
        return if added[index].live then Some(AtDelta(index)) else None;
      }
      var found := Lookup(base, frn);
      return if found.Some? then Some(AtBase(found.value)) else None;
    }

    method Metadata(frn: Frn, base: BaseStore) returns (meta: Option<Meta>)
      requires Valid(base)
      ensures meta == MetadataOf(View(), base, frn)
    {
      InvMap(View(), base);
      if frn in addedFrns {
        var record := added[addedFrns[frn]];
        return if record.live then Some(record.meta) else None;
      }
      var found := Lookup(base, frn);
      return if found.Some? then Some(base.meta[found.value]) else None;
    }

    method Create(frn: Frn, parentFrn: Frn, name: Name, meta: Meta, base: BaseStore) returns (outcome: Outcome)
      requires Valid(base)
      modifies this
      ensures Valid(base)
      ensures (View(), outcome) == DeltaState.Create(old(View()), base, frn, parentFrn, name, meta)
    {
      InvMap(View(), base);
      CreateKeeps(View(), base, frn, parentFrn, name, meta);
      hide DeltaState.Inv, DeltaState.ResolveParent;
      if frn in addedFrns && added[addedFrns[frn]].live {
        return Applied;
      }
      var found := Lookup(base, frn);
      if found.Some? {
        var tombstoned := tombstones.Get(found.value);
        if !tombstoned {
          return Applied;
        }
      }
      var parent := ResolveParent(parentFrn, base);
      if parent.None? {
        return NeedsFullReindex;
      }
      var index := |added|;
      added := added + [DeltaRecord(name, parent.value, meta, true)];
      addedFrns := addedFrns[frn := index];
      ids := ids + [Identity(frn, parentFrn)];
      return Applied;
    }

    method Delete(frn: Frn, base: BaseStore)
      requires Valid(base)
      modifies this, tombstones, tombstones.bytes
      ensures Valid(base)
      ensures View() == DeltaState.Delete(old(View()), base, frn)
    {
      InvMap(View(), base);
      DeleteKeeps(View(), base, frn);
      hide DeltaState.Inv;
      if frn in addedFrns {
        var index := addedFrns[frn];
        addedFrns := addedFrns - {frn};
        added := added[index := added[index].(live := false)];
        return;
      }
      var found := Lookup(base, frn);
      if found.Some? {
        InWords(found.value, base.records);
        var changed := tombstones.Set(found.value);
      }
    }
  }
}
