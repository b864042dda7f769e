/** Journal events applied over a base index (delta.rs). */
module DeltaState {
  import opened Records
  import opened Ascii
  import opened Bitsets

  type Frn = nat

  datatype ParentRef = AtBase(index: nat) | AtDelta(index: nat) | Rootless

  datatype Meta = Meta(isDir: bool, mtimeSecs: nat, sizeBytes: nat, sizeExact: bool)

  datatype DeltaRecord = DeltaRecord(name: Name, parent: ParentRef, meta: Meta, live: bool)

  datatype Event =
    | Created(frn: Frn, parentFrn: Frn, name: Name, isDir: bool, mtimeSecs: nat)
    | Deleted(frn: Frn)
    | Renamed(frn: Frn, parentFrn: Frn, name: Name)
    | Modified

  datatype Outcome = Applied | NeedsFullReindex

  /** What the delta reads of the base: its FRN map, if it has one, and its metadata columns. */
  datatype BaseStore = BaseStore(records: nat, frns: Option<map<Frn, nat>>, meta: seq<Meta>)

  /** The FRN map names records of the base, each at most once. */
  ghost predicate IsStore(base: BaseStore) {
    && |base.meta| == base.records
    && (base.frns.Some? ==> forall f :: f in base.frns.value ==> base.frns.value[f] < base.records)
    && (base.frns.Some? ==> forall f, g ::
          f in base.frns.value && g in base.frns.value && base.frns.value[f] == base.frns.value[g] ==> f == g)
  }

  function Lookup(base: BaseStore, frn: Frn): (r: Option<nat>)
    ensures IsStore(base) && r.Some? ==> r.value < base.records
  {
    if base.frns.Some? && frn in base.frns.value then Some(base.frns.value[frn]) else None
  }

  // ---- the state and its invariant ---------------------------------------------------

  /** The FRNs an addition was created under: its own and its parent's. */
  datatype Identity = Identity(frn: Frn, parentFrn: Frn)

  datatype State = State(tombs: set<nat>, added: seq<DeltaRecord>, frns: map<Frn, nat>, ids: seq<Identity>)

  function Start(): State {
    State({}, [], map[], [])
  }

  /** A parent reference names the record its FRN stood for: a base record, or a strictly earlier addition. */
  ghost predicate ParentNames(s: State, base: BaseStore, i: nat)
    requires i < |s.added| == |s.ids|
  {
    match s.added[i].parent
    case AtBase(p) => Lookup(base, s.ids[i].parentFrn) == Some(p)
    case AtDelta(p) => p < i && s.ids[p].frn == s.ids[i].parentFrn
    case Rootless => false
  }

  /** The map holds exactly the live additions, under their own FRNs. */
  ghost predicate MapIsLive(s: State)
    requires |s.added| == |s.ids|
  {
    && (forall f :: f in s.frns ==> s.frns[f] < |s.added| && s.added[s.frns[f]].live && s.ids[s.frns[f]].frn == f)
    && (forall i :: 0 <= i < |s.added| && s.added[i].live ==> s.ids[i].frn in s.frns && s.frns[s.ids[i].frn] == i)
  }

  /** An FRN with a live addition is not live in the base as well. */
  ghost predicate OnePlace(s: State, base: BaseStore) {
    forall f :: f in s.frns && Lookup(base, f).Some? ==> Lookup(base, f).value in s.tombs
  }

  ghost predicate Inv(s: State, base: BaseStore) {
    && |s.added| == |s.ids|
    && (forall t :: t in s.tombs ==> t < base.records)
    && MapIsLive(s)
    && OnePlace(s, base)
    && forall i :: 0 <= i < |s.added| ==> ParentNames(s, base, i)
  }

  // ---- the transitions ---------------------------------------------------------------

  function LiveAddition(s: State, frn: Frn): bool {
    frn in s.frns && s.frns[frn] < |s.added| && s.added[s.frns[frn]].live
  }

  function ResolveParent(s: State, base: BaseStore, frn: Frn): Option<ParentRef> {
    if frn in s.frns then
      if LiveAddition(s, frn) then Some(AtDelta(s.frns[frn])) else None
    else if Lookup(base, frn).Some? then Some(AtBase(Lookup(base, frn).value))
    else None
  }

  function MetadataOf(s: State, base: BaseStore, frn: Frn): Option<Meta>
    requires IsStore(base)
  {
    if frn in s.frns then
      if LiveAddition(s, frn) then Some(s.added[s.frns[frn]].meta) else None
    else if Lookup(base, frn).Some? then Some(base.meta[Lookup(base, frn).value])
    else None
  }

  /** Live already, in the delta or in the base: a creation that repeats does nothing. */
  function IsLive(s: State, base: BaseStore, frn: Frn): bool {
    LiveAddition(s, frn) || (Lookup(base, frn).Some? && Lookup(base, frn).value !in s.tombs)
  }

  function Create(s: State, base: BaseStore, frn: Frn, parentFrn: Frn, name: Name, meta: Meta): (State, Outcome) {
    if IsLive(s, base, frn) then (s, Applied)
    else
      var parent := ResolveParent(s, base, parentFrn);
      if parent.None? then (s, NeedsFullReindex)
      else
        (State(s.tombs, s.added + [DeltaRecord(name, parent.value, meta, true)], s.frns[frn := |s.added|],
               s.ids + [Identity(frn, parentFrn)]), Applied)
  }

  function Delete(s: State, base: BaseStore, frn: Frn): State {
    if frn in s.frns then
      var i := s.frns[frn];
      State(s.tombs, if i < |s.added| then s.added[i := s.added[i].(live := false)] else s.added, s.frns - {frn}, s.ids)
    else if Lookup(base, frn).Some? then s.(tombs := s.tombs + {Lookup(base, frn).value})
    else s
  }

  /** A rename that has already been applied: same parent and name. */
  function RenameDone(s: State, base: BaseStore, frn: Frn, parentFrn: Frn, name: Name): bool {
    frn in s.frns && LiveAddition(s, frn) &&
    ResolveParent(s, base, parentFrn) == Some(s.added[s.frns[frn]].parent) && s.added[s.frns[frn]].name == name
  }

  function Apply(s: State, base: BaseStore, e: Event): (State, Outcome)
    requires IsStore(base)
  {
    if base.frns.None? then (s, if e.Modified? then Applied else NeedsFullReindex)
    else
      match e
      case Created(frn, parentFrn, name, isDir, mtimeSecs) => Create(s, base, frn, parentFrn, name, Meta(isDir, mtimeSecs, 0, false))
      case Deleted(frn) => (Delete(s, base, frn), Applied)
      case Renamed(frn, parentFrn, name) =>
        if RenameDone(s, base, frn, parentFrn, name) then (s, Applied)
        else
          var meta := MetadataOf(s, base, frn);
          if meta.None? then (s, NeedsFullReindex)
          else Create(Delete(s, base, frn), base, frn, parentFrn, name, meta.value)
      case Modified => (s, Applied)
  }

  // ---- the invariant is kept ---------------------------------------------------------

  lemma StartsInv(base: BaseStore)
    ensures Inv(Start(), base)
  {
  }

  lemma CreateKeeps(s: State, base: BaseStore, frn: Frn, parentFrn: Frn, name: Name, meta: Meta)
    requires IsStore(base) && Inv(s, base)
    ensures Inv(Create(s, base, frn, parentFrn, name, meta).0, base)
  {
    var next := Create(s, base, frn, parentFrn, name, meta).0;
    if next != s {
      forall i | 0 <= i < |next.added| ensures ParentNames(next, base, i) {
        if i < |s.added| {
          assert ParentNames(s, base, i);
        }
      }
    }
  }

  lemma DeleteKeeps(s: State, base: BaseStore, frn: Frn)
    requires IsStore(base) && Inv(s, base)
    ensures Inv(Delete(s, base, frn), base)
  {
    var next := Delete(s, base, frn);
    forall i | 0 <= i < |next.added| ensures ParentNames(next, base, i) {
      assert ParentNames(s, base, i);
    }
  }

  /** Every reachable delta has each FRN live in one place and parents that come first. */
  lemma TheoremApplyKeepsInv(s: State, base: BaseStore, e: Event)
    requires IsStore(base) && Inv(s, base)
    ensures Inv(Apply(s, base, e).0, base)
  {
    hide Inv, ParentNames, MapIsLive, OnePlace;
    match e {
      case Created(frn, parentFrn, name, isDir, mtimeSecs) =>
        CreateKeeps(s, base, frn, parentFrn, name, Meta(isDir, mtimeSecs, 0, false));
      case Deleted(frn) =>
        DeleteKeeps(s, base, frn);
      case Renamed(frn, parentFrn, name) =>
        DeleteKeeps(s, base, frn);
        var meta := MetadataOf(s, base, frn);
        if meta.Some? {
          CreateKeeps(Delete(s, base, frn), base, frn, parentFrn, name, meta.value);
        }
      case Modified =>
    }
  }

  lemma InvMap(s: State, base: BaseStore)
    requires Inv(s, base)
    ensures |s.added| == |s.ids| && forall f :: f in s.frns ==> s.frns[f] < |s.added| && s.added[s.frns[f]].live
  {
  }

  lemma InWords(index: nat, records: nat)
    requires index < records
    ensures index < 8 * (WORD_BYTES * WordsFor(records))
  {
  }
}
