/** Verifying a small seed set with a bounded, lossy memo (view/path_search.rs). */
module PathSeed {
  import opened Records
  import opened Ascii
  import opened Cancel
  import opened Intervals
  import opened Names
  import opened PathTerms
  import opened PathWorld
  import opened Query
  import opened TreeOrder

  const VERIFY_CANDIDATES: nat := 1024
  const VERIFY_STEPS: nat := 16384
  const MEMO_SLOTS: nat := 2048
  const VERIFY_DEPTH: nat := 512
  const VERIFY_NAME_BYTES: nat := 1024 * 1024

  // ---- term masks ----------------------------------------------------------------------

  /** A set of term numbers; a 16-bit word in the program. */
  type Mask = set<nat>

  /** The terms a name contains. */
  function MaskOf(terms: seq<Name>, name: Name): (m: Mask)
    ensures forall t: nat :: t in m <==> t < |terms| && Contains(name, terms[t])
  {
    set t: nat | t < |terms| && Contains(name, terms[t])
  }

  function FullMask(terms: seq<Name>): (m: Mask)
    ensures forall t: nat :: t in m <==> t < |terms|
    ensures |m| == |terms|
  {
    if terms == [] then {} else FullMask(terms[..|terms| - 1]) + {|terms| - 1}
  }

  /** What one record hands down: the mask of a live directory, else nothing. */
  ghost function DirMask(w: World, terms: seq<Name>, r: nat): Mask
    requires IsWorld(w) && r < Size(w)
  {
    if IsDir(w, r) && r !in w.tombs then MaskOf(terms, w.names[r]) else {}
  }

  /** The terms in the names of live directories among `r` and its ancestors. */
  ghost function Inherited(w: World, terms: seq<Name>, r: nat): Mask
    requires IsWorld(w) && r < Size(w)
    decreases w.l.positions[r]
  {
    TreeParentIsRetained(w.parents, w.l, r);
    DirMask(w, terms, r) +
    if TreeParent(w.parents, w.l, r) == PARENT_NONE then {} else Inherited(w, terms, TreeParent(w.parents, w.l, r))
  }

  lemma {:induction false} InheritedIsPath(w: World, terms: seq<Name>, r: nat, t: nat)
    requires IsWorld(w) && r < Size(w)
    ensures t in Inherited(w, terms, r) <==> t < |terms| && DirOnPath(w, terms[t], r)
    decreases w.l.positions[r]
  {
    hide Contains, Linked, Nested;
    TreeParentIsRetained(w.parents, w.l, r);
    if TreeParent(w.parents, w.l, r) != PARENT_NONE {
      InheritedIsPath(w, terms, TreeParent(w.parents, w.l, r), t);
    }
  }

  /** A live record is a hit when its own and inherited terms are all of them. */
  lemma FullIsHit(w: World, terms: seq<Name>, r: nat)
    requires IsWorld(w) && r < Size(w) && r !in w.tombs
    ensures MaskOf(terms, w.names[r]) + Inherited(w, terms, r) == FullMask(terms) <==> PathHit(w, terms, r)
  {
    hide Contains, IsForest, Inherited, DirOnPath, IsWorld;
    forall t: nat ensures t in Inherited(w, terms, r) <==> t < |terms| && DirOnPath(w, terms[t], r) {
      InheritedIsPath(w, terms, r, t);
    }
    var all := MaskOf(terms, w.names[r]) + Inherited(w, terms, r);
    if PathHit(w, terms, r) {
      forall t: nat | t < |terms| ensures t in all {
        assert OnPath(w, terms[t], r);
      }
      assert all == FullMask(terms);
    }
    if all == FullMask(terms) {
      forall t: nat | t < |terms| ensures OnPath(w, terms[t], r) {
        assert t in all;
      }
    }
  }

  // ---- climbing ------------------------------------------------------------------------

  /** A memo slot or a chain link: a record and a mask. */
  datatype Link = Link(record: nat, mask: Mask)

  /** A slot is empty, or holds the complete ancestor mask of the record it names. */
  ghost predicate MemoOk(memo: seq<Link>, w: World, terms: seq<Name>)
    requires IsWorld(w)
  {
    |memo| == MEMO_SLOTS &&
    forall s :: 0 <= s < |memo| && memo[s].record != PARENT_NONE ==> SlotOk(memo[s], w, terms)
  }

  ghost predicate SlotOk(slot: Link, w: World, terms: seq<Name>)
    requires IsWorld(w)
  {
    slot.record < Size(w) && slot.mask == Inherited(w, terms, slot.record)
  }

  /** The parent of `r` in the spanning forest. */
  function Above(w: World, r: nat): nat
    requires IsWorld(w) && r < Size(w)
  {
    TreeParent(w.parents, w.l, r)
  }

  /** The links from `record` up, each with what it hands down; `current` comes next. */
  ghost predicate ChainOk(chain: seq<Link>, depth: nat, w: World, terms: seq<Name>, record: nat, current: nat)
    requires IsWorld(w) && record < Size(w)
  {
    && depth <= |chain|
    && (depth == 0 ==> current == record)
    && (depth > 0 ==> chain[0].record == record)
    && (forall k :: 0 <= k < depth ==> LinkOk(chain[k], w, terms))
    && (forall k :: 0 <= k < depth - 1 ==> Above(w, chain[k].record) == chain[k + 1].record)
    && (depth > 0 ==> Above(w, chain[depth - 1].record) == current)
    && (depth > 0 && current != PARENT_NONE ==> current < Size(w) && w.l.positions[current] < w.l.positions[record])
  }

  ghost predicate LinkOk(link: Link, w: World, terms: seq<Name>)
    requires IsWorld(w)
  {
    link.record < Size(w) && link.mask == DirMask(w, terms, link.record)
  }

  function TreeParentOf(ar: Arena, r: nat, ghost w: World): (p: nat)
    requires IsArena(ar, w) && r < Size(w)
    ensures IsWorld(w) && p == Above(w, r)
  {
    ArenaParts(ar, w);
    TreeParent(ar.parents, ar.l, r)
  }

  lemma ParentBelow(w: World, r: nat)
    requires IsWorld(w) && r < Size(w)
    ensures Above(w, r) != PARENT_NONE ==> Above(w, r) < Size(w) && w.l.positions[Above(w, r)] < w.l.positions[r]
  {
    TreeParentIsRetained(w.parents, w.l, r);
  }

  lemma ChainGrows(chain: seq<Link>, depth: nat, w: World, terms: seq<Name>, record: nat, current: nat)
    requires IsWorld(w) && record < Size(w) && ChainOk(chain, depth, w, terms, record, current)
    requires depth < |chain| && current < Size(w)
    ensures ChainOk(chain[depth := Link(current, DirMask(w, terms, current))], depth + 1, w, terms, record, Above(w, current))
    ensures depth > 0 ==> current != record
  {
    hide IsForest, DirMask, Above;
    ParentBelow(w, current);
  }

  datatype Climbed = Superseding | OutOfBudget | Summit(own: Mask, inherited: Mask, depth: nat)

  /** The bytes of the names along a chain. */
  ghost function NameBytes(links: seq<Link>, w: World): nat {
    if links == [] then 0
    else NameBytes(links[..|links| - 1], w) + if links[|links| - 1].record < |w.names| then |w.names[links[|links| - 1].record]| else 0
  }

  lemma NameBytesGrow(chain: seq<Link>, depth: nat, link: Link, w: World)
    requires depth < |chain| && link.record < |w.names|
    ensures NameBytes(chain[depth := link][..depth + 1], w) == NameBytes(chain[..depth], w) + |w.names[link.record]|
  {
    assert chain[depth := link][..depth + 1] == chain[..depth] + [link];
  }

  /** Climbs from a live `record` until the root or a memoised ancestor, within the budgets. */
  method Climb(ar: Arena, tombs: set<nat>, terms: seq<Name>, memo: array<Link>, chain: array<Link>, record: nat,
               stepsBefore: nat, bytesBefore: nat, maxSteps: nat, cancel: Cancellation?, ghost w: World)
    returns (r: Climbed, steps: nat, bytes: nat, ghost current: nat)
    requires IsArena(ar, w) && tombs == w.tombs && record < Size(w) && record !in tombs
    requires MemoOk(memo[..], w, terms) && chain.Length == VERIFY_DEPTH && memo != chain
    modifies Flag(cancel), chain
    ensures r.Superseding? ==> Superseded(cancel)
    ensures old(Superseded(cancel)) ==> Superseded(cancel)
    ensures r.Summit? ==> r.own == MaskOf(terms, w.names[record]) && r.depth > 0
    ensures r.Summit? ==> ChainOk(chain[..], r.depth, w, terms, record, current) && HandedDown(w, terms, current, r.inherited)
    ensures r.Summit? ==> stepsBefore < maxSteps && steps == stepsBefore + r.depth + 1 <= maxSteps
    ensures r.Summit? ==> bytes == bytesBefore + NameBytes(chain[..r.depth], w) <= VERIFY_NAME_BYTES
    ensures r.OutOfBudget? ==> steps >= maxSteps || steps == stepsBefore + VERIFY_DEPTH || bytes > VERIFY_NAME_BYTES
  {
    ArenaParts(ar, w);
    IndexParts(ar.ix, w.names);
    RecordIsReal(w, record);
    hide IsArena, IsIndex, IsWorld, Codes, MemoOk, DirMask, Inherited, MaskOf, ChainOk, IsForest, Permutation,
      NameBytes, Above, HandedDown;
    steps, bytes := stepsBefore, bytesBefore;
    var at: nat, depth: nat, own: Mask := record, 0, {};
    StartsChain(chain[..], w, terms, record);
    while true
      invariant depth <= chain.Length && (at == PARENT_NONE || at < Size(w))
      invariant ChainOk(chain[..], depth, w, terms, record, at)
      invariant steps == stepsBefore + depth && (depth > 0 ==> steps <= maxSteps && bytes <= VERIFY_NAME_BYTES)
      invariant bytes == bytesBefore + NameBytes(chain[..depth], w)
      invariant depth == 0 ==> at == record
      invariant depth > 0 ==> own == MaskOf(terms, w.names[record]) && at != record
      invariant old(Superseded(cancel)) ==> Superseded(cancel)
      decreases chain.Length - depth
    {
      var superseded := Poll(cancel);
      if superseded {
        return Superseding, steps, bytes, at;
      }
      if steps >= maxSteps || depth == chain.Length {
        return OutOfBudget, steps, bytes, at;
      }
      steps := steps + 1;
      if at == PARENT_NONE {
        return Summit(own, {}, depth), steps, bytes, at;
      }
      MemoHas(memo[..], w, terms, at);
      if at != record && memo[at % MEMO_SLOTS].record == at {
        return Summit(own, memo[at % MEMO_SLOTS].mask, depth), steps, bytes, at;
      }
      var name := NameInto(ar.ix.nb, at, w.names);
      bytes := bytes + |name|;
      if bytes > VERIFY_NAME_BYTES {
        return OutOfBudget, steps, bytes, at;
      }
      var mask := if at !in tombs then MaskOf(terms, name) else {};
      if at == record {
        own := mask;
      }
      DirMaskIs(w, terms, at);
      ChainGrows(chain[..], depth, w, terms, record, at);
      NameBytesGrow(chain[..], depth, Link(at, if WordIsDir(ar.parents[at]) then mask else {}), w);
      chain[depth] := Link(at, if WordIsDir(ar.parents[at]) then mask else {});
      depth := depth + 1;
      at := TreeParentOf(ar, at, w);
    }
  }

  /** The mask the climb ends with. */
  ghost predicate HandedDown(w: World, terms: seq<Name>, current: nat, mask: Mask)
    requires IsWorld(w)
  {
    if current == PARENT_NONE then mask == {} else current < Size(w) && mask == Inherited(w, terms, current)
  }

  lemma RecordIsReal(w: World, r: nat)
    requires IsWorld(w) && r < Size(w)
    ensures r != PARENT_NONE
  {
  }

  lemma StartsChain(chain: seq<Link>, w: World, terms: seq<Name>, record: nat)
    requires IsWorld(w) && record < Size(w)
    ensures ChainOk(chain, 0, w, terms, record, record) && NameBytes(chain[..0], w) == 0
  {
  }

  lemma MemoHas(memo: seq<Link>, w: World, terms: seq<Name>, at: nat)
    requires IsWorld(w) && MemoOk(memo, w, terms) && at < Size(w)
    ensures |memo| == MEMO_SLOTS && at % MEMO_SLOTS < MEMO_SLOTS
    ensures memo[at % MEMO_SLOTS].record == at ==> memo[at % MEMO_SLOTS].mask == Inherited(w, terms, at)
  {
    RecordIsReal(w, at);
    var s := at % MEMO_SLOTS;
    assert memo[s].record != PARENT_NONE ==> SlotOk(memo[s], w, terms);
  }

  lemma DirMaskIs(w: World, terms: seq<Name>, r: nat)
    requires IsWorld(w) && r < Size(w)
    ensures DirMask(w, terms, r) == if WordIsDir(w.parents[r]) && r !in w.tombs then MaskOf(terms, w.names[r]) else {}
    ensures DirMask(w, terms, r) == if WordIsDir(w.parents[r]) then (if r !in w.tombs then MaskOf(terms, w.names[r]) else {}) else {}
  {
  }

  // ---- unwinding -----------------------------------------------------------------------

  lemma InheritedStep(w: World, terms: seq<Name>, r: nat, mask: Mask)
    requires IsWorld(w) && r < Size(w) && HandedDown(w, terms, Above(w, r), mask)
    ensures mask + DirMask(w, terms, r) == Inherited(w, terms, r)
  {
    TreeParentIsRetained(w.parents, w.l, r);
  }

  lemma MemoKeeps(memo: seq<Link>, w: World, terms: seq<Name>, link: Link)
    requires IsWorld(w) && MemoOk(memo, w, terms) && SlotOk(link, w, terms)
    ensures MemoOk(memo[link.record % MEMO_SLOTS := link], w, terms)
  {
    hide SlotOk;
  }

  /** Adds the chain's masks from the top down, and memoises every directory on the way. */
  method Unwind(ar: Arena, terms: seq<Name>, memo: array<Link>, chain: seq<Link>, depth: nat, mask: Mask, ghost w: World,
                ghost record: nat, ghost current: nat)
    returns (inherited: Mask)
    requires IsArena(ar, w) && record < Size(w) && depth > 0
    requires ChainOk(chain, depth, w, terms, record, current) && HandedDown(w, terms, current, mask)
    requires MemoOk(memo[..], w, terms)
    modifies memo
    ensures MemoOk(memo[..], w, terms) && inherited == Inherited(w, terms, record)
    ensures WordIsDir(ar.parents[record]) ==> memo[record % MEMO_SLOTS] == Link(record, inherited)
    ensures forall s: nat :: s < memo.Length ==>
      memo[s] == old(memo[s]) || (memo[s].record < Size(w) && WordIsDir(w.parents[memo[s].record]))
  {
    ArenaParts(ar, w);
    inherited := mask;
    ghost var above := current;
    hide IsArena, IsWorld, IsIndex, MemoOk, DirMask, Inherited, HandedDown, Above, Permutation, IsForest;
    for k := depth downto 0
      invariant MemoOk(memo[..], w, terms)
      invariant above == (if k == depth then current else chain[k].record)
      invariant HandedDown(w, terms, above, inherited)
      invariant above < Size(w) && k < depth && WordIsDir(ar.parents[above]) ==> memo[above % MEMO_SLOTS] == Link(above, inherited)
      invariant forall s: nat :: s < memo.Length ==>
        memo[s] == old(memo[s]) || (memo[s].record < Size(w) && WordIsDir(w.parents[memo[s].record]))
    {
      assert LinkOk(chain[k], w, terms);
      assert Above(w, chain[k].record) == above;
      InheritedStep(w, terms, chain[k].record, inherited);
      inherited := inherited + chain[k].mask;
      above := chain[k].record;
      RealHandedDown(w, terms, above, inherited);
      if WordIsDir(ar.parents[chain[k].record]) {
        var link := Link(chain[k].record, inherited);
        MemoLength(memo[..], w, terms);
        MemoKeeps(memo[..], w, terms, link);
        memo[link.record % MEMO_SLOTS] := link;
      }
    }
  }

  lemma MemoLength(memo: seq<Link>, w: World, terms: seq<Name>)
    requires IsWorld(w) && MemoOk(memo, w, terms)
    ensures |memo| == MEMO_SLOTS
  {
  }

  lemma RealHandedDown(w: World, terms: seq<Name>, r: nat, mask: Mask)
    requires IsWorld(w) && r < Size(w)
    ensures HandedDown(w, terms, r, mask) <==> mask == Inherited(w, terms, r)
  {
  }

  // ---- the seed loop -------------------------------------------------------------------

  /** The seed's positions below `p` that are hits, in order. */
  ghost predicate Verified(output: seq<Span>, seed: seq<Span>, w: World, terms: seq<Name>, p: nat)
    requires IsWorld(w)
  {
    && (forall q: nat :: Covers(output, q) <==> q < p && Covers(seed, q) && HitAt(w, terms, q))
    && forall i :: 0 <= i < |output| ==> output[i].end <= p
  }

  ghost predicate HitAt(w: World, terms: seq<Name>, q: nat)
    requires IsWorld(w)
  {
    q < Size(w) && PathHit(w, terms, w.l.records[q])
  }

  method PushVerified(output: IntervalSet, ghost seed: seq<Span>, position: nat, hit: bool, ghost w: World, ghost terms: seq<Name>)
    requires IsWorld(w) && output.Valid() && output.coalescedLen == |output.runs|
    requires Verified(output.runs, seed, w, terms, position) && Covers(seed, position) && hit == HitAt(w, terms, position)
    modifies output
    ensures output.Valid() && output.coalescedLen == |output.runs| && Verified(output.runs, seed, w, terms, position + 1)
  {
    hide IsWorld, HitAt, Covers, Coalesced;
    if hit {
      output.PushOrderedPoint(position);
    }
  }

  /** Verifies one seed position. */
  method VerifyPosition(ar: Arena, tombs: set<nat>, terms: seq<Name>, memo: array<Link>, chain: array<Link>, position: nat,
                        stepsBefore: nat, bytesBefore: nat, maxSteps: nat, cancel: Cancellation?, ghost w: World)
    returns (r: Option<bool>, stopped: bool, steps: nat, bytes: nat)
    requires IsArena(ar, w) && tombs == w.tombs && position < Size(w)
    requires MemoOk(memo[..], w, terms) && chain.Length == VERIFY_DEPTH && memo != chain
    modifies Flag(cancel), chain, memo
    ensures stopped ==> Superseded(cancel)
    ensures MemoOk(memo[..], w, terms)
    ensures !stopped && r.Some? ==> r.value == HitAt(w, terms, position)
  {
    ArenaParts(ar, w);
    steps, bytes, stopped := stepsBefore, bytesBefore, false;
    var record := ar.l.records[position];
    var superseded := Poll(cancel);
    if superseded {
      return None, true, steps, bytes;
    }
    hide IsArena, IsIndex, MemoOk, ChainOk, HandedDown, IsForest, MaskOf, Inherited;
    if record in tombs {
      return Some(false), false, steps, bytes;
    }
    var climbed;
    ghost var current;
    climbed, steps, bytes, current := Climb(ar, tombs, terms, memo, chain, record, steps, bytes, maxSteps, cancel, w);
    match climbed {
      case Superseding => return None, true, steps, bytes;
      case OutOfBudget => return None, false, steps, bytes;
      case Summit(own, mask, depth) =>
        var inherited := Unwind(ar, terms, memo, chain[..], depth, mask, w, record, current);
        FullIsHit(w, terms, record);
        return Some(own + inherited == FullMask(terms)), false, steps, bytes;
    }
  }

  datatype SeedResult = SeedCancelled | SeedAbandoned | SeedVerified

  lemma SeedGap(seed: seq<Span>, i: nat, w: World, terms: seq<Name>, output: seq<Span>)
    requires IsWorld(w) && Coalesced(seed) && i < |seed| && Verified(output, seed, w, terms, seed[i].end)
    ensures i + 1 < |seed| ==> seed[i].end <= seed[i + 1].start && Verified(output, seed, w, terms, seed[i + 1].start)
    ensures i + 1 == |seed| ==> AllVerified(output, seed, w, terms)
  {
    hide IsWorld, HitAt;
    if i + 1 < |seed| {
      forall q: nat | seed[i].end <= q < seed[i + 1].start ensures !Covers(seed, q) {
      }
    } else {
      forall q: nat | seed[i].end <= q ensures !Covers(seed, q) {
      }
    }
  }

  /** The whole seed, cut down to its hits. */
  ghost predicate AllVerified(output: seq<Span>, seed: seq<Span>, w: World, terms: seq<Name>)
    requires IsWorld(w)
  {
    forall q: nat :: Covers(output, q) <==> Covers(seed, q) && HitAt(w, terms, q)
  }

  lemma SeedStart(seed: seq<Span>, w: World, terms: seq<Name>)
    requires IsWorld(w) && Coalesced(seed)
    ensures seed == [] ==> AllVerified([], seed, w, terms)
    ensures seed != [] ==> Verified([], seed, w, terms, seed[0].start)
  {
    hide IsWorld, HitAt;
  }

  /** The positions of one run of the seed. */
  method VerifyRun(ar: Arena, tombs: set<nat>, terms: seq<Name>, seed: seq<Span>, i: nat, memo: array<Link>, chain: array<Link>,
                   output: IntervalSet, stepsBefore: nat, bytesBefore: nat, maxSteps: nat, cancel: Cancellation?, ghost w: World)
    returns (r: SeedResult, steps: nat, bytes: nat)
    requires IsArena(ar, w) && tombs == w.tombs
    requires i < |seed| && seed[i].start < seed[i].end <= Size(w)
    requires MemoOk(memo[..], w, terms) && chain.Length == VERIFY_DEPTH && memo != chain
    requires output.Valid() && output.coalescedLen == |output.runs| && Verified(output.runs, seed, w, terms, seed[i].start)
    modifies Flag(cancel), chain, memo, output
    ensures r.SeedCancelled? ==> Superseded(cancel)
    ensures output.Valid()
    ensures MemoOk(memo[..], w, terms)
    ensures r.SeedVerified? ==> output.coalescedLen == |output.runs| && Verified(output.runs, seed, w, terms, seed[i].end)
  {
    ArenaParts(ar, w);
    hide IsArena, IsWorld, IsIndex, MemoOk, Verified, Covers, HitAt, Coalesced, Permutation;
    steps, bytes := stepsBefore, bytesBefore;
    for position := seed[i].start to seed[i].end
      invariant MemoOk(memo[..], w, terms)
      invariant output.Valid() && output.coalescedLen == |output.runs| && Verified(output.runs, seed, w, terms, position)
    {
      var hit, stopped;
      hit, stopped, steps, bytes := VerifyPosition(ar, tombs, terms, memo, chain, position, steps, bytes, maxSteps, cancel, w);
      if stopped {
        return SeedCancelled, steps, bytes;
      }
      if hit.None? {
        return SeedAbandoned, steps, bytes;
      }
      RunCovers(seed, i, position);
      PushVerified(output, seed, position, hit.value, w, terms);
    }
    return SeedVerified, steps, bytes;
  }

  lemma RunCovers(seed: seq<Span>, i: nat, position: nat)
    requires i < |seed| && seed[i].start <= position < seed[i].end
    ensures Covers(seed, position)
  {
  }

  /** How many positions the runs hold. */
  function LenPositions(runs: seq<Span>): nat {
    if runs == [] then 0
    else LenPositions(runs[1..]) + if runs[0].start < runs[0].end then runs[0].end - runs[0].start else 0
  }

  /**
   * verify_path_seed: either the seed's hits exactly, or nothing usable. Slot collisions
   * replace memo entries and cost time only.
   */
  method VerifyPathSeed(ar: Arena, tombs: set<nat>, terms: seq<Name>, seed: seq<Span>, output: IntervalSet, maxSteps: nat,
                        cancel: Cancellation?, ghost w: World)
    returns (r: SeedResult)
    requires IsArena(ar, w) && tombs == w.tombs && Coalesced(seed) && forall q: nat :: Covers(seed, q) ==> q < Size(w)
    modifies Flag(cancel), output
    ensures output.Valid()
    ensures r.SeedCancelled? ==> Superseded(cancel)
    ensures r.SeedVerified? ==> output.coalescedLen == |output.runs| && AllVerified(output.runs, seed, w, terms)
  {
    ArenaParts(ar, w);
    output.Clear();
    if LenPositions(seed) > VERIFY_CANDIDATES {
      return SeedAbandoned;
    }
    var memo := new Link[MEMO_SLOTS](_ => Link(PARENT_NONE, {}));
    var chain := new Link[VERIFY_DEPTH](_ => Link(PARENT_NONE, {}));
    assert MemoOk(memo[..], w, terms);
    SeedStart(seed, w, terms);
    RunsInside(seed, Size(w));
    hide IsArena, IsWorld, IsIndex, MemoOk, Verified, AllVerified, Covers, Coalesced, Permutation, LenPositions;
    var steps, bytes := 0, 0;
    for i := 0 to |seed|
      invariant MemoOk(memo[..], w, terms)
      invariant output.Valid() && output.coalescedLen == |output.runs|
      invariant i < |seed| ==> Verified(output.runs, seed, w, terms, seed[i].start)
      invariant i == |seed| ==> AllVerified(output.runs, seed, w, terms)
    {
      r, steps, bytes := VerifyRun(ar, tombs, terms, seed, i, memo, chain, output, steps, bytes, maxSteps, cancel, w);
      if !r.SeedVerified? {
        return;
      }
      SeedGap(seed, i, w, terms, output.runs);
    }
    var superseded := Poll(cancel);
    r := if superseded then SeedCancelled else SeedVerified;
  }

  lemma RunsInside(seed: seq<Span>, n: nat)
    requires Coalesced(seed) && forall q: nat :: Covers(seed, q) ==> q < n
    ensures forall i :: 0 <= i < |seed| ==> seed[i].start < seed[i].end <= n
  {
    forall i | 0 <= i < |seed| ensures seed[i].end <= n {
      RunCovers(seed, i, seed[i].end - 1);
    }
  }
}
