/** What happens when a sequence of journal events is applied twice (delta.rs). */
module DeltaReplay {
  import opened Records
  import opened Ascii
  import opened DeltaState

  /** Applies events until one of them needs a full reindex. */
  function Run(s: State, base: BaseStore, es: seq<Event>): (State, bool)
    requires IsStore(base)
  {
    if es == [] then (s, true)
    else
      var before := Run(s, base, es[..|es| - 1]);
      if !before.1 then before
      else
        var step := Apply(before.0, base, es[|es| - 1]);
        (step.0, step.1 == Applied)
  }

  // ---- what one FRN looks like -------------------------------------------------------

  datatype Sight = Absent | InBase(index: nat) | InDelta(name: Name, meta: Meta, parentFrn: Frn)

  /** Whether and where an FRN is live, and under which name, metadata and parent. */
  ghost function Seen(s: State, base: BaseStore, frn: Frn): Sight
    requires Inv(s, base)
  {
    if frn in s.frns then
      var i := s.frns[frn];
      InDelta(s.added[i].name, s.added[i].meta, s.ids[i].parentFrn)
    else
      var found := Lookup(base, frn);
      if found.Some? && found.value !in s.tombs then InBase(found.value) else Absent
  }

  /** The effect of one applied event on one FRN. */
  ghost function StepOne(v: Sight, base: BaseStore, frn: Frn, e: Event): Sight
    requires IsStore(base)
  {
    match e
    case Created(f, parentFrn, name, isDir, mtimeSecs) =>
      if f != frn || v != Absent then v else InDelta(name, Meta(isDir, mtimeSecs, 0, false), parentFrn)
    case Deleted(f) => if f != frn then v else Absent
    case Renamed(f, parentFrn, name) =>
      if f != frn then v
      else if v.InDelta? then InDelta(name, v.meta, parentFrn)
      else if Lookup(base, frn).Some? then InDelta(name, base.meta[Lookup(base, frn).value], parentFrn)
      else v
    case Modified => v
  }

  ghost predicate Resolves(s: State, base: BaseStore, frn: Frn)
    requires Inv(s, base)
  {
    Lookup(base, frn).Some? || Seen(s, base, frn) != Absent
  }

  /** Exactly when an event applies. */
  ghost predicate EventOk(s: State, base: BaseStore, e: Event)
    requires Inv(s, base)
  {
    if base.frns.None? then e.Modified?
    else
      match e
      case Created(f, parentFrn, _, _, _) => Seen(s, base, f) != Absent || Resolves(s, base, parentFrn)
      case Renamed(f, parentFrn, _) =>
        && (Lookup(base, f).Some? || Seen(s, base, f) != Absent)
        && Resolves(s, base, parentFrn) && (parentFrn == f ==> Lookup(base, f).Some?)
      case _ => true
  }

  lemma DeleteSees(s: State, base: BaseStore, g: Frn, frn: Frn)
    requires IsStore(base) && Inv(s, base)
    ensures Inv(Delete(s, base, g), base)
    ensures Seen(Delete(s, base, g), base, frn) == if g == frn then Absent else Seen(s, base, frn)
  {
    DeleteKeeps(s, base, g);
    hide ParentNames;
  }

  lemma CreateSees(s: State, base: BaseStore, g: Frn, parentFrn: Frn, name: Name, meta: Meta, frn: Frn)
    requires IsStore(base) && Inv(s, base)
    ensures Inv(Create(s, base, g, parentFrn, name, meta).0, base)
    ensures Create(s, base, g, parentFrn, name, meta).1 == Applied <==> Seen(s, base, g) != Absent || Resolves(s, base, parentFrn)
    ensures Create(s, base, g, parentFrn, name, meta).1 == Applied ==>
      Seen(Create(s, base, g, parentFrn, name, meta).0, base, frn) ==
        if g == frn && Seen(s, base, frn) == Absent then InDelta(name, meta, parentFrn) else Seen(s, base, frn)
  {
    CreateKeeps(s, base, g, parentFrn, name, meta);
    hide ParentNames;
  }

  /** A rename found already applied has the parent it names. */
  lemma DoneSees(s: State, base: BaseStore, frn: Frn, parentFrn: Frn, name: Name)
    requires IsStore(base) && Inv(s, base) && RenameDone(s, base, frn, parentFrn, name)
    ensures Seen(s, base, frn).InDelta? && Seen(s, base, frn).name == name && Seen(s, base, frn).parentFrn == parentFrn
    ensures Resolves(s, base, parentFrn) && (parentFrn == frn ==> Lookup(base, frn).Some?)
  {
    var i := s.frns[frn];
    assert ParentNames(s, base, i);
  }

  lemma RenameSees(s: State, base: BaseStore, g: Frn, parentFrn: Frn, name: Name, frn: Frn)
    requires IsStore(base) && Inv(s, base) && base.frns.Some?
    ensures var r := Apply(s, base, Renamed(g, parentFrn, name));
      && Inv(r.0, base)
      && (r.1 == Applied <==> EventOk(s, base, Renamed(g, parentFrn, name)))
      && (r.1 == Applied ==> Seen(r.0, base, frn) == StepOne(Seen(s, base, frn), base, frn, Renamed(g, parentFrn, name)))
  {
    hide Inv, Seen, Create, Delete, RenameDone, MetadataOf;
    if RenameDone(s, base, g, parentFrn, name) {
      DoneSees(s, base, g, parentFrn, name);
    } else {
      MetadataSeen(s, base, g);
      DeleteSees(s, base, g, frn);
      DeleteSees(s, base, g, g);
      DeleteSees(s, base, g, parentFrn);
      var meta := MetadataOf(s, base, g);
      if meta.Some? {
        CreateSees(Delete(s, base, g), base, g, parentFrn, name, meta.value, frn);
      }
    }
  }

  lemma MetadataSeen(s: State, base: BaseStore, frn: Frn)
    requires IsStore(base) && Inv(s, base)
    ensures MetadataOf(s, base, frn) ==
      if Seen(s, base, frn).InDelta? then Some(Seen(s, base, frn).meta)
      else if Lookup(base, frn).Some? then Some(base.meta[Lookup(base, frn).value])
      else None
    ensures Lookup(base, frn).None? ==> !Seen(s, base, frn).InBase?
  {
  }

  lemma ApplySees(s: State, base: BaseStore, e: Event, frn: Frn)
    requires IsStore(base) && Inv(s, base)
    ensures Inv(Apply(s, base, e).0, base)
    ensures Apply(s, base, e).1 == Applied <==> EventOk(s, base, e)
    ensures Apply(s, base, e).1 == Applied ==>
      Seen(Apply(s, base, e).0, base, frn) == StepOne(Seen(s, base, frn), base, frn, e)
  {
    hide Inv, Seen, Create, Delete, RenameDone, MetadataOf;
    TheoremApplyKeepsInv(s, base, e);
    if base.frns.Some? {
      match e {
        case Created(f, parentFrn, name, isDir, mtimeSecs) =>
          CreateSees(s, base, f, parentFrn, name, Meta(isDir, mtimeSecs, 0, false), frn);
        case Deleted(f) =>
          DeleteSees(s, base, f, frn);
        case Renamed(f, parentFrn, name) =>
          RenameSees(s, base, f, parentFrn, name, frn);
        case Modified =>
      }
    }
  }

  // ---- folding over one FRN ----------------------------------------------------------

  ghost function Fold(v: Sight, base: BaseStore, frn: Frn, es: seq<Event>): Sight
    requires IsStore(base)
  {
    if es == [] then v else StepOne(Fold(v, base, frn, es[..|es| - 1]), base, frn, es[|es| - 1])
  }

  /** Liveness of an FRN, from the events alone. */
  function LiveAt(live: bool, frn: Frn, es: seq<Event>): bool {
    if es == [] then live
    else
      match es[|es| - 1]
      case Created(f, _, _, _, _) => f == frn || LiveAt(live, frn, es[..|es| - 1])
      case Renamed(f, _, _) => f == frn || LiveAt(live, frn, es[..|es| - 1])
      case Deleted(f) => f != frn && LiveAt(live, frn, es[..|es| - 1])
      case Modified => LiveAt(live, frn, es[..|es| - 1])
  }

  lemma {:induction false} RunSees(s: State, base: BaseStore, es: seq<Event>, frn: Frn)
    requires IsStore(base) && Inv(s, base)
    ensures Inv(Run(s, base, es).0, base)
    ensures Run(s, base, es).1 ==> Seen(Run(s, base, es).0, base, frn) == Fold(Seen(s, base, frn), base, frn, es)
    ensures Run(s, base, es).1 ==> (Seen(Run(s, base, es).0, base, frn) != Absent <==> LiveAt(Seen(s, base, frn) != Absent, frn, es))
    decreases |es|
  {
    hide Inv, Seen, Apply;
    if es != [] {
      var before := es[..|es| - 1];
      RunSees(s, base, before, frn);
      ApplySees(Run(s, base, before).0, base, es[|es| - 1], frn);
      MetadataSeen(Run(s, base, before).0, base, frn);
    }
  }

  /** Each event of an applied run was applicable where it came. */
  lemma {:induction false} RunPrefix(s: State, base: BaseStore, es: seq<Event>, i: nat)
    requires IsStore(base) && Inv(s, base) && Run(s, base, es).1 && i <= |es|
    ensures Run(s, base, es[..i]).1 && Inv(Run(s, base, es[..i]).0, base)
    ensures i < |es| ==> EventOk(Run(s, base, es[..i]).0, base, es[i])
    decreases |es|
  {
    hide Inv, Seen, Apply, EventOk;
    var n := |es|;
    if i == n {
      assert es[..i] == es;
      RunSees(s, base, es, 0);
    } else {
      var before := es[..n - 1];
      assert es == before + [es[n - 1]];
      if i < n - 1 {
        RunPrefix(s, base, before, i);
        assert before[..i] == es[..i];
      } else {
        RunSees(s, base, before, 0);
        ApplySees(Run(s, base, before).0, base, es[n - 1], 0);
      }
    }
  }

  lemma {:induction false} FoldMonotone(v: Sight, w: Sight, base: BaseStore, frn: Frn, es: seq<Event>)
    requires IsStore(base) && Lookup(base, frn).None? && !v.InBase? && !w.InBase? && (v != Absent ==> w != Absent)
    ensures !Fold(v, base, frn, es).InBase? && !Fold(w, base, frn, es).InBase?
    ensures Fold(v, base, frn, es) != Absent ==> Fold(w, base, frn, es) != Absent
    decreases |es|
  {
    if es != [] {
      FoldMonotone(v, w, base, frn, es[..|es| - 1]);
    }
  }

  // ---- folding twice -----------------------------------------------------------------

  predicate Deletes(es: seq<Event>, frn: Frn) {
    es != [] && (es[|es| - 1] == Deleted(frn) || Deletes(es[..|es| - 1], frn))
  }

  /** The last name and parent an FRN was renamed to. */
  function LastRename(es: seq<Event>, frn: Frn): Option<(Name, Frn)> {
    if es == [] then None
    else
      var last := es[|es| - 1];
      if last.Renamed? && last.frn == frn then Some((last.name, last.parentFrn)) else LastRename(es[..|es| - 1], frn)
  }

  lemma {:induction false} DeleteForgets(v: Sight, w: Sight, base: BaseStore, frn: Frn, es: seq<Event>)
    requires IsStore(base) && Deletes(es, frn)
    ensures Fold(v, base, frn, es) == Fold(w, base, frn, es)
    decreases |es|
  {
    if es[|es| - 1] != Deleted(frn) {
      DeleteForgets(v, w, base, frn, es[..|es| - 1]);
    }
  }

  lemma {:induction false} FoldAddition(v: Sight, base: BaseStore, frn: Frn, es: seq<Event>)
    requires IsStore(base) && !Deletes(es, frn) && v.InDelta?
    ensures Fold(v, base, frn, es) == match LastRename(es, frn)
      case Some((name, parentFrn)) => InDelta(name, v.meta, parentFrn)
      case None => v
    decreases |es|
  {
    if es != [] {
      FoldAddition(v, base, frn, es[..|es| - 1]);
    }
  }

  lemma {:induction false} FoldUnnamed(v: Sight, base: BaseStore, frn: Frn, es: seq<Event>)
    requires IsStore(base) && !Deletes(es, frn) && LastRename(es, frn).None? && v != Absent
    ensures Fold(v, base, frn, es) == v
    decreases |es|
  {
    if es != [] {
      FoldUnnamed(v, base, frn, es[..|es| - 1]);
    }
  }

  lemma {:induction false} FoldNamed(s: State, base: BaseStore, es: seq<Event>, frn: Frn)
    requires IsStore(base) && Inv(s, base) && Run(s, base, es).1
    requires !Deletes(es, frn) && LastRename(es, frn).Some?
    ensures var v := Fold(Seen(s, base, frn), base, frn, es);
      v.InDelta? && (v.name, v.parentFrn) == LastRename(es, frn).value
    decreases |es|
  {
    hide Inv, Seen, Apply;
    var before := es[..|es| - 1];
    var last := es[|es| - 1];
    RunPrefix(s, base, es, |es| - 1);
    RunSees(s, base, before, frn);
    MetadataSeen(Run(s, base, before).0, base, frn);
    if !(last.Renamed? && last.frn == frn) {
      FoldNamed(s, base, before, frn);
    }
  }

  lemma FoldTwice(s: State, base: BaseStore, es: seq<Event>, frn: Frn)
    requires IsStore(base) && Inv(s, base) && Run(s, base, es).1
    ensures var once := Fold(Seen(s, base, frn), base, frn, es); Fold(once, base, frn, es) == once
  {
    hide Inv, Seen, Run;
    var v := Seen(s, base, frn);
    var once := Fold(v, base, frn, es);
    if Deletes(es, frn) {
      DeleteForgets(v, once, base, frn, es);
    } else if LastRename(es, frn).Some? {
      FoldNamed(s, base, es, frn);
      FoldAddition(once, base, frn, es);
    } else if once != Absent {
      FoldUnnamed(once, base, frn, es);
    } else if v != Absent {
      FoldUnnamed(v, base, frn, es);
    }
  }

  // ---- replay ------------------------------------------------------------------------

  /**
   * The guard that decides replay: a creation that finds its FRN dead must still find its
   * parent, in the base map or live. Liveness is read off the events replayed so far.
   */
  ghost predicate CreationsCovered(s: State, base: BaseStore, es: seq<Event>)
    requires Inv(s, base)
  {
    forall i :: 0 <= i < |es| && es[i].Created? ==> Covered(s, base, es, i)
  }

  ghost predicate Covered(s: State, base: BaseStore, es: seq<Event>, i: nat)
    requires Inv(s, base) && i < |es| && es[i].Created?
  {
    || LiveAt(Seen(s, base, es[i].frn) != Absent, es[i].frn, es[..i])
    || Lookup(base, es[i].parentFrn).Some?
    || LiveAt(Seen(s, base, es[i].parentFrn) != Absent, es[i].parentFrn, es[..i])
  }

  lemma SecondEvent(base: BaseStore, es: seq<Event>, s: State, i: nat)
    requires IsStore(base) && Inv(Start(), base) && Run(Start(), base, es).1 && s == Run(Start(), base, es).0
    requires i < |es| && Inv(s, base) && Run(s, base, es[..i]).1
    ensures Inv(Run(s, base, es[..i]).0, base)
    ensures Apply(Run(s, base, es[..i]).0, base, es[i]).1 == Applied <==> (es[i].Created? ==> Covered(s, base, es, i))
  {
    hide Inv, Seen, Apply, Run;
    var first, second := Run(Start(), base, es[..i]).0, Run(s, base, es[..i]).0;
    RunPrefix(Start(), base, es, i);
    RunSees(s, base, es[..i], 0);
    ApplySees(second, base, es[i], 0);
    match es[i] {
      case Created(f, parentFrn, _, _, _) =>
        RunSees(s, base, es[..i], f);
        RunSees(s, base, es[..i], parentFrn);
      case Renamed(f, parentFrn, _) =>
        StillThere(base, es, s, i, f);
        StillThere(base, es, s, i, parentFrn);
      case _ =>
    }
  }

  /** An FRN outside the base that was live before the `i`-th event is live there again. */
  lemma StillThere(base: BaseStore, es: seq<Event>, s: State, i: nat, frn: Frn)
    requires IsStore(base) && Inv(Start(), base) && Inv(s, base)
    requires i < |es| && Run(Start(), base, es[..i]).1 && Run(s, base, es[..i]).1
    ensures Inv(Run(Start(), base, es[..i]).0, base) && Inv(Run(s, base, es[..i]).0, base)
    ensures Lookup(base, frn).None? && Seen(Run(Start(), base, es[..i]).0, base, frn) != Absent ==>
      Seen(Run(s, base, es[..i]).0, base, frn) != Absent
  {
    RunSees(Start(), base, es[..i], frn);
    RunSees(s, base, es[..i], frn);
    if Lookup(base, frn).None? {
      FoldMonotone(Seen(Start(), base, frn), Seen(s, base, frn), base, frn, es[..i]);
    }
  }

  lemma {:induction false} ReplayUpTo(base: BaseStore, es: seq<Event>, s: State, i: nat)
    requires IsStore(base) && Inv(Start(), base) && Run(Start(), base, es).1 && s == Run(Start(), base, es).0
    requires i <= |es| && Inv(s, base)
    ensures Run(s, base, es[..i]).1 <==> forall k :: 0 <= k < i && es[k].Created? ==> Covered(s, base, es, k)
    decreases i
  {
    hide Inv, Seen, Apply, Covered;
    if i > 0 {
      ReplayUpTo(base, es, s, i - 1);
      assert es[..i][..i - 1] == es[..i - 1] && es[..i][i - 1] == es[i - 1];
      if Run(s, base, es[..i - 1]).1 {
        SecondEvent(base, es, s, i - 1);
      }
    }
  }

  ghost predicate SameSights(s: State, t: State, base: BaseStore) {
    Inv(s, base) && Inv(t, base) && forall f :: Seen(s, base, f) == Seen(t, base, f)
  }

  /**
   * Replay is safe: after a run in which every event applied, running it again applies
   * throughout if and only if its creations are covered, and then every FRN looks as before.
   */
  lemma TheoremReplay(base: BaseStore, es: seq<Event>)
    requires IsStore(base) && Run(Start(), base, es).1
    ensures var once := Run(Start(), base, es).0;
      && Inv(once, base)
      && (Run(once, base, es).1 <==> CreationsCovered(once, base, es))
      && (Run(once, base, es).1 ==> SameSights(once, Run(once, base, es).0, base))
  {
    hide Seen, Apply, Covered;
    StartsInv(base);
    RunSees(Start(), base, es, 0);
    var once := Run(Start(), base, es).0;
    hide Inv;
    ReplayUpTo(base, es, once, |es|);
    assert es[..|es|] == es;
    if Run(once, base, es).1 {
      RunSees(once, base, es, 0);
      forall f ensures Seen(once, base, f) == Seen(Run(once, base, es).0, base, f) {
        RunSees(Start(), base, es, f);
        RunSees(once, base, es, f);
        FoldTwice(Start(), base, es, f);
      }
    }
  }

  /**
   * Not every run replays: the base already holds FRN 7, so its repeated creation under an
   * unknown parent is ignored, until the deletion that follows it has happened once.
   */
  lemma ReplayCanNeedReindex(name: Name)
    ensures
      var base := BaseStore(1, Some(map[7 := 0]), [Meta(false, 0, 0, true)]);
      var es := [Created(7, 99, name, false, 0), Deleted(7)];
      && IsStore(base)
      && Run(Start(), base, es).1
      && !Run(Run(Start(), base, es).0, base, es).1
  {
    var base := BaseStore(1, Some(map[7 := 0]), [Meta(false, 0, 0, true)]);
    var es := [Created(7, 99, name, false, 0), Deleted(7)];
    assert es[..1] == [Created(7, 99, name, false, 0)] && es[..1][..0] == [];
    assert Run(Start(), base, es[..1]) == (Start(), true);
    assert Delete(Start(), base, 7).tombs == {0};
    assert Run(Start(), base, es) == (State({0}, [], map[], []), true);
    var once := State({0}, [], map[], []);
    assert Apply(once, base, es[0]).1 == NeedsFullReindex;
    assert Run(once, base, es[..1]).1 == false;
  }

  // ---- where a new record hangs --------------------------------------------------------

  /** Where an FRN stood: at its live addition, else at its base record, tombstoned or not. */
  ghost function Stood(s: State, base: BaseStore, frn: Frn): ParentRef
    requires Inv(s, base)
  {
    if Seen(s, base, frn).InDelta? then AtDelta(s.frns[frn])
    else if Lookup(base, frn).Some? then AtBase(Lookup(base, frn).value)
    else Rootless
  }

  /** The record an event adds: live, under the event's FRN and name, below where the parent's FRN stood. */
  ghost predicate IsNewRecord(r: DeltaRecord, s: State, base: BaseStore, e: Event)
    requires Inv(s, base) && (e.Created? || e.Renamed?)
  {
    && r.live && r.name == e.name
    && (e.parentFrn != e.frn ==> r.parent == Stood(s, base, e.parentFrn) != Rootless)
    && (e.parentFrn == e.frn ==> Lookup(base, e.frn).Some? && r.parent == AtBase(Lookup(base, e.frn).value))
    && (e.Created? ==> r.meta == Meta(e.isDir, e.mtimeSecs, 0, false))
    && (e.Renamed? ==> if Seen(s, base, e.frn).InDelta? then r.meta == Seen(s, base, e.frn).meta
                       else Lookup(base, e.frn).Some? && Lookup(base, e.frn).value < |base.meta| && r.meta == base.meta[Lookup(base, e.frn).value])
  }

  /** The records there were keep their name, metadata and parent, and none comes back to life. */
  ghost predicate KeepsRecords(before: seq<DeltaRecord>, after: seq<DeltaRecord>) {
    |before| <= |after| && forall i :: 0 <= i < |before| ==>
      after[i].(live := before[i].live) == before[i] && (after[i].live ==> before[i].live)
  }

  /** An event adds at most one record, and it hangs where its parent's FRN stood. */
  lemma TheoremNewRecord(s: State, base: BaseStore, e: Event)
    requires IsStore(base) && Inv(s, base)
    ensures var t := Apply(s, base, e).0;
      && KeepsRecords(s.added, t.added)
      && |t.added| <= |s.added| + 1
      && (|t.added| > |s.added| ==>
            && (e.Created? || e.Renamed?) && IsNewRecord(t.added[|s.added|], s, base, e)
            && e.frn in t.frns && t.frns[e.frn] == |s.added|)
  {
    hide ParentNames, Create, Delete, Seen, Inv, KeepsRecords, Stood, MetadataOf, RenameDone;
    NothingAdded(s.added);
    match e {
      case Created(frn, parentFrn, name, isDir, mtimeSecs) =>
        CreateAdds(s, base, frn, parentFrn, name, Meta(isDir, mtimeSecs, 0, false));
        StoodItself(s, base, frn);
        DeadIsNotInDelta(s, base, frn, parentFrn, name, Meta(isDir, mtimeSecs, 0, false));
      case Deleted(frn) =>
        DeleteStands(s, base, frn, frn);
      case Renamed(frn, parentFrn, name) =>
        MetadataSeen(s, base, frn);
        DeleteStands(s, base, frn, parentFrn);
        DeleteSees(s, base, frn, frn);
        if MetadataOf(s, base, frn).Some? {
          var d := Delete(s, base, frn);
          CreateAdds(d, base, frn, parentFrn, name, MetadataOf(s, base, frn).value);
          KeptTwice(s.added, d.added, Create(d, base, frn, parentFrn, name, MetadataOf(s, base, frn).value).0.added);
          MetaInside(base, frn);
        }
      case Modified =>
    }
  }

  lemma NothingAdded(added: seq<DeltaRecord>)
    ensures KeepsRecords(added, added)
  {
  }

  lemma KeptTwice(a: seq<DeltaRecord>, b: seq<DeltaRecord>, c: seq<DeltaRecord>)
    requires KeepsRecords(a, b) && KeepsRecords(b, c)
    ensures KeepsRecords(a, c)
  {
  }

  lemma MetaInside(base: BaseStore, frn: Frn)
    requires IsStore(base)
    ensures Lookup(base, frn).Some? ==> Lookup(base, frn).value < |base.meta|
  {
  }

  lemma StoodItself(s: State, base: BaseStore, frn: Frn)
    requires Inv(s, base)
    ensures !Seen(s, base, frn).InDelta? && Stood(s, base, frn) != Rootless ==>
      Lookup(base, frn).Some? && Stood(s, base, frn) == AtBase(Lookup(base, frn).value)
  {
  }

  lemma DeadIsNotInDelta(s: State, base: BaseStore, frn: Frn, parentFrn: Frn, name: Name, meta: Meta)
    requires IsStore(base) && Inv(s, base)
    ensures |Create(s, base, frn, parentFrn, name, meta).0.added| > |s.added| ==> !Seen(s, base, frn).InDelta?
  {
    hide ParentNames, ResolveParent;
  }

  lemma CreateAdds(s: State, base: BaseStore, frn: Frn, parentFrn: Frn, name: Name, meta: Meta)
    requires IsStore(base) && Inv(s, base)
    ensures var t := Create(s, base, frn, parentFrn, name, meta).0;
      && KeepsRecords(s.added, t.added) && |t.added| <= |s.added| + 1
      && (|t.added| > |s.added| ==>
            && t.added[|s.added|] == DeltaRecord(name, Stood(s, base, parentFrn), meta, true)
            && Stood(s, base, parentFrn) != Rootless
            && frn in t.frns && t.frns[frn] == |s.added|)
  {
    hide ParentNames;
  }

  /** Deleting one FRN moves no other, and sends its own back to its base record. */
  lemma DeleteStands(s: State, base: BaseStore, g: Frn, frn: Frn)
    requires IsStore(base) && Inv(s, base)
    ensures Inv(Delete(s, base, g), base) && KeepsRecords(s.added, Delete(s, base, g).added)
    ensures |Delete(s, base, g).added| == |s.added|
    ensures frn != g ==> Stood(Delete(s, base, g), base, frn) == Stood(s, base, frn)
    ensures frn == g && Stood(Delete(s, base, g), base, frn) != Rootless ==>
      Lookup(base, g).Some? && Stood(Delete(s, base, g), base, frn) == AtBase(Lookup(base, g).value)
  {
    DeleteSees(s, base, g, frn);
    hide ParentNames;
  }

  /** A directory is renamed and a file created in it: the file hangs below the renamed directory, not below the old one. */
  lemma CreatedInRenamedDirectory(name: Name)
    ensures
      var base := BaseStore(2, Some(map[1 := 0, 2 := 1]), [Meta(true, 0, 0, true), Meta(true, 0, 0, true)]);
      var es := [Renamed(2, 1, name), Created(9, 2, name, false, 0)];
      && IsStore(base) && Run(Start(), base, es).1
      && |Run(Start(), base, es).0.added| == 2 && Run(Start(), base, es).0.added[1].parent == AtDelta(0)
  {
    var base := BaseStore(2, Some(map[1 := 0, 2 := 1]), [Meta(true, 0, 0, true), Meta(true, 0, 0, true)]);
    var rename, create := Renamed(2, 1, name), Created(9, 2, name, false, 0);
    assert [rename, create][..1] == [rename];
    assert [rename][..0] == [];
    var first := Apply(Start(), base, rename).0;
    assert Run(Start(), base, [rename][..0]) == (Start(), true);
    assert Run(Start(), base, [rename]) == (first, true);
    assert first.frns == map[2 := 0] && |first.added| == 1;
    assert Run(Start(), base, [rename, create]) == (Apply(first, base, create).0, true);
  }
}
