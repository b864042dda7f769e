/** The watcher and the update worker over a bounded queue (scry-fsevents journal.rs, scry-daemon updates.rs). */
module Journal {
  import opened Records

  const QUEUE_CAP: nat := 16_384

  // ---- the start cursor ------------------------------------------------------------------

  datatype Cursor = Cursor(journalId: nat, firstUsn: nat, nextUsn: nat, volumeSerial: nat)

  datatype CursorError = JournalChanged | JournalAgedOut

  /** validate_replay_cursor. */
  function ValidateReplayCursor(cursor: Cursor, current: Cursor): Option<CursorError> {
    if cursor.volumeSerial != current.volumeSerial || cursor.journalId != current.journalId then Some(JournalChanged)
    else if cursor.nextUsn < current.firstUsn then Some(JournalAgedOut)
    else if cursor.nextUsn > current.nextUsn then Some(JournalChanged)
    else None
  }

  /** A cursor is accepted exactly when the journal still holds everything written after it. */
  lemma TheoremAcceptedCursorLosesNothing(cursor: Cursor, current: Cursor)
    requires current.firstUsn <= current.nextUsn
    ensures ValidateReplayCursor(cursor, current) == None <==>
      && cursor.volumeSerial == current.volumeSerial && cursor.journalId == current.journalId
      && cursor.nextUsn <= current.nextUsn
      && forall usn: nat :: cursor.nextUsn <= usn < current.nextUsn ==> Retained(current, usn)
  {
    if cursor.nextUsn < current.firstUsn {
      assert !Retained(current, cursor.nextUsn);
    }
  }

  predicate Retained(journal: Cursor, usn: nat) {
    journal.firstUsn <= usn < journal.nextUsn
  }

  // ---- the system ------------------------------------------------------------------------

  /**
   * A message names a structural event by its journal position, or reports how far the
   * journal has been read. A cursor `n` stands for "the events below position `n`".
   */
  datatype Msg = Event(pos: nat) | Advanced(next: nat)

  datatype Phase =
    | Idle
    | Collecting(batch: seq<nat>, replay: Option<nat>)
    | Taken(batch: seq<nat>, replay: Option<nat>, full: bool)
    | Rebuilding(cursor: nat)

  /**
   * The journal's length, the watcher (how far it has read and what it has still to send),
   * the queue and its overflow flag, the worker's phase, and the published view: its cursor
   * and the events its base covers or its delta has applied.
   */
  datatype System = System(journal: nat, readPos: nat, sending: seq<Msg>, queue: seq<Msg>, overflow: bool, phase: Phase,
                           next: nat, accounted: set<nat>)

  function Chunk(start: nat, k: nat): (c: seq<Msg>)
    ensures |c| == k && forall i :: 0 <= i < k ==> c[i] == Event(start + i)
  {
    seq(k, i requires i >= 0 => Event(start + i))
  }

  /** collect_change: a cursor replaces the last one, a structural event joins the batch. */
  function Collect(batch: seq<nat>, replay: Option<nat>, m: Msg): Phase {
    match m
    case Event(pos) => Collecting(batch + [pos], replay)
    case Advanced(next) => Collecting(batch, Some(next))
  }

  ghost predicate FileSystemChanges(s: System, t: System) {
    t == s.(journal := s.journal + 1)
  }

  /** One journal read: the events found, then the position reached. */
  ghost predicate WatcherReads(s: System, t: System, k: nat) {
    && s.sending == [] && s.readPos + k <= s.journal
    && t == s.(readPos := s.readPos + k, sending := Chunk(s.readPos, k) + [Advanced(s.readPos + k)])
  }

  ghost predicate WatcherSends(s: System, t: System) {
    && s.sending != [] && |s.queue| < QUEUE_CAP
    && t == s.(sending := s.sending[1..], queue := s.queue + [s.sending[0]])
  }

  /** A full queue drops the message and raises the flag. */
  ghost predicate WatcherDrops(s: System, t: System) {
    && s.sending != [] && |s.queue| >= QUEUE_CAP
    && t == s.(sending := s.sending[1..], overflow := true)
  }

  ghost predicate WorkerReceives(s: System, t: System) {
    && s.queue != [] && (s.phase.Idle? || s.phase.Collecting?)
    && t == s.(queue := s.queue[1..],
               phase := if s.phase.Idle? then Collect([], None, s.queue[0]) else Collect(s.phase.batch, s.phase.replay, s.queue[0]))
  }

  /** take_overflow: reads and clears the flag. With nothing to do the worker goes back to waiting. */
  ghost predicate WorkerTakes(s: System, t: System) {
    && s.phase.Collecting?
    && t == s.(overflow := false,
               phase := if s.phase.batch == [] && s.phase.replay.None? && !s.overflow then Idle
                        else Taken(s.phase.batch, s.phase.replay, s.overflow))
  }

  /** Every event of the batch applies; the view is published with the last cursor received. */
  ghost predicate WorkerPublishes(s: System, t: System) {
    && s.phase.Taken? && !s.phase.full
    && t == s.(phase := Idle, accounted := s.accounted + (set p | p in s.phase.batch),
               next := if s.phase.replay.Some? then s.phase.replay.value else s.next)
  }

  /** Some event needs a full reindex. */
  ghost predicate WorkerGivesUp(s: System, t: System) {
    s.phase.Taken? && !s.phase.full && t == s.(phase := Taken(s.phase.batch, s.phase.replay, true))
  }

  /** build_view captures the cursor before it enumerates. */
  ghost predicate WorkerStartsRebuild(s: System, t: System) {
    s.phase.Taken? && s.phase.full && t == s.(phase := Rebuilding(s.journal))
  }

  /** The enumeration covers at least everything before it began. If the cursor could not be read, the view carries none. */
  ghost predicate WorkerFinishesRebuild(s: System, t: System, covered: set<nat>) {
    && s.phase.Rebuilding?
    && (forall p: nat :: p < s.phase.cursor ==> p in covered) && (forall p :: p in covered ==> p < s.journal)
    && (t.next == s.phase.cursor || t.next == 0)
    && t == s.(phase := Idle, next := t.next, accounted := covered)
  }

  /** A failing build_view is only logged: the batch is gone and the old view stays. */
  ghost predicate WorkerRebuildFails(s: System, t: System) {
    s.phase.Rebuilding? && t == s.(phase := Idle)
  }

  /** One step of any of the three; a failed rebuild is not among them. */
  ghost predicate Step(s: System, t: System) {
    || FileSystemChanges(s, t)
    || (exists k: nat :: WatcherReads(s, t, k))
    || WatcherSends(s, t)
    || WatcherDrops(s, t)
    || WorkerReceives(s, t)
    || WorkerTakes(s, t)
    || WorkerPublishes(s, t)
    || WorkerGivesUp(s, t)
    || WorkerStartsRebuild(s, t)
    || (exists covered: set<nat> :: WorkerFinishesRebuild(s, t, covered))
  }

  /** The watcher starts at the cursor of the view that is published. */
  ghost predicate Initial(s: System) {
    && s.sending == [] && s.queue == [] && !s.overflow && s.phase == Idle
    && s.readPos == s.next <= s.journal
    && (forall p: nat :: p < s.next ==> p in s.accounted) && forall p :: p in s.accounted ==> p < s.journal
  }

  ghost predicate StepOrFailure(s: System, t: System) {
    Step(s, t) || WorkerRebuildFails(s, t)
  }

  ghost predicate IsRun(run: seq<System>) {
    run != [] && Initial(run[0]) && forall i :: 0 <= i < |run| - 1 ==> Step(run[i], run[i + 1])
  }

  ghost predicate IsRunWithFailures(run: seq<System>) {
    run != [] && Initial(run[0]) && forall i :: 0 <= i < |run| - 1 ==> StepOrFailure(run[i], run[i + 1])
  }

  // ---- what failed rebuilds drop -----------------------------------------------------------

  /**
   * A system with the history of its losses: events the full queue turned away since the flag
   * was last taken, events only a due or running rebuild can bring back, and events whose
   * rebuild failed.
   */
  datatype Traced = Traced(s: System, overflowed: set<nat>, atRisk: set<nat>, dropped: set<nat>)

  function Named(m: Msg): set<nat> {
    match m case Event(pos) => {pos} case Advanced(_) => {}
  }

  ghost function InBatch(batch: seq<nat>): set<nat> {
    set p | p in batch
  }

  /** A failed rebuild drops what it was to bring back and the view does not have; a successful one covers everything dropped so far. */
  ghost function After(a: Traced, t: System): Traced {
    if WatcherDrops(a.s, t) then a.(s := t, overflowed := a.overflowed + Named(a.s.sending[0]))
    else if WorkerTakes(a.s, t) then a.(s := t, atRisk := a.overflowed, overflowed := {})
    else if WorkerStartsRebuild(a.s, t) then a.(s := t, atRisk := a.atRisk + InBatch(a.s.phase.batch))
    else if exists covered :: WorkerFinishesRebuild(a.s, t, covered) then a.(s := t, atRisk := {}, dropped := {})
    else if WorkerRebuildFails(a.s, t) then a.(s := t, atRisk := {}, dropped := a.dropped + (a.atRisk - a.s.accounted))
    else a.(s := t)
  }

  /** The history of the first `k` steps of a run. */
  ghost function TraceOf(run: seq<System>, k: nat): (a: Traced)
    requires k < |run|
    ensures a.s == run[k]
  {
    if k == 0 then Traced(run[0], {}, {}, {}) else After(TraceOf(run, k - 1), run[k])
  }

  // ---- the invariant ---------------------------------------------------------------------

  /** The published cursor is never past an event that is neither applied nor covered. */
  ghost predicate Safe(s: System) {
    forall p: nat :: p < s.next ==> p in s.accounted
  }

  function Batch(s: System): seq<nat> {
    if s.phase.Collecting? || s.phase.Taken? then s.phase.batch else []
  }

  function Stream(s: System): seq<Msg> {
    s.queue + s.sending
  }

  /** `p` is in the view, collected, waiting for a rebuild, or dropped. */
  ghost predicate Settled(a: Traced, p: nat) {
    p in a.s.accounted || p in Batch(a.s) || p in a.overflowed || p in a.atRisk || p in a.dropped
  }

  /** Whatever the published cursor is past is in the view or dropped. */
  ghost predicate Published(a: Traced) {
    forall p: nat :: p < a.s.next ==> p in a.s.accounted || p in a.dropped
  }

  /** No read event is lost without trace. */
  ghost predicate NothingLost(a: Traced) {
    forall p: nat :: p < a.s.readPos ==> Settled(a, p) || Event(p) in Stream(a.s)
  }

  /** Every event below a cursor message is settled or comes before it. */
  ghost predicate CursorsFollow(a: Traced) {
    forall i, p: nat :: 0 <= i < |Stream(a.s)| && Stream(a.s)[i].Advanced? && p < Stream(a.s)[i].next ==>
      Settled(a, p) || Event(p) in Stream(a.s)[..i]
  }

  /** Every event below the collected cursor is settled; once the flag was found clear, in the view, the batch, or dropped. */
  ghost predicate ReplayFollows(a: Traced) {
    && (a.s.phase.Collecting? && a.s.phase.replay.Some? ==> forall p: nat :: p < a.s.phase.replay.value ==> Settled(a, p))
    && (a.s.phase.Taken? && !a.s.phase.full && a.s.phase.replay.Some? ==>
          forall p: nat :: p < a.s.phase.replay.value ==> p in a.s.accounted || p in a.s.phase.batch || p in a.dropped)
  }

  /** Lost events were read and are nowhere on their way, and dropped ones are not in the view. */
  ghost predicate Gone(a: Traced) {
    && (forall p :: p in a.overflowed || p in a.atRisk || p in a.dropped ==> p < a.s.readPos && !OnItsWay(a.s, p))
    && forall p :: p in a.dropped ==> p !in a.s.accounted
  }

  ghost predicate OnItsWay(s: System, p: nat) {
    Event(p) in Stream(s) || p in Batch(s)
  }

  /** A loss by overflow is flagged, and a flag once taken means a rebuild. */
  ghost predicate Flagged(a: Traced) {
    && (!a.s.overflow ==> a.overflowed == {})
    && (a.s.phase.Idle? || a.s.phase.Collecting? || (a.s.phase.Taken? && !a.s.phase.full) ==> a.atRisk == {})
    && (a.s.phase.Rebuilding? ==> forall p :: p in a.atRisk || p in a.dropped ==> p < a.s.phase.cursor)
  }

  /** Events travel in journal order, behind the batch. */
  ghost predicate InOrder(s: System) {
    && Increasing(Stream(s))
    && forall p, m :: p in Batch(s) && m in Stream(s) && m.Event? ==> p < m.pos
  }

  ghost predicate Increasing(stream: seq<Msg>) {
    forall i, j :: 0 <= i < j < |stream| && stream[i].Event? && stream[j].Event? ==> stream[i].pos < stream[j].pos
  }

  ghost predicate AllBelow(batch: seq<nat>, n: nat) {
    forall p :: p in batch ==> p < n
  }

  ghost predicate WasRead(m: Msg, readPos: nat) {
    if m.Event? then m.pos < readPos else m.next <= readPos
  }

  ghost predicate InJournal(s: System) {
    && s.readPos <= s.journal
    && (forall p :: p in s.accounted ==> p < s.journal)
    && (forall m :: m in Stream(s) ==> WasRead(m, s.readPos))
    && AllBelow(Batch(s), s.readPos)
    && (s.phase.Rebuilding? ==> s.phase.cursor <= s.journal && forall p :: p in s.accounted ==> p < s.phase.cursor)
  }

  ghost predicate Inv(a: Traced) {
    && Published(a) && NothingLost(a) && CursorsFollow(a) && ReplayFollows(a)
    && Gone(a) && Flagged(a) && InOrder(a.s) && InJournal(a.s)
  }

  lemma InitialInv(s: System)
    requires Initial(s)
    ensures Inv(Traced(s, {}, {}, {}))
  {
    assert Stream(s) == [];
  }

  lemma SameSettled(a: Traced, b: Traced)
    requires Batch(b.s) == Batch(a.s) && b.s.accounted == a.s.accounted
    requires b.overflowed == a.overflowed && b.atRisk == a.atRisk && b.dropped == a.dropped
    ensures forall p: nat :: Settled(b, p) <==> Settled(a, p)
  {
  }

  lemma ReadsKeep(a: Traced, t: System, k: nat)
    requires Inv(a) && WatcherReads(a.s, t, k)
    ensures Inv(a.(s := t))
  {
    var s, b, chunk := a.s, a.(s := t), Chunk(a.s.readPos, k);
    SameSettled(a, b);
    ReadStream(s, t, k);
    assert Stream(s) == s.queue;
    hide Settled;
    forall p: nat | p < t.readPos ensures Settled(b, p) || Event(p) in s.queue + chunk {
      if p >= s.readPos {
        assert chunk[p - s.readPos] == Event(p);
      } else {
        assert Settled(a, p) || Event(p) in s.queue;
      }
    }
    forall i, p: nat | 0 <= i < |Stream(t)| && Stream(t)[i].Advanced? && p < Stream(t)[i].next
      ensures Settled(b, p) || Event(p) in Stream(t)[..i]
    {
      if i == |s.queue + chunk| {
        assert Stream(t)[..i] == s.queue + chunk;
      } else {
        assert i < |s.queue| && Stream(s)[i] == Stream(t)[i];
        assert Stream(s)[..i] == Stream(t)[..i];
      }
    }
    ReadIsNew(s, t, k);
  }

  lemma ReadStream(s: System, t: System, k: nat)
    requires WatcherReads(s, t, k)
    ensures Stream(t) == s.queue + Chunk(s.readPos, k) + [Advanced(t.readPos)] && Batch(t) == Batch(s)
  {
  }

  /** What is read lies behind everything on its way and everything lost. */
  lemma ReadIsNew(s: System, t: System, k: nat)
    requires WatcherReads(s, t, k) && InOrder(s) && InJournal(s)
    ensures InOrder(t) && InJournal(t)
    ensures forall p: nat :: p < s.readPos && !OnItsWay(s, p) ==> !OnItsWay(t, p)
  {
    ReadStream(s, t, k);
    var chunk := Chunk(s.readPos, k);
    assert Stream(s) == s.queue;
    forall m | m in Stream(t) ensures m in s.queue || (m.Event? && m.pos >= s.readPos) || m == Advanced(t.readPos) {
      if m in chunk {
        var i :| 0 <= i < k && chunk[i] == m;
      }
    }
    forall m | m in Stream(t) ensures WasRead(m, t.readPos) {
      if m in s.queue {
        assert WasRead(m, s.readPos);
      } else if m in chunk {
        var i :| 0 <= i < k && chunk[i] == m;
      }
    }
    forall i, j | 0 <= i < j < |Stream(t)| && Stream(t)[i].Event? && Stream(t)[j].Event? ensures Stream(t)[i].pos < Stream(t)[j].pos {
      if j < |s.queue| {
        assert Stream(s)[i] == Stream(t)[i] && Stream(s)[j] == Stream(t)[j];
      } else if i < |s.queue| {
        assert Stream(s)[i] == Stream(t)[i] && WasRead(Stream(s)[i], s.readPos);
        assert Stream(t)[j] == chunk[j - |s.queue|];
      } else {
        assert Stream(t)[i] == chunk[i - |s.queue|] && Stream(t)[j] == chunk[j - |s.queue|];
      }
    }
  }

  /** Steps that leave stream, batch and history alone. */
  lemma QuietKeeps(a: Traced, t: System)
    requires Inv(a) && (FileSystemChanges(a.s, t) || WatcherSends(a.s, t) || WorkerGivesUp(a.s, t))
    ensures Inv(a.(s := t))
  {
    assert Stream(t) == Stream(a.s) && Batch(t) == Batch(a.s);
    SameSettled(a, a.(s := t));
    hide Settled;
  }

  lemma DropsKeep(a: Traced, t: System)
    requires Inv(a) && WatcherDrops(a.s, t)
    ensures Inv(a.(s := t, overflowed := a.overflowed + Named(a.s.sending[0])))
  {
    var s, b, m := a.s, a.(s := t, overflowed := a.overflowed + Named(a.s.sending[0])), a.s.sending[0];
    var n := |s.queue|;
    assert Stream(s) == s.queue + [m] + t.sending && Stream(t) == s.queue + t.sending;
    assert Stream(s)[n] == m;
    forall p: nat ensures Settled(a, p) || Event(p) == m ==> Settled(b, p) {
    }
    DropShifts(s, t);
    forall i, p: nat | 0 <= i < |Stream(t)| && Stream(t)[i].Advanced? && p < Stream(t)[i].next
      ensures Settled(b, p) || Event(p) in Stream(t)[..i]
    {
      if i < n {
        assert Stream(s)[i] == Stream(t)[i] && Stream(s)[..i] == Stream(t)[..i];
      } else {
        assert Stream(s)[i + 1] == Stream(t)[i];
        assert Stream(s)[..i + 1] == s.queue + [m] + t.sending[..i - n] && Stream(t)[..i] == s.queue + t.sending[..i - n];
      }
    }
  }

  /** The message leaves the stream, and an event with it. */
  lemma DropShifts(s: System, t: System)
    requires WatcherDrops(s, t) && InOrder(s) && InJournal(s)
    ensures InOrder(t) && InJournal(t)
    ensures forall p :: !OnItsWay(s, p) ==> !OnItsWay(t, p)
    ensures forall p :: p in Named(s.sending[0]) ==> p < s.readPos && !OnItsWay(t, p)
    ensures forall x :: x in Stream(s) ==> x in Stream(t) || x == s.sending[0]
  {
    var m, n := s.sending[0], |s.queue|;
    assert Stream(s) == s.queue + [m] + t.sending && Stream(t) == s.queue + t.sending && Batch(t) == Batch(s);
    assert Stream(s)[n] == m;
    forall i | 0 <= i < |Stream(t)| ensures Stream(t)[i] == Stream(s)[if i < n then i else i + 1] {
    }
    if m.Event? {
      assert WasRead(m, s.readPos);
      forall i | 0 <= i < |Stream(t)| ensures Stream(t)[i] != m {
        assert Stream(t)[i] == Stream(s)[if i < n then i else i + 1];
      }
    }
    forall i, j | 0 <= i < j < |Stream(t)| && Stream(t)[i].Event? && Stream(t)[j].Event? ensures Stream(t)[i].pos < Stream(t)[j].pos {
      assert Stream(t)[i] == Stream(s)[if i < n then i else i + 1] && Stream(t)[j] == Stream(s)[if j < n then j else j + 1];
    }
  }

  lemma ReceivesKeep(a: Traced, t: System)
    requires Inv(a) && WorkerReceives(a.s, t)
    ensures Inv(a.(s := t))
  {
    var s, b, m := a.s, a.(s := t), a.s.queue[0];
    assert Stream(s) == [m] + Stream(t) && Stream(s)[0] == m && Stream(s)[..0] == [];
    ReceiveShifts(s, t);
    hide InJournal, InOrder;
    forall p: nat ensures Settled(a, p) || Event(p) == m ==> Settled(b, p) {
    }
    forall i, p: nat | 0 <= i < |Stream(t)| && Stream(t)[i].Advanced? && p < Stream(t)[i].next
      ensures Settled(b, p) || Event(p) in Stream(t)[..i]
    {
      assert Stream(s)[i + 1] == Stream(t)[i];
      assert Stream(s)[..i + 1] == [m] + Stream(t)[..i];
    }
  }

  /** The head of the queue joins the batch, if it is an event. */
  lemma ReceiveShifts(s: System, t: System)
    requires WorkerReceives(s, t) && InOrder(s) && InJournal(s)
    ensures Batch(t) == if s.queue[0].Event? then Batch(s) + [s.queue[0].pos] else Batch(s)
    ensures InOrder(t) && InJournal(t)
    ensures forall p :: !OnItsWay(s, p) ==> !OnItsWay(t, p)
  {
    var m := s.queue[0];
    assert Stream(s) == [m] + Stream(t) && Stream(s)[0] == m;
    assert WasRead(m, s.readPos);
    forall i | 0 <= i < |Stream(t)| ensures Stream(t)[i] == Stream(s)[i + 1] {
    }
    forall x | x in Stream(t) && x.Event? && m.Event? ensures m.pos < x.pos {
      var i :| 0 <= i < |Stream(t)| && Stream(t)[i] == x;
      assert Stream(s)[i + 1] == x;
    }
    forall i, j | 0 <= i < j < |Stream(t)| && Stream(t)[i].Event? && Stream(t)[j].Event? ensures Stream(t)[i].pos < Stream(t)[j].pos {
      assert Stream(s)[i + 1] == Stream(t)[i] && Stream(s)[j + 1] == Stream(t)[j];
    }
  }

  lemma TakesKeep(a: Traced, t: System)
    requires Inv(a) && WorkerTakes(a.s, t)
    ensures Inv(a.(s := t, atRisk := a.overflowed, overflowed := {}))
  {
    var b := a.(s := t, atRisk := a.overflowed, overflowed := {});
    assert Stream(t) == Stream(a.s) && Batch(t) == Batch(a.s);
    forall p: nat ensures Settled(b, p) <==> Settled(a, p) {
    }
    if t.phase.Taken? && !t.phase.full && t.phase.replay.Some? {
      forall p: nat | p < t.phase.replay.value ensures p in t.accounted || p in t.phase.batch || p in b.dropped {
        assert Settled(a, p);
      }
    }
  }

  lemma PublishesKeep(a: Traced, t: System)
    requires Inv(a) && WorkerPublishes(a.s, t)
    ensures Inv(a.(s := t))
  {
    var b := a.(s := t);
    assert Stream(t) == Stream(a.s) && Batch(a.s) == a.s.phase.batch;
    forall p: nat ensures Settled(a, p) ==> Settled(b, p) {
    }
    forall p | p in b.dropped ensures p !in t.accounted {
      assert !OnItsWay(a.s, p);
    }
  }

  lemma StartsKeep(a: Traced, t: System)
    requires Inv(a) && WorkerStartsRebuild(a.s, t)
    ensures Inv(a.(s := t, atRisk := a.atRisk + InBatch(a.s.phase.batch)))
  {
    var b := a.(s := t, atRisk := a.atRisk + InBatch(a.s.phase.batch));
    assert Stream(t) == Stream(a.s) && Batch(a.s) == a.s.phase.batch && Batch(t) == [];
    forall p: nat ensures Settled(b, p) <==> Settled(a, p) {
    }
    forall p | p in a.s.phase.batch ensures !OnItsWay(t, p) {
    }
    forall p | !OnItsWay(a.s, p) ensures !OnItsWay(t, p) {
    }
  }

  lemma FinishesKeep(a: Traced, t: System, covered: set<nat>)
    requires Inv(a) && WorkerFinishesRebuild(a.s, t, covered)
    ensures Inv(a.(s := t, atRisk := {}, dropped := {}))
  {
    var b := a.(s := t, atRisk := {}, dropped := {});
    assert Stream(t) == Stream(a.s) && Batch(t) == Batch(a.s) == [];
    forall p: nat ensures Settled(a, p) ==> Settled(b, p) {
    }
  }

  lemma FailsKeep(a: Traced, t: System)
    requires Inv(a) && WorkerRebuildFails(a.s, t)
    ensures Inv(a.(s := t, atRisk := {}, dropped := a.dropped + (a.atRisk - a.s.accounted)))
  {
    var b := a.(s := t, atRisk := {}, dropped := a.dropped + (a.atRisk - a.s.accounted));
    assert Stream(t) == Stream(a.s) && Batch(t) == Batch(a.s) == [];
    forall p: nat ensures Settled(b, p) <==> Settled(a, p) {
    }
  }

  lemma StepKeeps(a: Traced, t: System)
    requires Inv(a) && StepOrFailure(a.s, t)
    ensures Inv(After(a, t))
  {
    hide Inv;
    if WatcherDrops(a.s, t) {
      DropsKeep(a, t);
    } else if WorkerTakes(a.s, t) {
      TakesKeep(a, t);
    } else if WorkerStartsRebuild(a.s, t) {
      StartsKeep(a, t);
    } else if covered :| WorkerFinishesRebuild(a.s, t, covered) {
      FinishesKeep(a, t, covered);
    } else if WorkerRebuildFails(a.s, t) {
      FailsKeep(a, t);
    } else if WorkerPublishes(a.s, t) {
      PublishesKeep(a, t);
    } else if WorkerReceives(a.s, t) {
      ReceivesKeep(a, t);
    } else if k: nat :| WatcherReads(a.s, t, k) {
      ReadsKeep(a, t, k);
    } else {
      QuietKeeps(a, t);
    }
  }

  lemma {:induction false} RunKeepsInv(run: seq<System>, k: nat)
    requires IsRunWithFailures(run) && k < |run|
    ensures Inv(TraceOf(run, k))
  {
    hide StepOrFailure, Inv, Initial, After;
    if k == 0 {
      InitialInv(run[0]);
    } else {
      RunKeepsInv(run, k - 1);
      StepKeeps(TraceOf(run, k - 1), run[k]);
    }
  }

  // ---- delivery safety -------------------------------------------------------------------

  ghost predicate NoneDroppedBelow(a: Traced, cursor: nat) {
    forall p :: p in a.dropped ==> cursor <= p
  }

  /**
   * In every interleaving, rebuilds failing or not, the published view is safe if and only if
   * its cursor has not passed an event that a failed rebuild dropped.
   */
  lemma TheoremSafeUnlessDropped(run: seq<System>, k: nat)
    requires IsRunWithFailures(run) && k < |run|
    ensures Safe(run[k]) <==> NoneDroppedBelow(TraceOf(run, k), run[k].next)
  {
    RunKeepsInv(run, k);
    SafeUnlessDropped(TraceOf(run, k));
  }

  lemma SafeUnlessDropped(a: Traced)
    requires Inv(a)
    ensures Safe(a.s) <==> NoneDroppedBelow(a, a.s.next)
  {
  }

  /** Publishing keeps a safe view safe if and only if the collected cursor is not past a dropped event. */
  lemma TheoremSafePublish(run: seq<System>, k: nat)
    requires IsRunWithFailures(run) && k + 1 < |run| && Safe(run[k])
    requires WorkerPublishes(run[k], run[k + 1]) && run[k].phase.replay.Some?
    ensures Safe(run[k + 1]) <==> NoneDroppedBelow(TraceOf(run, k), run[k].phase.replay.value)
  {
    hide After, IsRunWithFailures, Safe;
    var before := TraceOf(run, k);
    assert TraceOf(run, k + 1) == After(before, run[k + 1]);
    TheoremSafeUnlessDropped(run, k + 1);
    PublishingDropsNothing(before, run[k + 1]);
  }

  lemma PublishingDropsNothing(a: Traced, t: System)
    requires WorkerPublishes(a.s, t)
    ensures After(a, t) == a.(s := t)
  {
  }

  /** Without a failure nothing is ever dropped. */
  lemma {:induction false} NothingDropped(run: seq<System>, k: nat)
    requires IsRun(run) && k < |run|
    ensures TraceOf(run, k).dropped == {}
  {
    if k > 0 {
      NothingDropped(run, k - 1);
      hide Initial;
      FailureIsNoStep(run[k - 1], run[k]);
    }
  }

  lemma FailureIsNoStep(s: System, t: System)
    requires Step(s, t)
    ensures WorkerRebuildFails(s, t) ==> exists covered :: WorkerFinishesRebuild(s, t, covered)
  {
  }

  lemma StepsAreEither(run: seq<System>)
    requires IsRun(run)
    ensures IsRunWithFailures(run)
  {
    hide Step, Initial;
  }

  /** So where rebuilds succeed, no published view carries a cursor past an unaccounted structural event. */
  lemma TheoremDeliverySafety(run: seq<System>, k: nat)
    requires IsRun(run) && k < |run|
    ensures Safe(run[k])
  {
    StepsAreEither(run);
    NothingDropped(run, k);
    TheoremSafeUnlessDropped(run, k);
  }

  /** Once everything written has been read, delivered and digested, the view lacks exactly what was dropped. */
  lemma TheoremQuietViewLacksDropped(run: seq<System>, k: nat)
    requires IsRunWithFailures(run) && k < |run|
    requires run[k].readPos == run[k].journal && Stream(run[k]) == [] && run[k].phase.Idle? && !run[k].overflow
    ensures forall p: nat :: p < run[k].journal && p !in TraceOf(run, k).dropped <==> p in run[k].accounted
  {
    RunKeepsInv(run, k);
    QuietLacksDropped(TraceOf(run, k));
  }

  lemma QuietLacksDropped(a: Traced)
    requires Inv(a) && a.s.readPos == a.s.journal && Stream(a.s) == [] && a.s.phase.Idle? && !a.s.overflow
    ensures forall p: nat :: p < a.s.journal && p !in a.dropped <==> p in a.s.accounted
  {
    forall p: nat | p < a.s.journal ensures p in a.s.accounted || p in a.dropped {
      assert Settled(a, p);
    }
  }

  // ---- which cursor is carried ---------------------------------------------------------------

  /** The last cursor of a stream, or the one before it. */
  function LastIn(stream: seq<Msg>, before: nat): nat {
    if stream == [] then before
    else if stream[|stream| - 1].Advanced? then stream[|stream| - 1].next
    else LastIn(stream[..|stream| - 1], before)
  }

  /** The cursor the worker holds: the one it collected, else the published one. */
  function Held(s: System): nat {
    if (s.phase.Collecting? || s.phase.Taken?) && s.phase.replay.Some? then s.phase.replay.value else s.next
  }

  lemma {:induction false} LastInAppend(stream: seq<Msg>, more: seq<Msg>, before: nat)
    ensures LastIn(stream + more, before) == LastIn(more, LastIn(stream, before))
  {
    if more == [] {
      assert stream + more == stream;
    } else {
      var n := |more| - 1;
      assert (stream + more)[..|stream| + n] == stream + more[..n];
      LastInAppend(stream, more[..n], before);
    }
  }

  /** A step without loss: nothing dropped by the queue, no rebuild begun. */
  ghost predicate SmoothStep(s: System, t: System) {
    Step(s, t) && !WatcherDrops(s, t) && !WorkerStartsRebuild(s, t)
  }

  ghost predicate UpToDate(s: System) {
    !s.phase.Rebuilding? && LastIn(Stream(s), Held(s)) == s.readPos
  }

  lemma SmoothKeeps(s: System, t: System)
    requires UpToDate(s) && SmoothStep(s, t)
    ensures UpToDate(t)
  {
    hide UpToDate;
    if k: nat :| WatcherReads(s, t, k) {
      ReadsUpToDate(s, t, k);
    } else if WorkerReceives(s, t) {
      ReceivesUpToDate(s, t);
    } else {
      NeitherUpToDate(s, t);
    }
  }

  lemma ReadsUpToDate(s: System, t: System, k: nat)
    requires UpToDate(s) && WatcherReads(s, t, k)
    ensures UpToDate(t)
  {
    ReadStream(s, t, k);
    LastInAppend(s.queue + Chunk(s.readPos, k), [Advanced(t.readPos)], Held(t));
  }

  lemma ReceivesUpToDate(s: System, t: System)
    requires UpToDate(s) && WorkerReceives(s, t)
    ensures UpToDate(t)
  {
    assert Stream(s) == [s.queue[0]] + Stream(t);
    LastInAppend([s.queue[0]], Stream(t), Held(s));
  }

  lemma NeitherUpToDate(s: System, t: System)
    requires UpToDate(s) && SmoothStep(s, t) && !WorkerReceives(s, t) && forall k: nat :: !WatcherReads(s, t, k)
    ensures UpToDate(t)
  {
    hide LastIn;
    assert Stream(t) == Stream(s);
  }

  lemma {:induction false} RunUpToDate(run: seq<System>, k: nat)
    requires IsRun(run) && k < |run| && forall i: nat :: i < k ==> SmoothStep(run[i], run[i + 1])
    ensures UpToDate(run[k])
  {
    hide SmoothStep, Step;
    if k == 0 {
      assert Stream(run[0]) == [];
    } else {
      RunUpToDate(run, k - 1);
      SmoothKeeps(run[k - 1], run[k]);
    }
  }

  /** Where nothing overflowed and nothing was rebuilt, a quiet view carries the last cursor the watcher reached. */
  lemma TheoremQuietCursor(run: seq<System>, k: nat)
    requires IsRun(run) && k < |run| && forall i: nat :: i < k ==> SmoothStep(run[i], run[i + 1])
    requires Stream(run[k]) == [] && run[k].phase.Idle?
    ensures run[k].next == run[k].readPos
  {
    RunUpToDate(run, k);
  }

  // ---- a failing run ---------------------------------------------------------------------

  /** One event that needs a reindex, whose rebuild fails; the cursor sent after it is still published. */
  function FailingRun(): seq<System> {
    var start := System(0, 0, [], [], false, Idle, 0, {});
    var read := System(1, 1, [Event(0), Advanced(1)], [], false, Idle, 0, {});
    var sent := read.(sending := [], queue := [Event(0), Advanced(1)]);
    var got := sent.(queue := [Advanced(1)], phase := Collecting([0], None));
    var late := got.(queue := [], phase := Collecting([], Some(1)));
    [start, start.(journal := 1), read, read.(sending := [Advanced(1)], queue := [Event(0)]), sent,
     got, got.(phase := Taken([0], None, false)), got.(phase := Taken([0], None, true)), got.(phase := Rebuilding(1)),
     got.(phase := Idle), late, late.(phase := Taken([], Some(1), false)), late.(phase := Idle, next := 1)]
  }

  lemma FirstEventIsCollected()
    ensures Collect([], None, Event(0)) == Collecting([0], None)
  {
    var none: seq<nat> := [];
    assert none + [0] == [0];
  }

  lemma FailingRunDelivers()
    ensures var run := FailingRun();
            Initial(run[0]) && forall i :: 0 <= i < 5 ==> Step(run[i], run[i + 1])
  {
    var run := FailingRun();
    assert FileSystemChanges(run[0], run[1]);
    assert Chunk(0, 1) == [Event(0)];
    assert WatcherReads(run[1], run[2], 1);
    assert WatcherSends(run[2], run[3]) && WatcherSends(run[3], run[4]);
    assert run[4].queue[1..] == [Advanced(1)];
    FirstEventIsCollected();
    assert WorkerReceives(run[4], run[5]);
  }

  lemma FailingRunForgets()
    ensures var run := FailingRun();
            (forall i :: 5 <= i < 8 ==> Step(run[i], run[i + 1])) && WorkerRebuildFails(run[8], run[9])
  {
    var run := FailingRun();
    assert WorkerTakes(run[5], run[6]);
    assert WorkerGivesUp(run[6], run[7]);
    assert WorkerStartsRebuild(run[7], run[8]);
  }

  lemma FailingRunPublishes()
    ensures var run := FailingRun();
            (forall i :: 9 <= i < 12 ==> Step(run[i], run[i + 1])) && !Safe(run[12])
  {
    var run := FailingRun();
    assert run[9].queue[1..] == [];
    assert WorkerReceives(run[9], run[10]);
    assert WorkerTakes(run[10], run[11]);
    assert (set p | p in run[11].phase.batch) == {};
    assert WorkerPublishes(run[11], run[12]);
    assert 0 < run[12].next && 0 !in run[12].accounted;
  }

  lemma FailedRebuildLosesAnEvent()
    ensures IsRunWithFailures(FailingRun()) && !Safe(FailingRun()[|FailingRun()| - 1])
  {
    hide Step, WorkerRebuildFails, Initial, Safe;
    FailingRunDelivers();
    FailingRunForgets();
    FailingRunPublishes();
    assert |FailingRun()| == 13;
  }
}
