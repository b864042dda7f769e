/** Latest-wins requests on one connection (scry-daemon rpc.rs, scry-client session.rs). */
module LatestWins {
  import opened Records

  const GENERATIONS: nat := 0x1_0000_0000_0000_0000

  // ---- the connection ----------------------------------------------------------------------

  /** The answer to request `id`; a cancelled one is the empty answer of an abandoned search. */
  datatype Reply = Reply(id: nat, cancelled: bool)

  datatype Server =
    | Waiting
    | Reading(id: nat)
    | HasRead(id: nat)
    | Searching(id: nat, expected: nat, saw: bool)

  /** The peeker holds the observation lock from its peek until it has published what it saw. */
  datatype Peeker = Free | Holding(sawBytes: bool)

  /**
   * The client has completed `sent` well-formed requests, numbered from 0, is possibly in the
   * middle of writing the next one, still expects `pending` replies and has read `received`.
   * `requests` and `replies` are the frames in the two directions of the pipe.
   */
  datatype System = System(sent: nat, writing: bool, pending: nat, received: seq<Reply>, requests: seq<nat>, server: Server,
                           generation: nat, peeker: Peeker, replies: seq<Reply>)

  ghost predicate ClientStartsWrite(s: System, t: System) {
    !s.writing && t == s.(writing := true)
  }

  ghost predicate ClientFinishesWrite(s: System, t: System) {
    && s.writing
    && t == s.(writing := false, sent := s.sent + 1, pending := s.pending + 1, requests := s.requests + [s.sent])
  }

  /** One read_frame of recv_interactive or try_recv_interactive. */
  ghost predicate ClientReads(s: System, t: System) {
    && !s.writing && s.pending > 0 && s.replies != []
    && t == s.(pending := s.pending - 1, received := s.received + [s.replies[0]], replies := s.replies[1..])
  }

  ghost predicate ServerStartsRead(s: System, t: System) {
    && s.server.Waiting? && s.requests != []
    && t == s.(requests := s.requests[1..], server := Reading(s.requests[0]))
  }

  ghost predicate ServerFinishesRead(s: System, t: System) {
    s.server.Reading? && t == s.(server := HasRead(s.server.id))
  }

  /** begin_request without its lock. */
  ghost predicate ServerBeginsUnlocked(s: System, t: System) {
    s.server.HasRead? && t == s.(server := Searching(s.server.id, s.generation, false))
  }

  ghost predicate ServerBegins(s: System, t: System) {
    s.peeker.Free? && ServerBeginsUnlocked(s, t)
  }

  /** A poll of the cancellation flag by the search. */
  ghost predicate ServerPolls(s: System, t: System) {
    && s.server.Searching?
    && t == s.(server := s.server.(saw := s.server.saw || s.generation != s.server.expected))
  }

  ghost predicate ServerReplies(s: System, t: System) {
    && s.server.Searching?
    && t == s.(server := Waiting, replies := s.replies + [Reply(s.server.id, s.server.saw)])
  }

  /**
   * The lock is taken and the pipe peeked. A whole frame is always seen; bytes of a frame
   * still being written or still being read may be.
   */
  ghost predicate PeekerPeeks(s: System, t: System, saw: bool) {
    && s.peeker.Free?
    && (s.requests != [] ==> saw)
    && (saw ==> s.requests != [] || s.writing || s.server.Reading?)
    && t == s.(peeker := Holding(saw))
  }

  ghost predicate PeekerPublishes(s: System, t: System) {
    && s.peeker.Holding?
    && t == s.(peeker := Free, generation := if s.peeker.sawBytes then (s.generation + 1) % GENERATIONS else s.generation)
  }

  ghost predicate ServerStep(s: System, t: System) {
    || ServerStartsRead(s, t)
    || ServerFinishesRead(s, t)
    || ServerBegins(s, t)
    || ServerPolls(s, t)
    || ServerReplies(s, t)
    || PeekerPublishes(s, t)
    || PeekerPeeks(s, t, false)
    || PeekerPeeks(s, t, true)
  }

  ghost predicate ClientStep(s: System, t: System) {
    ClientStartsWrite(s, t) || ClientFinishesWrite(s, t) || ClientReads(s, t)
  }

  ghost predicate Step(s: System, t: System) {
    ServerStep(s, t) || ClientStep(s, t)
  }

  function Initial(): System {
    System(0, false, 0, [], [], Waiting, 0, Free, [])
  }

  ghost predicate IsRun(run: seq<System>) {
    run != [] && run[0] == Initial() && forall i :: 0 <= i < |run| - 1 ==> Step(run[i], run[i + 1])
  }

  // ---- one reply to each request, in order ---------------------------------------------------

  function Ids(replies: seq<Reply>): (ids: seq<nat>)
    ensures |ids| == |replies| && forall i :: 0 <= i < |ids| ==> ids[i] == replies[i].id
  {
    seq(|replies|, i requires 0 <= i < |replies| => replies[i].id)
  }

  function Current(server: Server): seq<nat> {
    if server.Waiting? then [] else [server.id]
  }

  /** Every request, in the order in which the client will have read its reply. */
  function Order(s: System): seq<nat> {
    Ids(s.received) + Ids(s.replies) + Current(s.server) + s.requests
  }

  predicate Counts(ids: seq<nat>, n: nat) {
    |ids| == n && forall i :: 0 <= i < n ==> ids[i] == i
  }

  ghost predicate OneToOne(s: System) {
    && Counts(Order(s), s.sent)
    && |s.received| + s.pending == s.sent
  }

  // ---- only a superseded request is cancelled ------------------------------------------------

  /** The client has at least begun to write a newer request. */
  predicate Superseded(s: System, id: nat) {
    id + 1 < (if s.writing then s.sent + 1 else s.sent)
  }

  predicate Justified(s: System, replies: seq<Reply>) {
    forall i :: 0 <= i < |replies| && replies[i].cancelled ==> Superseded(s, replies[i].id)
  }

  predicate SearchJustified(s: System) {
    s.server.Searching? && (s.server.saw || s.generation != s.server.expected || s.peeker == Holding(true)) ==>
      Superseded(s, s.server.id)
  }

  ghost predicate Inv(s: System) {
    OneToOne(s) && Justified(s, s.received) && Justified(s, s.replies) && SearchJustified(s)
  }

  lemma AppendIds(a: seq<Reply>, b: seq<Reply>)
    ensures Ids(a + b) == Ids(a) + Ids(b)
  {
  }

  lemma ReadKeepsOrder(s: System, t: System)
    requires ClientReads(s, t)
    ensures Order(t) == Order(s)
  {
    MoveHead(s.received, s.replies);
  }

  lemma MoveHead(a: seq<Reply>, b: seq<Reply>)
    requires b != []
    ensures Ids(a + [b[0]]) + Ids(b[1..]) == Ids(a) + Ids(b)
  {
    hide *;
    HeadTail(b);
    AppendIds(a, [b[0]]);
    AppendIds([b[0]], b[1..]);
    Assoc(Ids(a), Ids([b[0]]), Ids(b[1..]));
  }

  lemma HeadTail(b: seq<Reply>)
    requires b != []
    ensures [b[0]] + b[1..] == b
  {
  }

  lemma Assoc(a: seq<nat>, b: seq<nat>, c: seq<nat>)
    ensures (a + b) + c == a + (b + c)
  {
  }

  lemma ReplyKeepsOrder(s: System, t: System)
    requires ServerReplies(s, t)
    ensures Order(t) == Order(s)
  {
    AppendIds(s.replies, [Reply(s.server.id, s.server.saw)]);
    assert Ids(t.replies) == Ids(s.replies) + Current(s.server);
  }

  lemma StartKeepsOrder(s: System, t: System)
    requires ServerStartsRead(s, t)
    ensures Order(t) == Order(s)
  {
    assert s.requests == Current(t.server) + t.requests;
  }

  lemma SameOrder(s: System, t: System)
    requires Step(s, t) && !ClientFinishesWrite(s, t)
    ensures Order(t) == Order(s) && |t.received| + t.pending == |s.received| + s.pending && t.sent == s.sent
  {
    if ClientReads(s, t) {
      hide Order;
      ReadKeepsOrder(s, t);
    } else if ServerStartsRead(s, t) {
      hide Order;
      StartKeepsOrder(s, t);
    } else if ServerReplies(s, t) {
      hide Order;
      ReplyKeepsOrder(s, t);
    }
  }

  lemma WriteExtendsOrder(s: System, t: System)
    requires OneToOne(s) && ClientFinishesWrite(s, t)
    ensures OneToOne(t)
  {
    assert Order(t) == Order(s) + [s.sent];
  }

  lemma OneToOneKept(s: System, t: System)
    requires OneToOne(s) && Step(s, t)
    ensures OneToOne(t)
  {
    if ClientFinishesWrite(s, t) {
      WriteExtendsOrder(s, t);
    } else {
      SameOrder(s, t);
    }
  }

  /** Bytes seen during a search belong to a newer request, its own frame having been read in full. */
  lemma PeekIsJustified(s: System, t: System, saw: bool)
    requires Inv(s) && PeekerPeeks(s, t, saw)
    ensures SearchJustified(t)
  {
    if saw && s.server.Searching? {
      var before := Ids(s.received) + Ids(s.replies);
      assert Order(s) == before + [s.server.id] + s.requests;
      assert Order(s)[|before|] == s.server.id;
      assert s.server.id == |before|;
      assert s.sent == |before| + 1 + |s.requests|;
    }
  }

  lemma JustifiedKept(s: System, t: System)
    requires Inv(s) && Step(s, t)
    ensures Justified(t, t.received) && Justified(t, t.replies) && SearchJustified(t)
  {
    if PeekerPeeks(s, t, true) {
      PeekIsJustified(s, t, true);
    } else if PeekerPeeks(s, t, false) {
      PeekIsJustified(s, t, false);
    }
  }

  lemma {:induction false} RunKeepsInv(run: seq<System>, k: nat)
    requires IsRun(run) && k < |run|
    ensures Inv(run[k])
  {
    if k == 0 {
      assert Order(Initial()) == [];
    } else {
      RunKeepsInv(run, k - 1);
      StepKeepsInv(run[k - 1], run[k]);
    }
  }

  lemma StepKeepsInv(s: System, t: System)
    requires Inv(s) && Step(s, t)
    ensures Inv(t)
  {
    OneToOneKept(s, t);
    JustifiedKept(s, t);
  }

  // ---- latest wins -----------------------------------------------------------------------------

  /**
   * In every interleaving, the i-th frame the client reads answers its i-th request, and the
   * frame with which nothing is pending any more answers the last request, uncancelled.
   */
  lemma TheoremLatestWins(run: seq<System>, k: nat)
    requires IsRun(run) && k < |run|
    ensures forall i :: 0 <= i < |run[k].received| ==> run[k].received[i].id == i
    ensures run[k].pending == 0 && run[k].sent > 0 && !run[k].writing ==>
              run[k].received != [] && run[k].received[|run[k].received| - 1] == Reply(run[k].sent - 1, false)
  {
    RunKeepsInv(run, k);
    ReceivedInOrder(run[k]);
  }

  lemma ReceivedInOrder(s: System)
    requires Inv(s)
    ensures forall i :: 0 <= i < |s.received| ==> s.received[i].id == i
    ensures s.pending == 0 && s.sent > 0 && !s.writing ==>
              s.received != [] && s.received[|s.received| - 1] == Reply(s.sent - 1, false)
  {
    forall i | 0 <= i < |s.received| ensures s.received[i].id == i {
      assert Order(s)[i] == Ids(s.received)[i];
    }
  }

  /** Steps until every request has been answered and every reply read. */
  function Work(s: System): nat {
    5 * |s.requests| + |s.replies|
    + match s.server case Waiting => 0 case Reading(_) => 4 case HasRead(_) => 3 case Searching(_, _, _) => 2
  }

  ghost predicate Advances(s: System, t: System) {
    Step(s, t) && Work(t) < Work(s)
  }

  /**
   * No reply is lost and nobody waits for a frame that will never come: while the client is not
   * writing, outstanding work never grows, is there as long as a reply is pending, and can be
   * advanced at once, or else as soon as the peeker has let go of the lock.
   */
  lemma TheoremPendingRepliesArrive(run: seq<System>, k: nat)
    requires IsRun(run) && k < |run| && !run[k].writing
    ensures Work(run[k]) == 0 <==> run[k].pending == 0
    ensures run[k].pending > 0 ==>
              (exists t :: Advances(run[k], t)) || exists u, t :: PeekerPublishes(run[k], u) && Advances(u, t)
    ensures forall t :: Step(run[k], t) ==> Work(t) <= Work(run[k])
  {
    RunKeepsInv(run, k);
    var s := run[k];
    PendingIsInFlight(s);
    forall t | Step(s, t) ensures Work(t) <= Work(s) {
    }
    if s.pending > 0 {
      if s.server.HasRead? && s.peeker.Holding? {
        var u := Published(s);
        assert PeekerPublishes(s, u);
        assert ServerBegins(u, u.(server := Searching(s.server.id, u.generation, false)));
        assert Advances(u, u.(server := Searching(s.server.id, u.generation, false)));
      } else {
        var t := Next(s);
        NextAdvances(s);
        assert Advances(s, t);
      }
    }
  }

  lemma PendingIsInFlight(s: System)
    requires OneToOne(s)
    ensures s.pending == |s.replies| + |Current(s.server)| + |s.requests|
  {
    assert |Order(s)| == |s.received| + |s.replies| + |Current(s.server)| + |s.requests|;
  }

  function Published(s: System): System
    requires s.peeker.Holding?
  {
    s.(peeker := Free, generation := if s.peeker.sawBytes then (s.generation + 1) % GENERATIONS else s.generation)
  }

  /** A step that brings the oldest outstanding reply closer. */
  function Next(s: System): System {
    if s.pending > 0 && s.replies != [] then
      s.(pending := s.pending - 1, received := s.received + [s.replies[0]], replies := s.replies[1..])
    else match s.server
      case Waiting => if s.requests == [] then s else s.(requests := s.requests[1..], server := Reading(s.requests[0]))
      case Reading(id) => s.(server := HasRead(id))
      case HasRead(id) => s.(server := Searching(id, s.generation, false))
      case Searching(id, _, saw) => s.(server := Waiting, replies := s.replies + [Reply(id, saw)])
  }

  lemma NextAdvances(s: System)
    requires !s.writing && s.pending > 0 && s.pending == |s.replies| + |Current(s.server)| + |s.requests|
    requires s.server.HasRead? ==> s.peeker.Free?
    ensures Advances(s, Next(s))
  {
    var t := Next(s);
    if s.replies != [] {
      assert ClientReads(s, t);
    } else {
      match s.server
      case Waiting => assert ServerStartsRead(s, t);
      case Reading(_) => assert ServerFinishesRead(s, t);
      case HasRead(_) => assert ServerBegins(s, t);
      case Searching(_, _, _) => assert ServerReplies(s, t);
    }
  }

  // ---- why the observation lock -----------------------------------------------------------------

  ghost predicate StepWithoutLock(s: System, t: System) {
    Step(s, t) || ServerBeginsUnlocked(s, t)
  }

  /** The peeker sees the only request's own bytes and publishes after its search has begun. */
  function SpuriousRun(): seq<System> {
    var start := Initial();
    var sent := start.(sent := 1, pending := 1, requests := [0]);
    var reading := sent.(requests := [], server := Reading(0));
    var peeked := reading.(peeker := Holding(true));
    var begun := peeked.(server := Searching(0, 0, false));
    var published := begun.(peeker := Free, generation := 1);
    var replied := published.(server := Waiting, replies := [Reply(0, true)]);
    [start, start.(writing := true), sent, reading, peeked, peeked.(server := HasRead(0)), begun, published,
     published.(server := Searching(0, 0, true)), replied, replied.(pending := 0, received := [Reply(0, true)], replies := [])]
  }

  /** With begin_request outside the lock, a client that sent one request can be left with a cancelled reply. */
  lemma WithoutLockTheLatestIsCancelled()
    ensures var run := SpuriousRun();
            && run[0] == Initial() && (forall i :: 0 <= i < |run| - 1 ==> StepWithoutLock(run[i], run[i + 1]))
            && run[|run| - 1].sent == 1 && run[|run| - 1].pending == 0
            && run[|run| - 1].received == [Reply(0, true)]
  {
    hide StepWithoutLock;
    SpuriousRunStarts();
    SpuriousRunEnds();
    assert |SpuriousRun()| == 11;
  }

  lemma SpuriousRunStarts()
    ensures var run := SpuriousRun();
            forall i :: 0 <= i < 5 ==> StepWithoutLock(run[i], run[i + 1])
  {
    var run := SpuriousRun();
    assert ClientStartsWrite(run[0], run[1]);
    assert run[1].requests + [0] == [0];
    assert ClientFinishesWrite(run[1], run[2]);
    assert run[2].requests[1..] == [];
    assert ServerStartsRead(run[2], run[3]);
    assert PeekerPeeks(run[3], run[4], true);
    assert ServerFinishesRead(run[4], run[5]);
  }

  lemma SpuriousRunEnds()
    ensures var run := SpuriousRun();
            forall i :: 5 <= i < 10 ==> StepWithoutLock(run[i], run[i + 1])
  {
    var run := SpuriousRun();
    assert ServerBeginsUnlocked(run[5], run[6]);
    assert PeekerPublishes(run[6], run[7]);
    assert ServerPolls(run[7], run[8]);
    assert run[8].replies + [Reply(0, true)] == [Reply(0, true)];
    assert ServerReplies(run[8], run[9]);
    assert run[9].replies[1..] == [] && run[9].received + [Reply(0, true)] == [Reply(0, true)];
    assert ClientReads(run[9], run[10]);
  }

  // ---- the client's counter ----------------------------------------------------------------------

  /** A reply frame, or the point at which the pipe breaks. */
  datatype Arrival = Frame(reply: Reply, wellFormed: bool) | Broken

  datatype Received = Answer(reply: Reply) | Malformed | PipeError | Nothing

  function Decoded(frame: Arrival): Received {
    match frame
    case Frame(reply, wellFormed) => if wellFormed then Answer(reply) else Malformed
    case Broken => PipeError
  }

  predicate AllFrames(arrivals: seq<Arrival>) {
    forall i :: 0 <= i < |arrivals| ==> arrivals[i].Frame?
  }

  class Client {
    var pendingInteractive: nat

    constructor ()
      ensures pendingInteractive == 0
    {
      pendingInteractive := 0;
    }

    /** A request whose frame cannot be written is not counted. */
    method SendInteractive(written: bool) returns (ok: bool)
      modifies this
      ensures ok == written
      ensures pendingInteractive == old(pendingInteractive) + (if written then 1 else 0)
    {
      ok := written;
      if written {
        pendingInteractive := pendingInteractive + 1;
      }
    }

    /**
     * `arrivals` are the frames as the blocking reads will find them; a read past their end
     * would block for ever, so they reach the last pending reply or the break.
     */
    method RecvInteractive(arrivals: seq<Arrival>) returns (r: Received, used: nat)
      requires pendingInteractive > 0
      requires pendingInteractive <= |arrivals| || Broken in arrivals
      modifies this
      ensures pendingInteractive <= old(pendingInteractive) && used + pendingInteractive == old(pendingInteractive)
      ensures used <= |arrivals| && AllFrames(arrivals[..used])
      ensures pendingInteractive == 0 ==> used == old(pendingInteractive)
      ensures pendingInteractive == 0 ==> forall reply :: arrivals[used - 1] == Frame(reply, true) ==> r == Answer(reply)
      ensures pendingInteractive == 0 ==> forall reply :: arrivals[used - 1] == Frame(reply, false) ==> r == Malformed
      ensures pendingInteractive > 0 ==> r == PipeError && used < |arrivals| && arrivals[used] == Broken
    {
      used := 0;
      var latest := arrivals[0];
      while pendingInteractive > 0
        invariant used + pendingInteractive == old(pendingInteractive) && used <= |arrivals|
        invariant AllFrames(arrivals[..used])
        invariant used > 0 ==> latest == arrivals[used - 1]
        decreases pendingInteractive
      {
        BreakAhead(arrivals, used, pendingInteractive);
        if arrivals[used].Broken? {
          r := PipeError;
          return;
        }
        latest := arrivals[used];
        AllFramesNext(arrivals, used);
        used := used + 1;
        pendingInteractive := pendingInteractive - 1;
      }
      r := Decoded(latest);
    }

    /** `ready` holds the frames that have begun to arrive by the time of each check. */
    method TryRecvInteractive(ready: seq<Arrival>) returns (r: Received, used: nat)
      modifies this
      ensures pendingInteractive <= old(pendingInteractive) && used + pendingInteractive == old(pendingInteractive)
      ensures used <= |ready| && AllFrames(ready[..used])
      ensures old(pendingInteractive) > 0 && pendingInteractive == 0 ==>
        forall reply :: ready[used - 1] == Frame(reply, true) ==> r == Answer(reply)
      ensures old(pendingInteractive) > 0 && pendingInteractive == 0 ==>
        forall reply :: ready[used - 1] == Frame(reply, false) ==> r == Malformed
      ensures old(pendingInteractive) == 0 ==> r == Nothing
      ensures pendingInteractive > 0 ==> if used == |ready| then r == Nothing else ready[used] == Broken && r == PipeError
    {
      used := 0;
      while pendingInteractive > 0 && used < |ready|
        invariant used + pendingInteractive == old(pendingInteractive) && used <= |ready|
        invariant AllFrames(ready[..used])
        invariant used > 0 ==> pendingInteractive > 0
        decreases pendingInteractive
      {
        if ready[used].Broken? {
          r := PipeError;
          return;
        }
        AllFramesNext(ready, used);
        used := used + 1;
        pendingInteractive := pendingInteractive - 1;
        if pendingInteractive == 0 {
          r := Decoded(ready[used - 1]);
          return;
        }
      }
      r := Nothing;
    }
  }

  lemma AllFramesNext(arrivals: seq<Arrival>, used: nat)
    requires used < |arrivals| && AllFrames(arrivals[..used]) && arrivals[used].Frame?
    ensures AllFrames(arrivals[..used + 1])
  {
    assert arrivals[..used + 1] == arrivals[..used] + [arrivals[used]];
  }

  lemma WholeSlice(arrivals: seq<Arrival>)
    ensures AllFrames(arrivals[..|arrivals|]) ==> Broken !in arrivals
  {
    assert arrivals[..|arrivals|] == arrivals;
  }

  lemma BreakAhead(arrivals: seq<Arrival>, used: nat, left: nat)
    requires used <= |arrivals| && AllFrames(arrivals[..used]) && left > 0
    requires used + left <= |arrivals| || Broken in arrivals
    ensures used < |arrivals|
  {
    WholeSlice(arrivals);
  }

  function Replies(frames: seq<Arrival>): (replies: seq<Reply>)
    requires AllFrames(frames)
    ensures |replies| == |frames| && forall i :: 0 <= i < |frames| ==> replies[i] == frames[i].reply
  {
    seq(|frames|, i requires 0 <= i < |frames| => frames[i].reply)
  }

  /**
   * Between two states of a run in which the client only reads and ends with nothing pending,
   * both receive functions, which return what the last frame holds, return the uncancelled
   * answer to the last request.
   */
  lemma TheoremReceiveIsLatest(run: seq<System>, j: nat, k: nat, arrivals: seq<Arrival>, r: Received)
    requires IsRun(run) && j <= k < |run|
    requires run[j].sent == run[k].sent && run[j].pending > 0 && run[k].pending == 0 && !run[k].writing
    requires AllFrames(arrivals) && forall i :: 0 <= i < |arrivals| ==> arrivals[i].wellFormed
    requires run[k].received == run[j].received + Replies(arrivals)
    requires arrivals != [] ==> forall reply :: arrivals[|arrivals| - 1] == Frame(reply, true) ==> r == Answer(reply)
    ensures |arrivals| == run[j].pending
    ensures r.Answer? && r.reply.id + 1 == run[j].sent && !r.reply.cancelled
  {
    RunKeepsInv(run, j);
    RunKeepsInv(run, k);
    ReceivedInOrder(run[k]);
    assert |run[k].received| == |run[j].received| + |arrivals|;
    var last := arrivals[|arrivals| - 1];
    assert last == Frame(last.reply, true);
    assert run[k].received[|run[k].received| - 1] == last.reply;
  }
}
