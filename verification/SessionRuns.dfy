/** What every run of a session keeps, and who owns the memory behind a write. */
module SessionRuns {
  import opened Bytes
  import opened FieldValues
  import opened Frames
  import opened Methods
  import opened ConnectorModel
  import opened ConnectorRuns
  import opened Handshake
  import opened PacketModel
  import opened Options
  import opened SessionModel

  // ----- buffers are neither lost nor given back twice, in any run

  function Just(buffer: Option<nat>): multiset<nat> {
    if buffer.Some? then multiset{buffer.value} else multiset{}
  }

  /** The buffers the two handles of a direction own. */
  function Owned(side: Side): multiset<nat> {
    Just(side.data) + Just(side.spare)
  }

  function Tickets(n: nat): multiset<nat> {
    if n == 0 then multiset{} else Tickets(n - 1) + multiset{n - 1}
  }

  lemma {:induction false} TicketCount(n: nat, t: nat)
    ensures Tickets(n)[t] == if t < n then 1 else 0
  {
    if n > 0 {
      TicketCount(n - 1, t);
    }
  }

  /** Every buffer issued so far is owned by one handle or was given back, and only once. */
  ghost predicate Conserved(s: Session) {
    multiset(s.pool.returned) + Owned(s.ingress) + Owned(s.egress) + Just(s.reply) == Tickets(s.pool.issued)
  }

  /** A direction changed from one account to another without loss or duplication. */
  ghost predicate Balanced(side: Side, pool: Pool, side': Side, pool': Pool) {
    multiset(pool'.returned) + Owned(side') + Tickets(pool.issued) == multiset(pool.returned) + Owned(side) + Tickets(pool'.issued)
  }

  lemma GiveBackCounts(pool: Pool, buffer: Option<nat>)
    ensures multiset(GiveBack(pool, buffer).returned) == multiset(pool.returned) + Just(buffer)
    ensures GiveBack(pool, buffer).issued == pool.issued
  {
  }

  lemma AcquiredBalances(side: Side, pool: Pool, size: nat)
    ensures Balanced(side, pool, Acquired(side, pool, size).0, Acquired(side, pool, size).1)
  {
    GiveBackCounts(pool, side.data);
    assert Tickets(pool.issued + 1) == Tickets(pool.issued) + multiset{pool.issued};
  }

  lemma ReleasedBalances(side: Side, pool: Pool)
    ensures Balanced(side, pool, Released(side, pool).0, Released(side, pool).1)
    ensures Owned(Released(side, pool).0) == multiset{}
  {
    GiveBackCounts(pool, side.data);
    GiveBackCounts(GiveBack(pool, side.data), side.spare);
  }

  lemma KeptBalances(side: Side, pool: Pool, rest: seq<Byte>)
    ensures Balanced(side, pool, Kept(side, pool, rest).0, Kept(side, pool, rest).1)
  {
    hide Tickets;
    if rest != [] {
      AcquiredBalances(side.(data := side.spare, spare := side.data), pool,
                       if |rest| > MAX_FRAME_SIZE then |rest| else MAX_FRAME_SIZE);
    }
  }

  /** Balanced changes of one direction keep the whole account. */
  lemma BalancedConserves(s: Session, flow: Flow, side: Side, pool: Pool)
    requires Conserved(s) && Balanced(Of(s, flow), s.pool, side, pool)
    ensures Conserved(With(s, flow, side).(pool := pool))
  {
    hide Tickets, Owned;
    var a, b, a', t, t' := Owned(Of(s, flow)), Owned(Of(s, if flow.Ingress? then Egress else Ingress)) + Just(s.reply),
      Owned(side), Tickets(s.pool.issued), Tickets(pool.issued);
    var s' := With(s, flow, side).(pool := pool);
    Regroup(multiset(s.pool.returned), Owned(s.ingress), Owned(s.egress), Just(s.reply));
    CancelTickets(multiset(s.pool.returned), a, b, t, multiset(pool.returned), a', t');
    Regroup(multiset(pool.returned), Owned(s'.ingress), Owned(s'.egress), Just(s.reply));
  }

  lemma Regroup(r: multiset<nat>, i: multiset<nat>, e: multiset<nat>, j: multiset<nat>)
    ensures r + i + e + j == r + i + (e + j) == r + e + (i + j) == r + j + (i + e)
  {
  }

  lemma {:induction false} ReacquiredBalances(reply: Option<nat>, pool: Pool, times: nat)
    ensures var (reply', pool') := Reacquired(reply, pool, times);
      && multiset(pool'.returned) + Just(reply') + Tickets(pool.issued) == multiset(pool.returned) + Just(reply) + Tickets(pool'.issued)
      && pool.issued <= pool'.issued && (times > 0 ==> reply'.Some?) && (times == 0 ==> reply' == reply)
    decreases times
  {
    if times > 0 {
      var next := GiveBack(pool, reply).(issued := pool.issued + 1);
      GiveBackCounts(pool, reply);
      ReacquiredBalances(Some(pool.issued), next, times - 1);
      var (reply', pool') := Reacquired(reply, pool, times);
      assert (reply', pool') == Reacquired(Some(pool.issued), next, times - 1);
      assert Tickets(next.issued) == Tickets(pool.issued) + multiset{pool.issued};
      hide Reacquired, Tickets, GiveBack;
      assert Just(Some(pool.issued)) == multiset{pool.issued};
      var a, b := multiset(pool'.returned) + Just(reply'), multiset(pool.returned) + Just(reply);
      assert multiset(next.returned) == b;
      SwapTickets(a, b, multiset{pool.issued}, Tickets(pool.issued), Tickets(pool'.issued));
    }
  }

  lemma SwapTickets(a: multiset<nat>, b: multiset<nat>, x: multiset<nat>, t: multiset<nat>, t': multiset<nat>)
    requires a + (t + x) == b + x + t'
    ensures a + t == b + t'
  {
    forall n: nat ensures (a + t)[n] == (b + t')[n] {
      assert (a + (t + x))[n] == (b + x + t')[n];
    }
  }

  /** Taking the reply buffer anew keeps the account. */
  lemma ReacquiredConserves(s: Session, times: nat)
    requires Conserved(s)
    ensures var (reply, pool) := Reacquired(s.reply, s.pool, times); Conserved(s.(reply := reply, pool := pool))
  {
    hide Tickets, Owned, Reacquired;
    ReacquiredBalances(s.reply, s.pool, times);
    var (reply, pool) := Reacquired(s.reply, s.pool, times);
    var b := Owned(s.ingress) + Owned(s.egress);
    Regroup(multiset(s.pool.returned), Owned(s.ingress), Owned(s.egress), Just(s.reply));
    CancelTickets(multiset(s.pool.returned), Just(s.reply), b, Tickets(s.pool.issued), multiset(pool.returned), Just(reply), Tickets(pool.issued));
    Regroup(multiset(pool.returned), Owned(s.ingress), Owned(s.egress), Just(reply));
  }

  lemma CancelTickets(r: multiset<nat>, a: multiset<nat>, b: multiset<nat>, t: multiset<nat>,
                      r': multiset<nat>, a': multiset<nat>, t': multiset<nat>)
    requires r + a + b == t && r' + a' + t == r + a + t'
    ensures r' + a' + b == t' && r' + b + a' == t'
  {
    forall x: nat ensures r'[x] + a'[x] + b[x] == t'[x] {
      assert (r + a + b)[x] == t[x];
      assert (r' + a' + t)[x] == (r + a + t')[x];
    }
    assert forall x: nat :: (r' + a' + b)[x] == t'[x];
  }

  /** Only the two handles and the pool matter. */
  lemma SameHandlesConserve(s: Session, s': Session)
    requires Conserved(s) && s'.pool == s.pool && s'.reply == s.reply
    requires s'.ingress.data == s.ingress.data && s'.ingress.spare == s.ingress.spare
    requires s'.egress.data == s.egress.data && s'.egress.spare == s.egress.spare
    ensures Conserved(s')
  {
    hide Tickets;
  }

  lemma ReadiedConserves(s: Session, flow: Flow, available: nat)
    requires Conserved(s)
    ensures Conserved(Readied(s, flow, available))
  {
    hide Tickets, Conserved, Owned;
    if Of(s, flow).held == [] {
      AcquiredBalances(Of(s, flow), s.pool, AtLeastOne(available));
      var (side, pool) := Acquired(Of(s, flow), s.pool, AtLeastOne(available));
      BalancedConserves(s, flow, side, pool);
    } else {
      assert Readied(s, flow, available) == s;
    }
  }

  lemma HandledConserves(s: Session, flow: Flow, info: SessionInfo)
    requires Conserved(s)
    ensures Conserved(Handled(s, flow, info))
  {
    hide Tickets, Conserved, Owned, Process, SplitFrames, Kept, Reacquired;
    var side := Of(s, flow);
    var r := Process(s.conn, flow, info, side.held);
    var (reply, pool) := Reacquired(s.reply, s.pool, Growth(s.conn.replies, RepliesAfter(r)));
    var s1 := s.(reply := reply, pool := pool);
    ReacquiredConserves(s, Growth(s.conn.replies, RepliesAfter(r)));
    if r.Processed? {
      HeldIsShort(s.conn, flow, info, side.held);
      var accounted := Accounted(side, r.conn.state, side.held, |r.held|);
      SameHandlesConserve(s1, With(s1, flow, accounted));
      KeptBalances(accounted, pool, r.held);
      var (kept, pool') := Kept(accounted, pool, r.held);
      BalancedConserves(With(s1, flow, accounted), flow, kept, pool');
      SameHandlesConserve(With(s1, flow, kept).(pool := pool'), Handled(s, flow, info));
    } else {
      SameHandlesConserve(s1, Handled(s, flow, info));
    }
  }

  /** Sending a message of the proxy's own only takes the reply buffer anew. */
  lemma SynthesizedConserves(s: Session, e: Event)
    requires Conserved(s)
    ensures Conserved(Synthesized(s, e))
  {
    hide Tickets, Conserved, Owned, Apply, Reacquired;
    var r := Apply(s.conn, e);
    if r.Next? {
      var (reply, pool) := Reacquired(s.reply, s.pool, Growth(s.conn.replies, r.conn.replies));
      ReacquiredConserves(s, Growth(s.conn.replies, r.conn.replies));
      SameHandlesConserve(s.(reply := reply, pool := pool), Synthesized(s, e));
    } else {
      SameHandlesConserve(s, Synthesized(s, e));
    }
  }

  lemma FailedConserves(s: Session, flow: Flow)
    requires Conserved(s)
    ensures Conserved(Failed(s, flow))
  {
    hide Tickets, Conserved, Owned, Synthesized;
    SynthesizedConserves(s, CloseSynthesized(false));
    SynthesizedConserves(Synthesized(s, CloseSynthesized(false)), CloseErrorSynthesized(true));
    SameHandlesConserve(s, s.(ended := true));
  }

  lemma CompletedConserves(s: Session, flow: Flow, index: nat, failed: bool)
    requires Conserved(s) && index < |Of(s, flow).writes|
    ensures Conserved(Completed(s, flow, index, failed))
  {
    hide Tickets, Conserved, Owned, Released, Failed;
    var side := Of(s, flow);
    var done := Completed(s, flow, index, false);
    if side.held == [] {
      ReleasedBalances(side, s.pool);
      var (side', pool) := Released(side, s.pool);
      BalancedConserves(s, flow, side', pool);
      SameHandlesConserve(With(s, flow, side').(pool := pool), done);
    } else {
      SameHandlesConserve(s, done);
    }
    if failed {
      var s' := With(done, flow, Of(done, flow).(readers := side.readers));
      SameHandlesConserve(done, s');
      FailedConserves(s', flow);
    }
  }

  lemma EndedConserves(s: Session)
    requires Conserved(s)
    ensures var s' := Ended(s); Conserved(s') && Owned(s'.ingress) == Owned(s'.egress) == multiset{} && s'.reply == None
  {
    hide Tickets, Conserved, Owned, Released;
    ReleasedBalances(s.ingress, s.pool);
    var (ingress, pool) := Released(s.ingress, s.pool);
    BalancedConserves(s, Ingress, ingress, pool);
    var s' := s.(ingress := ingress, pool := pool);
    ReleasedBalances(s'.egress, s'.pool);
    var (egress, pool') := Released(s'.egress, s'.pool);
    BalancedConserves(s', Egress, egress, pool');
    var s'' := s'.(egress := egress, pool := pool');
    ReplyGivenBack(s'');
    SameHandlesConserve(s''.(reply := None, pool := GiveBack(pool', s.reply)), Ended(s));
  }

  lemma ReplyGivenBack(s: Session)
    requires Conserved(s)
    ensures Conserved(s.(reply := None, pool := GiveBack(s.pool, s.reply)))
  {
    hide Tickets, Owned;
    GiveBackCounts(s.pool, s.reply);
    var a, b := multiset(s.pool.returned), Owned(s.ingress) + Owned(s.egress);
    assert a + Just(s.reply) + Owned(s.ingress) + Owned(s.egress) + multiset{} == a + Owned(s.ingress) + Owned(s.egress) + Just(s.reply);
  }

  lemma StepConserves(s: Session, h: Happening)
    requires Conserved(s) && Enabled(s, h)
    ensures Conserved(Proceed(s, h))
  {
    hide Conserved, Owned, Handled, Readied, Completed, Ended, Apply, Stage, Failed, Synthesized, Broken, Reacquired;
    match h
    case Read(flow, available, chunk, paused, info) =>
      ReadiedConserves(s, flow, available);
      SameHandlesConserve(Readied(s, flow, available), Filled(s, flow, available, chunk));
      HandledConserves(Filled(s, flow, available, chunk), flow, info);
    case Blocked(flow, available) => ReadiedConserves(s, flow, available);
    case ReadFailed(flow, fetching) => ReadFailedConserves(s, flow, fetching);
    case WriteDone(flow, index, failed) => CompletedConserves(s, flow, index, failed);
    case Connected =>
      ReacquiredConserves(s, 1);
      var (reply, pool) := Reacquired(s.reply, s.pool, 1);
      SameHandlesConserve(s.(reply := reply, pool := pool), Proceed(s, h));
    case Authorised(e) => SameHandlesConserve(s, Proceed(s, h));
    case Disconnect => SynthesizedConserves(s, CloseSynthesized(true));
    case Destroyed => EndedConserves(s);
  }

  lemma ReadFailedConserves(s: Session, flow: Flow, fetching: Option<nat>)
    requires Conserved(s) && Enabled(s, ReadFailed(flow, fetching))
    ensures Conserved(Proceed(s, ReadFailed(flow, fetching)))
  {
    hide Conserved, Owned, Readied, Failed;
    var r := if fetching.Some? then Readied(s, flow, fetching.value) else s;
    if fetching.Some? {
      ReadiedConserves(s, flow, fetching.value);
    }
    var s' := With(r, flow, Of(r, flow).(readers := Of(r, flow).readers - 1));
    SameHandlesConserve(r, s');
    FailedConserves(s', flow);
  }

  lemma {:induction false} RunConserves(s: Session, hs: seq<Happening>)
    requires Conserved(s) && Possible(s, hs)
    ensures Conserved(ProceedAll(s, hs))
    decreases |hs|
  {
    hide Conserved, Enabled, Proceed;
    if hs != [] {
      StepConserves(s, hs[0]);
      RunConserves(Proceed(s, hs[0]), hs[1..]);
    }
  }

  lemma CountOf(s: Session, t: nat)
    requires Conserved(s)
    ensures multiset(s.pool.returned)[t] + Owned(s.ingress)[t] + Owned(s.egress)[t] + Just(s.reply)[t] == if t < s.pool.issued then 1 else 0
  {
    hide Tickets, Owned;
    TicketCount(s.pool.issued, t);
    assert (multiset(s.pool.returned) + Owned(s.ingress) + Owned(s.egress) + Just(s.reply))[t] == Tickets(s.pool.issued)[t];
  }

  /**
   * In every run whatever, no buffer is given back twice or while a handle still owns it, no
   * two of the five handles own the same one, and once the session is destroyed every buffer it
   * was ever issued has been given back exactly once.
   */
  lemma ReleasedExactlyOnce(start: Start, tune: Tune, hs: seq<Happening>, t: nat)
    requires Possible(Started(start, tune), hs)
    ensures var s := ProceedAll(Started(start, tune), hs);
      && multiset(s.pool.returned)[t] + Owned(s.ingress)[t] + Owned(s.egress)[t] + Just(s.reply)[t] == (if t < s.pool.issued then 1 else 0)
      && (hs != [] && hs[|hs| - 1].Destroyed? ==> multiset(s.pool.returned)[t] == if t < s.pool.issued then 1 else 0)
  {
    hide Enabled, Proceed, Owned, Tickets;
    var init := Started(start, tune);
    var s := ProceedAll(init, hs);
    StartConserves(start, tune);
    RunConserves(init, hs);
    CountOf(s, t);
    if hs != [] && hs[|hs| - 1].Destroyed? {
      LastDestroys(init, hs);
    }
  }

  lemma StartConserves(start: Start, tune: Tune)
    ensures Conserved(Started(start, tune))
  {
  }

  lemma {:induction false} LastDestroys(s: Session, hs: seq<Happening>)
    requires Conserved(s) && Possible(s, hs) && hs != [] && hs[|hs| - 1].Destroyed?
    ensures var r := ProceedAll(s, hs); Owned(r.ingress) == Owned(r.egress) == multiset{} && r.reply == None
    decreases |hs|
  {
    hide Conserved, Owned, Ended, Reacquired, Handled, Synthesized, Failed, Completed;
    if |hs| == 1 {
      assert hs[1..] == [];
      EndedConserves(s);
    } else {
      hide Enabled, Proceed;
      StepConserves(s, hs[0]);
      LastDestroys(Proceed(s, hs[0]), hs[1..]);
    }
  }

  // ----- the memory behind a write in flight

  /**
   * The memory behind every write in flight is owned: by a handle of its direction if it passes
   * on what was read, by the connector's handle if it is a reply.
   */
  ghost predicate InFlightOwned(s: Session) {
    SideOwns(s.ingress, s.reply) && SideOwns(s.egress, s.reply)
  }

  ghost predicate SideOwns(side: Side, reply: Option<nat>) {
    forall w :: w in side.writes ==>
      && (w.mem.Pooled? ==> Some(w.mem.ticket) == side.data || Some(w.mem.ticket) == side.spare)
      && (w.mem.Reply? ==> Some(w.mem.ticket) == reply)
  }

  /** What the read that is about to complete will be answered with. */
  function Answer(s: Session, h: Happening): Processed
    requires h.Read? && Of(s, h.flow).readers > 0
  {
    var filled := Filled(s, h.flow, h.available, h.chunk);
    Process(filled.conn, h.flow, h.info, Of(filled, h.flow).held)
  }

  /** No passthrough write is in flight. */
  predicate NoPooled(side: Side) {
    forall w :: w in side.writes ==> !w.mem.Pooled?
  }

  predicate NoReplies(side: Side) {
    forall w :: w in side.writes ==> !w.mem.Reply?
  }

  /** No reply is in flight, for either side. */
  predicate Quiet(s: Session) {
    NoReplies(s.ingress) && NoReplies(s.egress)
  }

  /** A failed completion that is answered with closes. */
  predicate GivesUp(s: Session, flow: Flow) {
    !s.ended && flow.Ingress? && s.conn.state.ClientCloseSent?
  }

  /** A read is answered to another side than its own. */
  predicate Crosses(s: Session, h: Happening)
    requires Enabled(s, h)
  {
    && h.Read? && !(h.flow.Ingress? && h.paused)
    && var r := Answer(s, h); r.Processed? && WriteFor(r, h.flow).Some? && WriteFor(r, h.flow).value != h.flow
  }

  /** The reply buffer is taken anew. */
  predicate TakesReply(s: Session, h: Happening)
    requires Enabled(s, h)
  {
    match h
    case Read(flow, _, _, paused, _) => !(flow.Ingress? && paused) && s.conn.replies < RepliesAfter(Answer(s, h))
    case Connected => true
    case Disconnect => true
    case _ => false
  }

  /**
   * A read is answered, if at all, to the side it came from. Only once the session is closing
   * may more be written for a side, and then not while a passthrough write is in flight there.
   * The reply buffer is taken anew only while no reply is in flight, and so never for the two
   * closes in a row.
   */
  predicate Aligned(s: Session, h: Happening)
    requires Enabled(s, h)
  {
    && (Crosses(s, h) ==> Closing(Answer(s, h).conn.state) && NoPooled(Of(s, WriteFor(Answer(s, h), h.flow).value)))
    && (TakesReply(s, h) ==> Quiet(s))
    && (h.Disconnect? ==> NoPooled(s.ingress))
    && (h.ReadFailed? || (h.WriteDone? && h.failed) ==> !GivesUp(s, h.flow))
  }

  predicate AllAligned(s: Session, hs: seq<Happening>)
    requires Possible(s, hs)
    decreases |hs|
  {
    hs != [] ==> Aligned(s, hs[0]) && AllAligned(Proceed(s, hs[0]), hs[1..])
  }

  /** Reads and writes outstanding for a direction. */
  function Tokens(side: Side): nat {
    side.readers + |side.writes|
  }

  /**
   * A passthrough write in flight is all that is outstanding for its direction, and reads the
   * memory of the handle that will not be touched before it is done; what is held with it is
   * no whole frame. Behind what is held there is room for the next read.
   */
  ghost predicate SideSafe(side: Side, closing: bool) {
    && (closing || Tokens(side) <= 1)
    && (forall w :: w in side.writes && w.mem.Pooled? ==>
          && Tokens(side) == 1 && SplitFrames(side.held) == Split([], 0)
          && Some(w.mem.ticket) == if side.held == [] then side.data else side.spare)
    && (side.held != [] && Tokens(side) > 0 ==>
          side.data.Some? && |side.held| <= side.size && (closing || |side.held| < side.size))
  }

  /** What is held is in a buffer. */
  predicate Backed(side: Side) {
    side.held != [] ==> side.data.Some? && |side.held| <= side.size
  }

  /** The connector is closing, or on its way through the handshake, past the client's Open once there is a broker. */
  predicate ConnSafe(c: Conn, connected: bool) {
    && |c.vhost| <= SHORT_STRING_LIMIT
    && (Closing(c.state) ||
        (0 <= Stage(c.state) && (connected ==> Dialing(c.state)) && (c.state.AwaitingProtocolHeader? ==> c.out == [])))
  }

  ghost predicate BuffersSafe(s: Session) {
    && SideSafe(s.ingress, Closing(s.conn.state)) && SideSafe(s.egress, Closing(s.conn.state))
    && (!s.connected ==> NoPooled(s.egress))
    && (!Closing(s.conn.state) && !s.connected ==> Tokens(s.egress) == 0 && s.egress.held == [])
    && (!Closing(s.conn.state) && !s.ended && s.connected ==> Tokens(s.egress) == 1)
    && (!Closing(s.conn.state) && !s.ended ==>
          SplitFrames(s.egress.held) == Split([], 0) && (s.egress.held != [] ==> s.egress.size == MAX_FRAME_SIZE))
    && (!s.ended ==> Backed(s.ingress) && Backed(s.egress) && ConnSafe(s.conn, s.connected))
  }

  predicate Replying(side: Side, reply: Option<nat>) {
    forall w :: w in side.writes && w.mem.Reply? ==> Some(w.mem.ticket) == reply
  }

  /** Short of closing, a reply to the client is in flight only early in the handshake. */
  predicate RepliesSafe(s: Session) {
    && Replying(s.ingress, s.reply) && Replying(s.egress, s.reply)
    && (!Closing(s.conn.state) && !s.ended ==> NoReplies(s.ingress) || Stage(s.conn.state) <= 2)
  }

  ghost predicate Safe(s: Session) {
    BuffersSafe(s) && RepliesSafe(s)
  }

  lemma SafeIsOwned(s: Session)
    requires Safe(s)
    ensures InFlightOwned(s)
  {
    hide Stage, SplitFrames;
  }

  /** While open, a pass writes for the direction it read from, what it read, from the memory it read it into. */
  lemma OpenWritesAlong(c: Conn, flow: Flow, info: SessionInfo, bs: seq<Byte>)
    requires Process(c, flow, info, bs).Processed? && Process(c, flow, info, bs).conn.state.Open?
    ensures var r := Process(c, flow, info, bs);
      && |r.held| <= |bs|
      && WriteOf(r) == bs[..|bs| - |r.held|]
      && WriteFor(r, flow) == if WriteOf(r) == [] then None else Some(flow)
  {
    hide TakeFrames, Send;
    TakenIsSuffix(c, flow, info, bs, ([], []), 0);
  }

  // ----- the connector, over a pass

  lemma MethodAdvances(c: Conn, m: Received, flow: Flow, info: SessionInfo)
    requires 0 <= Stage(c.state) < 7 && |c.vhost| <= SHORT_STRING_LIMIT && ReceiveMethod(c, m, flow, info).Next?
    ensures var r := ReceiveMethod(c, m, flow, info).conn; Stage(c.state) <= Stage(r.state) && |r.vhost| <= SHORT_STRING_LIMIT
  {
    hide Transmit, Ascii, InjectIdent, Mismatch, Undecodable, DecodeStartOk, DecodeStart, DecodeTune, DecodeOpen, DecodeClose;
    if DecodeOpen(m.payload).Ok? {
      DecodedOpenIsShort(m.payload);
    }
  }

  lemma {:induction false} FramesAdvance(c: Conn, flow: Flow, info: SessionInfo, bs: seq<Byte>, w: Writes, n: nat)
    requires 0 <= Stage(c.state) && |c.vhost| <= SHORT_STRING_LIMIT
    ensures var r := TakeFrames(c, flow, info, bs, w, n);
      r.Processed? ==> Stage(c.state) <= Stage(r.conn.state) && |r.conn.vhost| <= SHORT_STRING_LIMIT
    decreases |bs|
  {
    hide TakeFrames, DecodeFrame, ReceiveMethod, ToReceived, Stage;
    TakeStep(c, flow, info, bs, w, n);
    var d := DecodeFrame(bs);
    if d.Complete? {
      var t := TakeFrame(c, flow, info, d.frame, w);
      if t.Taken? {
        if t.conn != c {
          MethodTaken(c, flow, info, d.frame, w);
        }
        FramesAdvance(t.conn, flow, info, bs[d.size..], t.w, n + 1);
      }
    }
  }

  lemma MethodTaken(c: Conn, flow: Flow, info: SessionInfo, f: Frame, w: Writes)
    requires 0 <= Stage(c.state) && |c.vhost| <= SHORT_STRING_LIMIT
    requires TakeFrame(c, flow, info, f, w).Taken?
    ensures var t := TakeFrame(c, flow, info, f, w);
      Stage(c.state) <= Stage(t.conn.state) && |t.conn.vhost| <= SHORT_STRING_LIMIT
  {
    hide ReceiveMethod, ToReceived;
    if f.kind == 1 && !c.state.Open? && |f.payload| >= 4 {
      var m := ToReceived(f.payload);
      if m.classId == CONNECTION_CLASS {
        MethodAdvances(c, m, flow, info);
      }
    }
  }

  lemma MethodStaysClosing(c: Conn, m: Received, flow: Flow, info: SessionInfo)
    requires Closing(c.state)
    ensures var r := ReceiveMethod(c, m, flow, info); r.Next? && Closing(r.conn.state) && r.conn.vhost == c.vhost
  {
    hide Transmit, Ascii;
    CloseStep(c, MethodReceived(m, flow, info));
  }

  lemma {:induction false} FramesStayClosing(c: Conn, flow: Flow, info: SessionInfo, bs: seq<Byte>, w: Writes, n: nat)
    requires Closing(c.state)
    ensures var r := TakeFrames(c, flow, info, bs, w, n);
      r.Processed? ==> Closing(r.conn.state) && r.conn.vhost == c.vhost
    decreases |bs|
  {
    hide TakeFrames, DecodeFrame, ReceiveMethod, ToReceived;
    TakeStep(c, flow, info, bs, w, n);
    var d := DecodeFrame(bs);
    if d.Complete? {
      var t := TakeFrame(c, flow, info, d.frame, w);
      if t.Taken? {
        if d.frame.kind == 1 && |d.frame.payload| >= 4 {
          MethodStaysClosing(c, ToReceived(d.frame.payload), flow, info);
        }
        FramesStayClosing(t.conn, flow, info, bs[d.size..], t.w, n + 1);
      }
    }
  }

  /** A pass never takes the connector back; short of closing it may only end in the error state. */
  lemma PassAdvances(c: Conn, flow: Flow, info: SessionInfo, bs: seq<Byte>)
    requires ConnSafe(c, false) && Process(c, flow, info, bs).Processed?
    ensures var r := Process(c, flow, info, bs).conn;
      && (Closing(r.state) <==> Closing(c.state))
      && (r.state.Error? || ((!Closing(r.state) ==> Stage(c.state) <= Stage(r.state)) && ConnSafe(r, Dialing(c.state))))
  {
    hide TakeFrames, Transmit;
    if Closing(c.state) {
      FramesStayClosing(c, flow, info, bs, ([], []), 0);
    } else {
      FramesAdvance(c, flow, info, bs, ([], []), 0);
    }
  }

  /** Short of closing: the client is answered early in the handshake, the broker late, by the last method of a read. */
  predicate Answers(c: Conn, w: Writes) {
    && (w.0 != [] ==> c.state.Open? || 1 <= Stage(c.state) <= 2)
    && (w.1 != [] ==> c.state.Open? || c.state.StartOkSent? || c.state.OpenSent?)
  }

  lemma MethodAnswer(c: Conn, m: Received, flow: Flow, info: SessionInfo)
    requires 0 <= Stage(c.state) < 7 && ReceiveMethod(c, m, flow, info).Next?
    ensures var r := ReceiveMethod(c, m, flow, info).conn; Answers(r, Write(r))
  {
    hide Transmit, Ascii, InjectIdent, Mismatch, Undecodable, DecodeStartOk, DecodeStart, DecodeTune, DecodeOpen, DecodeClose;
  }

  lemma TakenAnswers(c: Conn, flow: Flow, info: SessionInfo, f: Frame, w: Writes)
    requires 0 <= Stage(c.state) && Answers(c, w) && TakeFrame(c, flow, info, f, w).Taken?
    ensures var t := TakeFrame(c, flow, info, f, w); Answers(t.conn, t.w)
  {
    hide ReceiveMethod, ToReceived;
    if f.kind == 1 && !c.state.Open? && |f.payload| >= 4 {
      var m := ToReceived(f.payload);
      if m.classId == CONNECTION_CLASS {
        MethodAnswer(c, m, flow, info);
      }
    }
  }

  lemma {:induction false} FramesAnswer(c: Conn, flow: Flow, info: SessionInfo, bs: seq<Byte>, w: Writes, n: nat)
    requires 0 <= Stage(c.state) && Answers(c, w) && |c.vhost| <= SHORT_STRING_LIMIT
    ensures var r := TakeFrames(c, flow, info, bs, w, n); r.Processed? ==> Answers(r.conn, (r.ingressWrite, r.egressWrite))
    decreases |bs|
  {
    hide TakeFrames, TakeFrame, DecodeFrame, Stage, Answers;
    TakeStep(c, flow, info, bs, w, n);
    var d := DecodeFrame(bs);
    if d.Complete? {
      var t := TakeFrame(c, flow, info, d.frame, w);
      if t.Taken? {
        MethodTaken(c, flow, info, d.frame, w);
        TakenAnswers(c, flow, info, d.frame, w);
        FramesAnswer(t.conn, flow, info, bs[d.size..], t.w, n + 1);
      }
    }
  }

  /** What a pass short of the open state can be answered with, and where that leaves the connector. */
  lemma PassAnswers(c: Conn, flow: Flow, info: SessionInfo, bs: seq<Byte>)
    requires ConnSafe(c, false) && !Closing(c.state)
    requires Process(c, flow, info, bs).Processed? && !Process(c, flow, info, bs).conn.state.Open?
    ensures var r := Process(c, flow, info, bs);
      && (r.ingressWrite != [] ==> r.conn.state.Error? || 1 <= Stage(r.conn.state) <= 2)
      && (r.egressWrite != [] ==> r.conn.state.StartOkSent? || r.conn.state.OpenSent?)
      && (Dialing(c.state) ==> r.ingressWrite == [])
  {
    hide TakeFrames, Transmit;
    FramesAnswer(c, flow, info, bs, ([], []), 0);
    FramesAdvance(c, flow, info, bs, ([], []), 0);
  }

  // ----- every aligned step keeps the memory owned

  /** What a pass leaves of the direction it was made for, before anything is begun by it. */
  lemma KeptIsBacked(side: Side, pool: Pool, state: State, rest: seq<Byte>)
    requires NoPooled(side) && |rest| <= |side.held| && |rest| < MAX_FRAME_SIZE
    ensures var kept := Kept(Accounted(side, state, side.held, |rest|), pool, rest).0;
      && Backed(kept) && (kept.held != [] ==> |kept.held| < kept.size == MAX_FRAME_SIZE) && kept.held == rest
      && kept.writes == side.writes && kept.readers == side.readers
      && (if rest == [] then kept.data else kept.spare) == side.data
  {
    hide SplitFrames;
  }

  /** What the pass begins. */
  lemma BegunIsSafe(s: Session, flow: Flow, to: Option<Flow>, w: Sending, closing: bool)
    requires var side := Of(s, flow);
      && NoPooled(side) && Backed(side) && (side.held != [] ==> |side.held| < side.size) && (closing || Tokens(side) == 0)
    requires SideSafe(Of(s, if flow.Ingress? then Egress else Ingress), closing)
    requires w.mem.Pooled? ==> !closing && Some(w.mem.ticket) == if Of(s, flow).held == [] then Of(s, flow).data else Of(s, flow).spare
    requires w.mem.Pooled? && to.Some? ==> to.value == flow && SplitFrames(Of(s, flow).held) == Split([], 0)
    requires to.Some? && to.value != flow ==> closing && NoPooled(Of(s, to.value)) && Backed(Of(s, to.value))
    ensures var s' := Begun(s, flow, to, w); var other := if flow.Ingress? then Egress else Ingress;
      && SideSafe(Of(s', flow), closing) && SideSafe(Of(s', other), closing)
      && (Backed(Of(s, other)) ==> Backed(Of(s', other))) && Backed(Of(s', flow))
      && (NoPooled(Of(s, other)) ==> NoPooled(Of(s', other))) && (!w.mem.Pooled? ==> NoPooled(Of(s', flow)))
      && (!closing ==> Tokens(Of(s', flow)) == 1 && Of(s', other) == Of(s, other))
      && Of(s', flow).held == Of(s, flow).held && Of(s', flow).size == Of(s, flow).size
  {
    hide SplitFrames;
  }

  /** A pass, and what comes of it. */
  lemma PassIsSafe(s: Session, flow: Flow, info: SessionInfo)
    requires var side := Of(s, flow);
      NoPooled(side) && side.data.Some? && |side.held| <= side.size && (Closing(s.conn.state) || Tokens(side) == 0)
    requires SideSafe(Of(s, if flow.Ingress? then Egress else Ingress), Closing(s.conn.state))
    requires Backed(Of(s, if flow.Ingress? then Egress else Ingress))
    requires var r := Process(s.conn, flow, info, Of(s, flow).held);
      && (r.Processed? ==> (Closing(r.conn.state) <==> Closing(s.conn.state)))
      && (r.Processed? && WriteFor(r, flow).Some? && WriteFor(r, flow).value != flow ==>
            Closing(r.conn.state) && NoPooled(Of(s, WriteFor(r, flow).value)))
    ensures var s' := Handled(s, flow, info); var other := if flow.Ingress? then Egress else Ingress;
      var closing := Closing(s'.conn.state);
      && SideSafe(Of(s', flow), closing) && SideSafe(Of(s', other), closing) && (closing <==> Closing(s.conn.state))
      && Backed(Of(s', other)) && Backed(Of(s', flow)) && s'.connected == s.connected
      && (NoPooled(Of(s, other)) ==> NoPooled(Of(s', other))) && (closing ==> NoPooled(Of(s', flow)))
      && (!closing && !s'.ended ==> Tokens(Of(s', flow)) == 1) && (!closing ==> Of(s', other) == Of(s, other))
      && (!s'.ended ==> SplitFrames(Of(s', flow).held) == Split([], 0))
      && (!s'.ended && Of(s', flow).held != [] ==> Of(s', flow).size == MAX_FRAME_SIZE)
  {
    hide Process, SplitFrames, Kept, Accounted, Stage, SideSafe, Begun, Reacquired;
    var side := Of(s, flow);
    var r := Process(s.conn, flow, info, side.held);
    if r.Processed? {
      var (reply, taken) := Reacquired(s.reply, s.pool, Growth(s.conn.replies, RepliesAfter(r)));
      HeldIsShort(s.conn, flow, info, side.held);
      PassSplits(s.conn, flow, info, side.held);
      KeptIsBacked(side, taken, r.conn.state, r.held);
      if r.conn.state.Open? {
        OpenWritesAlong(s.conn, flow, info, side.held);
      }
      var (kept, pool) := Kept(Accounted(side, r.conn.state, side.held, |r.held|), taken, r.held);
      var next := With(s, flow, kept).(conn := r.conn, reply := reply, pool := pool);
      var w := Sending(MemoryOf(r, side, reply), SocketOf(r), WriteOf(r));
      BegunIsSafe(next, flow, WriteFor(r, flow), w, Closing(r.conn.state));
      BegunKeepsConn(next, flow, WriteFor(r, flow), w);
    } else {
      IdleIsSafe(side, Closing(s.conn.state));
    }
  }

  lemma BegunKeepsConn(s: Session, flow: Flow, to: Option<Flow>, w: Sending)
    ensures var s' := Begun(s, flow, to, w);
      s'.conn == s.conn && s'.connected == s.connected && s'.ended == s.ended && s'.reply == s.reply
  {
  }

  lemma IdleIsSafe(side: Side, closing: bool)
    requires NoPooled(side) && Backed(side) && (closing || Tokens(side) == 0)
    ensures SideSafe(side, closing)
  {
  }

  /** Before the pass: what has been read is in a buffer no write reads from. */
  lemma FilledIsBacked(s: Session, h: Happening)
    requires BuffersSafe(s) && Enabled(s, h) && h.Read?
    ensures var f := Filled(s, h.flow, h.available, h.chunk); var side := Of(f, h.flow);
      && NoPooled(side) && side.data.Some? && |side.held| <= side.size && Backed(side)
      && (Closing(s.conn.state) || Tokens(side) == 0)
      && f.conn == s.conn && f.connected == s.connected && f.ended == s.ended
      && Of(f, if h.flow.Ingress? then Egress else Ingress) == Of(s, if h.flow.Ingress? then Egress else Ingress)
  {
    hide ConnSafe, SplitFrames;
  }

  lemma ReadKeepsBuffers(s: Session, h: Happening)
    requires BuffersSafe(s) && Enabled(s, h) && h.Read? && Aligned(s, h)
    ensures BuffersSafe(Proceed(s, h))
  {
    hide Process, Handled, Stage, Filled, SplitFrames, SideSafe;
    FilledIsBacked(s, h);
    var filled := Filled(s, h.flow, h.available, h.chunk);
    if !(h.flow.Ingress? && h.paused) {
      var r := Answer(s, h);
      if r.Processed? {
        PassAdvances(filled.conn, h.flow, h.info, Of(filled, h.flow).held);
      }
      PassConn(filled, h.flow, h.info);
      PassIsSafe(filled, h.flow, h.info);
    } else {
      IdleIsSafe(Of(filled, h.flow), Closing(s.conn.state));
    }
  }

  lemma PassConn(s: Session, flow: Flow, info: SessionInfo)
    ensures Handled(s, flow, info).reply ==
      Reacquired(s.reply, s.pool, Growth(s.conn.replies, RepliesAfter(Process(s.conn, flow, info, Of(s, flow).held)))).0
    ensures var r := Process(s.conn, flow, info, Of(s, flow).held); var s' := Handled(s, flow, info);
      && (r.Refused? ==> s' == s.(reply := s'.reply, pool := s'.pool, ended := true))
      && (r.Processed? ==> s'.conn == r.conn && (s'.ended <==> s.ended || r.conn.state.Error? || r.conn.state.Closed?))
  {
    hide Process, SplitFrames, Kept, Reacquired;
  }

  // ----- messages of the proxy's own

  /** A close always has something to send, to the side asked for. */
  lemma CloseIsSent(c: Conn, toIngress: bool, e: Event)
    requires e == CloseSynthesized(toIngress) || e == CloseErrorSynthesized(toIngress)
    ensures var r := Apply(c, e);
      && r.Next? && r.conn.out != [] && r.conn.toIngress == toIngress && r.conn.vhost == c.vhost && r.conn.replies == c.replies + 1
      && r.conn.state == if e.CloseErrorSynthesized? then c.state else if toIngress then ClientCloseSent else ServerCloseSent
  {
    var text := if e.CloseSynthesized? then Ascii("OK") else Ascii("ERROR: Expected CloseOk reply");
    var m := CloseMethod(SetReply(c.close, if e.CloseSynthesized? then REPLY_SUCCESS else CHANNEL_ERROR, text, 0, 0));
    ShortCloseFits(m.close);
    TransmittedIffFits(m);
    hide Transmit, Ascii, FitsFrame, ResponseFrame;
    assert |EncodeFrame(ResponseFrame(m))| > 0;
  }

  lemma ShortCloseFits(close: Close)
    requires |close.text| <= SHORT_STRING_LIMIT
    ensures FitsFrame(CloseMethod(close))
  {
    hide BigEndian;
    var ps := PartsOf(CloseMethod(close));
    assert |EncodeParts(ps)| == |EncodePart(ps[0])| + |EncodeParts(ps[1..])|;
    FiveParts(ps[1..]);
  }

  lemma MoreIsSafe(side: Side, w: Sending, closing: bool)
    requires SideSafe(side, closing) && NoPooled(side) && Backed(side) && !w.mem.Pooled?
    ensures var side' := side.(writes := side.writes + [w]); SideSafe(side', true) && NoPooled(side') && Backed(side')
  {
    hide SplitFrames;
  }

  lemma ClosingIsSafe(side: Side, closing: bool)
    requires SideSafe(side, closing)
    ensures SideSafe(side, true)
  {
    hide SplitFrames;
  }

  /** What a close sent to one side changes. */
  lemma SynthesizedClose(s: Session, toIngress: bool, e: Event)
    requires e == CloseSynthesized(toIngress) || e == CloseErrorSynthesized(toIngress)
    ensures Apply(s.conn, e).Next?
    ensures var s', c := Synthesized(s, e), Apply(s.conn, e).conn; var w := Sending(Reply(s.pool.issued), if toIngress then Ingress else Egress, c.out);
      && s' == s.(conn := c.(out := []), reply := Some(s.pool.issued), pool := s'.pool, ingress := s'.ingress, egress := s'.egress)
      && s'.ingress == (if toIngress then s.ingress.(writes := s.ingress.writes + [w]) else s.ingress)
      && s'.egress == (if toIngress then s.egress else s.egress.(writes := s.egress.writes + [w]))
      && s'.pool == GiveBack(s.pool, s.reply).(issued := s.pool.issued + 1)
  {
    hide Apply;
    CloseIsSent(s.conn, toIngress, e);
    assert Reacquired(s.reply, s.pool, 1) == Reacquired(Some(s.pool.issued), GiveBack(s.pool, s.reply).(issued := s.pool.issued + 1), 0);
  }

  lemma DisconnectKeepsBuffers(s: Session)
    requires BuffersSafe(s) && Enabled(s, Disconnect) && NoPooled(s.ingress)
    ensures BuffersSafe(Proceed(s, Disconnect))
  {
    var e := CloseSynthesized(true);
    CloseIsSent(s.conn, true, e);
    SynthesizedClose(s, true, e);
    hide SideSafe, Stage, Synthesized, Apply;
    ClosingIsSafe(s.egress, Closing(s.conn.state));
    MoreIsSafe(s.ingress, Sending(Reply(s.pool.issued), Ingress, Apply(s.conn, e).conn.out), Closing(s.conn.state));
  }

  lemma ReadFailedKeepsBuffers(s: Session, flow: Flow, fetching: Option<nat>)
    requires BuffersSafe(s) && Enabled(s, ReadFailed(flow, fetching)) && !GivesUp(s, flow)
    ensures BuffersSafe(Proceed(s, ReadFailed(flow, fetching)))
  {
    hide GivenUp, Stage, SplitFrames;
  }

  /** One write less, and one read more unless it failed. */
  lemma DoneSide(side: Side, pool: Pool, index: nat, failed: bool, closing: bool)
    requires SideSafe(side, closing) && index < |side.writes|
    ensures var released := if side.held == [] then Released(side, pool).0 else side;
      var side' := released.(writes := side.writes[..index] + side.writes[index + 1..],
                             readers := if failed then side.readers else side.readers + 1);
      && SideSafe(side', closing) && NoPooled(side') && (Backed(side) ==> Backed(side')) && side'.held == side.held
      && (side.held != [] ==> side'.size == side.size)
      && Tokens(side') == if failed then Tokens(side) - 1 else Tokens(side)
  {
    hide SplitFrames;
    var rest := side.writes[..index] + side.writes[index + 1..];
    assert |rest| == |side.writes| - 1 && forall w :: w in rest ==> w in side.writes;
    if !NoPooled(side) {
      assert rest == [];
    }
  }

  lemma DoneKeepsBuffers(s: Session, flow: Flow, index: nat, failed: bool)
    requires BuffersSafe(s) && index < |Of(s, flow).writes| && !(failed && GivesUp(s, flow))
    ensures BuffersSafe(Completed(s, flow, index, failed))
  {
    hide GivenUp, Stage, SideSafe, NoPooled, Released, Backed, ConnSafe;
    DoneSide(Of(s, flow), s.pool, index, failed, Closing(s.conn.state));
  }

  lemma ConnectedKeepsBuffers(s: Session)
    requires BuffersSafe(s) && Enabled(s, Connected)
    ensures BuffersSafe(Proceed(s, Connected))
  {
    hide SplitFrames, Reacquired;
  }

  lemma QuietKeepsBuffers(s: Session, h: Happening)
    requires BuffersSafe(s) && Enabled(s, h) && (h.Blocked? || h.Authorised? || h.Destroyed?)
    ensures BuffersSafe(Proceed(s, h))
  {
    hide Stage, SplitFrames;
  }

  lemma StepKeepsBuffers(s: Session, h: Happening)
    requires BuffersSafe(s) && Enabled(s, h) && Aligned(s, h)
    ensures BuffersSafe(Proceed(s, h))
  {
    match h
    case Read(_, _, _, _, _) => hide *; ReadKeepsBuffers(s, h);
    case ReadFailed(flow, fetching) => hide BuffersSafe, Broken, GivesUp; ReadFailedKeepsBuffers(s, flow, fetching);
    case WriteDone(flow, index, failed) => hide BuffersSafe, Completed, GivesUp; DoneKeepsBuffers(s, flow, index, failed);
    case Connected => hide *; ConnectedKeepsBuffers(s);
    case Disconnect => hide BuffersSafe, NoPooled, Synthesized; DisconnectKeepsBuffers(s);
    case _ => hide *; QuietKeepsBuffers(s, h);
  }

  // ----- and replies

  /** What a pass begins, it begins out of the present reply buffer or not out of any. */
  lemma PassReplies(s: Session, flow: Flow, info: SessionInfo, d: Flow, w: Sending)
    requires w in Of(Handled(s, flow, info), d).writes && w !in Of(s, d).writes && w.mem.Reply?
    ensures var r := Process(s.conn, flow, info, Of(s, flow).held);
      && Some(w.mem.ticket) == Handled(s, flow, info).reply
      && r.Processed? && WriteFor(r, flow) == Some(d) && !r.conn.state.Error?
      && (r.conn.state.Open? ==> Of(s, flow).data.None?)
  {
    hide Process, SplitFrames, Reacquired, Kept, Accounted;
    var side := Of(s, flow);
    var r := Process(s.conn, flow, info, side.held);
    if r.Processed? {
      HeldIsShort(s.conn, flow, info, side.held);
      KeptWrites(side, r.conn.state, Reacquired(s.reply, s.pool, Growth(s.conn.replies, RepliesAfter(r))).1, r.held);
    }
  }

  lemma KeptWrites(side: Side, state: State, pool: Pool, rest: seq<Byte>)
    requires |rest| <= |side.held|
    ensures Kept(Accounted(side, state, side.held, |rest|), pool, rest).0.writes == side.writes
  {
    hide SplitFrames;
  }

  lemma PassKeepsReplies(s: Session, flow: Flow, info: SessionInfo)
    requires Replying(s.ingress, s.reply) && Replying(s.egress, s.reply)
    requires s.conn.replies < RepliesAfter(Process(s.conn, flow, info, Of(s, flow).held)) ==> Quiet(s)
    ensures var s' := Handled(s, flow, info); Replying(s'.ingress, s'.reply) && Replying(s'.egress, s'.reply)
  {
    hide Process, Handled, Quiet, Reacquired;
    var s' := Handled(s, flow, info);
    PassConn(s, flow, info);
    forall d, w | w in Of(s', d).writes && w.mem.Reply? ensures Some(w.mem.ticket) == s'.reply {
      if w !in Of(s, d).writes {
        PassReplies(s, flow, info, d, w);
      } else {
        KeptReplies(s, flow, info, d, w);
      }
    }
    assert forall w :: w in s'.ingress.writes && w.mem.Reply? ==> w in Of(s', Ingress).writes;
    assert forall w :: w in s'.egress.writes && w.mem.Reply? ==> w in Of(s', Egress).writes;
  }

  lemma KeptReplies(s: Session, flow: Flow, info: SessionInfo, d: Flow, w: Sending)
    requires Replying(s.ingress, s.reply) && Replying(s.egress, s.reply) && w in Of(s, d).writes && w.mem.Reply?
    requires s.conn.replies < RepliesAfter(Process(s.conn, flow, info, Of(s, flow).held)) ==> Quiet(s)
    ensures Some(w.mem.ticket) == Handled(s, flow, info).reply
  {
    hide Process, Handled;
    PassConn(s, flow, info);
  }

  /** Early in the handshake. */
  lemma PassWaits(s: Session, flow: Flow, info: SessionInfo)
    requires ConnSafe(s.conn, s.connected) && !Closing(s.conn.state) && !s.ended && Of(s, flow).data.Some?
    requires if flow.Ingress? then s.ingress.writes == [] else s.connected && NoReplies(s.ingress)
    requires !flow.Ingress? ==> Handled(s, flow, info).ingress == s.ingress
    ensures var s' := Handled(s, flow, info); s'.ended || NoReplies(s'.ingress) || Stage(s'.conn.state) <= 2
  {
    hide Process, Handled, Stage, Dialing;
    var s', r := Handled(s, flow, info), Process(s.conn, flow, info, Of(s, flow).held);
    PassConn(s, flow, info);
    if flow.Ingress? && !NoReplies(s'.ingress) {
      var w :| w in s'.ingress.writes && w.mem.Reply?;
      PassReplies(s, flow, info, Ingress, w);
      PassAnswers(s.conn, flow, info, s.ingress.held);
    }
  }

  lemma ReadKeepsReplies(s: Session, h: Happening)
    requires Safe(s) && Enabled(s, h) && h.Read? && Aligned(s, h)
    ensures RepliesSafe(Proceed(s, h))
  {
    hide Process, Handled, SplitFrames, SideSafe;
    FilledIsBacked(s, h);
    FilledReplies(s, h);
    var f := Filled(s, h.flow, h.available, h.chunk);
    if !(h.flow.Ingress? && h.paused) {
      hide Filled;
      PassKeepsReplies(f, h.flow, h.info);
      if Answer(s, h).Processed? {
        PassAdvances(f.conn, h.flow, h.info, Of(f, h.flow).held);
      }
      PassConn(f, h.flow, h.info);
      if !Closing(s.conn.state) && !Proceed(s, h).ended {
        ReadKeepsOther(s, h);
        PassWaits(f, h.flow, h.info);
      }
    }
  }

  lemma FilledReplies(s: Session, h: Happening)
    requires Enabled(s, h) && h.Read?
    ensures var f := Filled(s, h.flow, h.available, h.chunk);
      && f.ingress.writes == s.ingress.writes && f.egress.writes == s.egress.writes && f.reply == s.reply
      && f.conn == s.conn && f.connected == s.connected && f.ended == s.ended
  {
  }

  /** An aligned read short of closing leaves the other direction alone. */
  lemma ReadKeepsOther(s: Session, h: Happening)
    requires BuffersSafe(s) && Enabled(s, h) && h.Read? && Aligned(s, h) && !(h.flow.Ingress? && h.paused) && !Closing(s.conn.state)
    ensures var f := Filled(s, h.flow, h.available, h.chunk); var other := if h.flow.Ingress? then Egress else Ingress;
      Of(Handled(f, h.flow, h.info), other) == Of(f, other)
  {
    hide Process, Handled, Stage, Filled;
    FilledIsBacked(s, h);
    var f := Filled(s, h.flow, h.available, h.chunk);
    if Answer(s, h).Processed? {
      PassAdvances(f.conn, h.flow, h.info, Of(f, h.flow).held);
    }
    PassIsSafe(f, h.flow, h.info);
  }

  lemma DoneKeepsReplies(s: Session, flow: Flow, index: nat, failed: bool)
    requires RepliesSafe(s) && index < |Of(s, flow).writes| && !(failed && GivesUp(s, flow))
    ensures RepliesSafe(Completed(s, flow, index, failed))
  {
    hide GivenUp, Stage;
    var side := Of(s, flow);
    assert forall w :: w in side.writes[..index] + side.writes[index + 1..] ==> w in side.writes;
  }

  lemma StepKeepsReplies(s: Session, h: Happening)
    requires Safe(s) && Enabled(s, h) && Aligned(s, h)
    ensures RepliesSafe(Proceed(s, h))
  {
    match h
    case Read(_, _, _, _, _) => hide *; ReadKeepsReplies(s, h);
    case WriteDone(flow, index, failed) => hide RepliesSafe, BuffersSafe, Completed, GivesUp; DoneKeepsReplies(s, flow, index, failed);
    case Connected => hide BuffersSafe, Stage; assert Reacquired(s.reply, s.pool, 1).0 == Some(s.pool.issued);
    case Disconnect =>
      SynthesizedClose(s, true, CloseSynthesized(true));
      CloseIsSent(s.conn, true, CloseSynthesized(true));
      hide BuffersSafe, Stage, Synthesized, Apply;
    case _ => hide BuffersSafe, RepliesSafe, GivesUp; OthersKeepReplies(s, h);
  }

  lemma OthersKeepReplies(s: Session, h: Happening)
    requires RepliesSafe(s) && Enabled(s, h) && (h.Blocked? || h.Authorised? || h.Destroyed? || (h.ReadFailed? && !GivesUp(s, h.flow)))
    ensures RepliesSafe(Proceed(s, h))
  {
    hide GivenUp, Stage;
  }

  lemma StepKeepsSafe(s: Session, h: Happening)
    requires Safe(s) && Enabled(s, h) && Aligned(s, h)
    ensures Safe(Proceed(s, h))
  {
    hide BuffersSafe, RepliesSafe, Enabled, Aligned, Proceed;
    StepKeepsBuffers(s, h);
    StepKeepsReplies(s, h);
  }

  lemma StartIsSafe(start: Start, tune: Tune)
    ensures Safe(Started(start, tune)) && Conserved(Started(start, tune))
  {
    FewSplitNothing([]);
  }

  lemma {:induction false} AlignedRunIsSafe(s: Session, hs: seq<Happening>)
    requires Safe(s) && Possible(s, hs) && AllAligned(s, hs)
    ensures Safe(ProceedAll(s, hs))
    decreases |hs|
  {
    hide Safe, Enabled, Aligned, Proceed;
    if hs != [] {
      StepKeepsSafe(s, hs[0]);
      AlignedRunIsSafe(Proceed(s, hs[0]), hs[1..]);
    }
  }

  /**
   * From the start of a session to its end, through its handshake, while it is open and while
   * it closes: as long as every step was aligned, the memory behind each passthrough write in
   * flight is owned by exactly one of the two handles of its direction, and the memory behind
   * each reply by the connector's handle, and by nobody else. Short of closing, a read
   * outstanding has room for at least one octet.
   */
  lemma AlignedRunsOwn(start: Start, tune: Tune, hs: seq<Happening>)
    requires Possible(Started(start, tune), hs) && AllAligned(Started(start, tune), hs)
    ensures var s := ProceedAll(Started(start, tune), hs);
      && (forall flow, w :: w in Of(s, flow).writes && w.mem.Pooled? ==> OwnedOnce(s, flow, w.mem.ticket))
      && (forall flow, w :: w in Of(s, flow).writes && w.mem.Reply? ==> ReplyOwned(s, w.mem.ticket))
      && (forall flow, available: nat :: !Closing(s.conn.state) && Of(s, flow).readers > 0 ==> Room(Of(s, flow), available) >= 1)
  {
    hide Enabled, Proceed, Stage;
    var init := Started(start, tune);
    StartIsSafe(start, tune);
    AlignedRunIsSafe(init, hs);
    RunConserves(init, hs);
    var s := ProceedAll(init, hs);
    forall flow, w | w in Of(s, flow).writes && w.mem.Pooled? ensures OwnedOnce(s, flow, w.mem.ticket) {
      OwnedIsOnce(s, flow, w.mem.ticket);
    }
    forall flow, w | w in Of(s, flow).writes && w.mem.Reply? ensures ReplyOwned(s, w.mem.ticket) {
      ReplyIsOwned(s, w.mem.ticket);
    }
  }

  /** One of the direction's two handles owns the buffer; it was not given back and nobody else owns it. */
  ghost predicate OwnedOnce(s: Session, flow: Flow, t: nat) {
    && Owned(Of(s, flow))[t] == 1
    && Owned(Of(s, if flow.Ingress? then Egress else Ingress))[t] == 0
    && s.reply != Some(t) && t !in s.pool.returned
  }

  lemma OwnedIsOnce(s: Session, flow: Flow, t: nat)
    requires Conserved(s) && (Some(t) == Of(s, flow).data || Some(t) == Of(s, flow).spare)
    ensures OwnedOnce(s, flow, t)
  {
    CountOf(s, t);
    assert Owned(Of(s, flow))[t] >= 1;
  }

  /** The connector's handle owns the buffer; it was not given back and no direction owns it. */
  ghost predicate ReplyOwned(s: Session, t: nat) {
    s.reply == Some(t) && Owned(s.ingress)[t] == Owned(s.egress)[t] == 0 && t !in s.pool.returned
  }

  lemma ReplyIsOwned(s: Session, t: nat)
    requires Conserved(s) && s.reply == Some(t)
    ensures ReplyOwned(s, t)
  {
    CountOf(s, t);
  }
}
