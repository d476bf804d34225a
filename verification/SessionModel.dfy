/**
 * A session's read, process and write loop, from its start and in both directions. Reads and
 * writes are counted per direction; pooled buffers are known by the order of their issue.
 */
module SessionModel {
  import opened Bytes
  import opened Frames
  import opened Methods
  import opened ConnectorModel
  import opened ConnectorRuns
  import opened Handshake
  import opened PacketModel
  import opened Options

  /** What a write reads from: a buffer of its direction, the connector's reply buffer, or a constant. */
  datatype Memory = Pooled(ticket: nat) | Reply(ticket: nat) | Fixed

  /** A write in flight: out of which memory, to the socket of which side, and what. */
  datatype Sending = Sending(mem: Memory, socket: Flow, octets: seq<Byte>)

  /**
   * One direction. `data` and `spare` are what its two handles own, `size` the size asked for
   * the first; `held` are the octets up to the watermark. The rest is history: what was read,
   * what of it the proxy kept to itself before and after it passed frames on, those frames, the
   * octets of the writes that passed them on, and the reads that passed any.
   */
  datatype Side = Side(data: Option<nat>, spare: Option<nat>, size: nat, held: seq<Byte>,
                       readers: nat, writes: seq<Sending>,
                       received: seq<Byte>, eaten: seq<Byte>, frames: seq<Frame>, late: seq<Byte>, sent: seq<Byte>, packets: nat)

  /** How many buffers this session was issued, and those given back, in order. */
  datatype Pool = Pool(issued: nat, returned: seq<nat>)

  /** `reply` is what the connector's own handle owns. */
  datatype Session = Session(conn: Conn, ingress: Side, egress: Side, reply: Option<nat>, pool: Pool, connected: bool, ended: bool)

  /**
   * Completions, with whatever the sockets deliver, what authentication decides, and an
   * operator's request to close. A failed read says how much was available if it failed only
   * when the data was fetched.
   */
  datatype Happening =
    | Read(flow: Flow, available: nat, chunk: seq<Byte>, paused: bool, info: SessionInfo)
    | Blocked(flow: Flow, available: nat)
    | ReadFailed(flow: Flow, fetching: Option<nat>)
    | WriteDone(flow: Flow, index: nat, failed: bool)
    | Connected
    | Authorised(event: Event)
    | Disconnect
    | Destroyed

  function Of(s: Session, flow: Flow): Side {
    if flow.Ingress? then s.ingress else s.egress
  }

  function With(s: Session, flow: Flow, side: Side): Session {
    if flow.Ingress? then s.(ingress := side) else s.(egress := side)
  }

  // ----- buffers

  function GiveBack(pool: Pool, buffer: Option<nat>): Pool {
    if buffer.Some? then pool.(returned := pool.returned + [buffer.value]) else pool
  }

  /** A fresh buffer takes the place of what the data handle owned. */
  function Acquired(side: Side, pool: Pool, size: nat): (Side, Pool) {
    (side.(data := Some(pool.issued), size := size), GiveBack(pool, side.data).(issued := pool.issued + 1))
  }

  function Released(side: Side, pool: Pool): (Side, Pool) {
    (side.(data := None, spare := None, size := 0), GiveBack(GiveBack(pool, side.data), side.spare))
  }

  /** The reply buffer is taken anew so many times. */
  function Reacquired(reply: Option<nat>, pool: Pool, times: nat): (Option<nat>, Pool)
    decreases times
  {
    if times == 0 then (reply, pool)
    else Reacquired(Some(pool.issued), GiveBack(pool, reply).(issued := pool.issued + 1), times - 1)
  }

  function Growth(before: nat, after: nat): nat {
    if before <= after then after - before else 0
  }

  function AtLeastOne(available: nat): nat {
    if available == 0 then 1 else available
  }

  /** Before data is fetched: fresh memory unless something is held. */
  function Prepared(side: Side, pool: Pool, available: nat): (Side, Pool) {
    if side.held == [] then Acquired(side, pool, AtLeastOne(available)) else (side, pool)
  }

  /** What is left moves to fresh memory; the other handle keeps the memory it came from. */
  function Kept(side: Side, pool: Pool, rest: seq<Byte>): (Side, Pool) {
    if rest == [] then (side.(held := []), pool)
    else
      var (next, pool) := Acquired(side.(data := side.spare, spare := side.data), pool,
                                   if |rest| > MAX_FRAME_SIZE then |rest| else MAX_FRAME_SIZE);
      (next.(held := rest), pool)
  }

  /** How much a read may deliver: the socket is asked for no more than fits. */
  function Room(side: Side, available: nat): int {
    if side.held == [] then AtLeastOne(available) else side.size - |side.held|
  }

  // ----- one happening

  /** The direction a pass over a read starts a write for, if it starts one. */
  function WriteFor(r: Processed, flow: Flow): Option<Flow>
    requires r.Processed?
  {
    if r.ingressWrite != [] then Some(if r.conn.state.Open? then Egress else Ingress)
    else if r.egressWrite != [] then Some(if r.conn.state.Open? then Ingress else Egress)
    else None
  }

  function WriteOf(r: Processed): seq<Byte>
    requires r.Processed?
  {
    if r.ingressWrite != [] then r.ingressWrite else r.egressWrite
  }

  /** The side to whose socket it goes. */
  function SocketOf(r: Processed): Flow
    requires r.Processed?
  {
    if r.ingressWrite != [] then Ingress else Egress
  }

  /** What the account of a direction becomes when `bs` was processed and `rest` is left of it. */
  function Accounted(side: Side, state: State, bs: seq<Byte>, rest: nat): Side
    requires rest <= |bs|
  {
    if state.Open? then
      var s := SplitFrames(bs);
      side.(frames := side.frames + if s.Split? then s.frames else [], packets := side.packets + 1)
    else if Closing(state) then side.(late := side.late + bs[..|bs| - rest])
    else side.(eaten := side.eaten + bs[..|bs| - rest])
  }

  function Begun(s: Session, flow: Flow, to: Option<Flow>, w: Sending): Session {
    match to
    case None => With(s, flow, Of(s, flow).(readers := Of(s, flow).readers + 1))
    case Some(d) => With(s, d, Of(s, d).(writes := Of(s, d).writes + [w], sent := Of(s, d).sent + PassedOn(w)))
  }

  /** What a write passes on from one side to the other. */
  function PassedOn(w: Sending): seq<Byte> {
    if w.mem.Pooled? then w.octets else []
  }

  /** Where what a pass has to write lies. */
  function MemoryOf(r: Processed, side: Side, reply: Option<nat>): Memory
    requires r.Processed?
  {
    if r.conn.state.Open? && side.data.Some? then Pooled(side.data.value)
    else if !r.conn.state.Error? && reply.Some? then Reply(reply.value)
    else Fixed
  }

  /** A pass of the packet processor, and what the session does with its outcome. */
  function Handled(s: Session, flow: Flow, info: SessionInfo): Session {
    var side := Of(s, flow);
    var r := Process(s.conn, flow, info, side.held);
    var (reply, pool) := Reacquired(s.reply, s.pool, Growth(s.conn.replies, RepliesAfter(r)));
    if r.Refused? then s.(reply := reply, pool := pool, ended := true)
    else
      HeldIsShort(s.conn, flow, info, side.held);
      var (kept, pool) := Kept(Accounted(side, r.conn.state, side.held, |r.held|), pool, r.held);
      var next := With(s, flow, kept).(conn := r.conn, reply := reply, pool := pool);
      Begun(next, flow, WriteFor(r, flow), Sending(MemoryOf(r, side, reply), SocketOf(r), WriteOf(r)))
        .(ended := s.ended || r.conn.state.Error? || r.conn.state.Closed?)
  }

  function Readied(s: Session, flow: Flow, available: nat): (r: Session)
    ensures Of(r, flow).readers == Of(s, flow).readers
  {
    var (side, pool) := Prepared(Of(s, flow), s.pool, available);
    With(s, flow, side).(pool := pool)
  }

  function Filled(s: Session, flow: Flow, available: nat, chunk: seq<Byte>): Session
    requires Of(s, flow).readers > 0
  {
    var s := Readied(s, flow, available);
    var side := Of(s, flow);
    With(s, flow, side.(held := side.held + chunk, readers := side.readers - 1, received := side.received + chunk))
  }

  /** A message the proxy sends of its own accord, for the side the connector names. */
  function Synthesized(s: Session, e: Event): Session {
    match Apply(s.conn, e)
    case Thrown(_) => s.(ended := true)
    case Next(c) =>
      var (reply, pool) := Reacquired(s.reply, s.pool, Growth(s.conn.replies, c.replies));
      var s := s.(conn := c.(out := []), reply := reply, pool := pool);
      if c.out == [] || reply.None? then s
      else
        var d := if c.toIngress then Ingress else Egress;
        With(s, d, Of(s, d).(writes := Of(s, d).writes + [Sending(Reply(reply.value), d, c.out)]))
  }

  /** A client that does not confirm a close: the broker is sent one, and the client an error. */
  function GivenUp(s: Session): Session {
    Synthesized(Synthesized(s, CloseSynthesized(false)), CloseErrorSynthesized(true))
  }

  /** A completion failed. */
  function Failed(s: Session, flow: Flow): Session {
    if !s.ended && flow.Ingress? && s.conn.state.ClientCloseSent? then GivenUp(s) else s.(ended := true)
  }

  /** A read has failed, before or while the data was fetched. */
  function Broken(s: Session, flow: Flow, fetching: Option<nat>): Session
    requires Of(s, flow).readers > 0
  {
    var s := if fetching.Some? then Readied(s, flow, fetching.value) else s;
    Failed(With(s, flow, Of(s, flow).(readers := Of(s, flow).readers - 1)), flow)
  }

  /** A broker has been reached: it is sent the protocol header. */
  function Greeted(s: Session): Session {
    var (reply, pool) := Reacquired(s.reply, s.pool, 1);
    s.(conn := s.conn.(out := PROTOCOL_HEADER, replies := s.conn.replies + 1), reply := reply, pool := pool, connected := true,
       egress := s.egress.(writes := s.egress.writes + [Sending(Reply(s.pool.issued), Egress, PROTOCOL_HEADER)]))
  }

  function Completed(s: Session, flow: Flow, index: nat, failed: bool): Session
    requires index < |Of(s, flow).writes|
  {
    var side := Of(s, flow);
    var (side', pool) := if side.held == [] then Released(side, s.pool) else (side, s.pool);
    var s := With(s, flow, side'.(writes := side.writes[..index] + side.writes[index + 1..],
                                  readers := if failed then side.readers else side.readers + 1)).(pool := pool);
    if failed then Failed(s, flow) else s
  }

  function Ended(s: Session): Session {
    var (ingress, pool) := Released(s.ingress, s.pool);
    var (egress, pool) := Released(s.egress, pool);
    s.(ingress := ingress, egress := egress, reply := None, pool := GiveBack(pool, s.reply), ended := true)
  }

  /** The client has named its vhost, so a broker is being looked for or has been found. */
  predicate Dialing(s: State) {
    Stage(s) >= 4
  }

  /**
   * What can happen. Handlers keep the session alive, so it is destroyed only when nothing is
   * outstanding; an exception, an error state or a failed completion ends the reading.
   */
  predicate Enabled(s: Session, h: Happening) {
    match h
    case Read(flow, available, chunk, _, _) =>
      !s.ended && Of(s, flow).readers > 0 && |chunk| <= Room(Of(s, flow), available)
    case Blocked(flow, _) => !s.ended && Of(s, flow).readers > 0
    case ReadFailed(flow, _) => Of(s, flow).readers > 0
    case WriteDone(flow, index, _) => index < |Of(s, flow).writes|
    case Connected => !s.ended && !s.connected && (Dialing(s.conn.state) || Closing(s.conn.state))
    case Authorised(e) => !s.ended && (e.SetCredentials? || e.SetAuthReason?)
    case Disconnect => !s.ended
    case Destroyed => s.ingress.readers == s.egress.readers == 0 && s.ingress.writes == s.egress.writes == []
  }

  function Proceed(s: Session, h: Happening): Session
    requires Enabled(s, h)
  {
    match h
    case Read(flow, available, chunk, paused, info) =>
      var filled := Filled(s, flow, available, chunk);
      if flow.Ingress? && paused then filled else Handled(filled, flow, info)
    case Blocked(flow, available) => Readied(s, flow, available)
    case ReadFailed(flow, fetching) => Broken(s, flow, fetching)
    case WriteDone(flow, index, failed) => Completed(s, flow, index, failed)
    case Connected => Greeted(s)
    case Authorised(e) => s.(conn := Apply(s.conn, e).conn)
    case Disconnect => Synthesized(s, CloseSynthesized(true))
    case Destroyed => Ended(s)
  }

  function NewSide(readers: nat): Side {
    Side(None, None, 0, [], readers, [], [], [], [], [], [], 0)
  }

  /** A session waits for its client first. */
  function Started(start: Start, tune: Tune): Session {
    Session(Initial(start, tune), NewSide(1), NewSide(0), None, Pool(0, []), false, false)
  }

  predicate Possible(s: Session, hs: seq<Happening>)
    decreases |hs|
  {
    hs != [] ==> Enabled(s, hs[0]) && Possible(Proceed(s, hs[0]), hs[1..])
  }

  function ProceedAll(s: Session, hs: seq<Happening>): Session
    requires Possible(s, hs)
    decreases |hs|
  {
    if hs == [] then s else ProceedAll(Proceed(s, hs[0]), hs[1..])
  }
}
