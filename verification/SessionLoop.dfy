/** The session object: it refines SessionModel over pooled memory, from the start and in both directions. */
module SessionLoops {
  import opened Bytes
  import opened Frames
  import opened Methods
  import opened ConnectorModel
  import opened ConnectorRuns
  import opened Connectors
  import opened Handshake
  import opened Options
  import opened PacketModel
  import opened PacketProcessing
  import opened BufferPools
  import opened SessionModel
  import opened SessionRuns

  predicate Names(mem: array?<Byte>, ticket: Option<nat>, named: map<nat, array<Byte>>) {
    if ticket.Some? then ticket.value in named && named[ticket.value] == mem else mem == null
  }

  /** A write handed to the socket of one side. */
  datatype Outgoing = Outgoing(socket: Flow, slice: Slice)

  /** An outstanding write is to the socket, for as many octets, and of the memory, as the model says. */
  predicate Sends(w: Outgoing, s: Sending, named: map<nat, array<Byte>>) {
    && w.socket == s.socket && w.slice.Valid() && w.slice.length == |s.octets|
    && (s.mem.Pooled? ==> Names(w.slice.mem, Some(s.mem.ticket), named))
  }

  predicate AllSend(ws: seq<Outgoing>, ss: seq<Sending>, named: map<nat, array<Byte>>) {
    |ws| == |ss| && forall i :: 0 <= i < |ws| ==> Sends(ws[i], ss[i], named)
  }

  lemma AllStillSend(ws: seq<Outgoing>, ss: seq<Sending>, named: map<nat, array<Byte>>, t: nat, mem: array<Byte>)
    requires AllSend(ws, ss, named) && t !in named
    ensures AllSend(ws, ss, named[t := mem])
  {
  }

  lemma StillSends(w: Outgoing, s: Sending, named: map<nat, array<Byte>>, named': map<nat, array<Byte>>)
    requires Sends(w, s, named)
    requires s.mem.Pooled? ==> forall t :: t in named ==> t in named' && named'[t] == named[t]
    ensures Sends(w, s, named')
  {
  }

  lemma OneLessSends(ws: seq<Outgoing>, ss: seq<Sending>, named: map<nat, array<Byte>>, i: nat)
    requires AllSend(ws, ss, named) && i < |ws|
    ensures |ws| == |ss| && AllSend(ws[..i] + ws[i + 1..], ss[..i] + ss[i + 1..], named)
  {
  }

  lemma OneMoreSends(ws: seq<Outgoing>, ss: seq<Sending>, named: map<nat, array<Byte>>, w: Outgoing, s: Sending)
    requires AllSend(ws, ss, named) && Sends(w, s, named)
    ensures AllSend(ws + [w], ss + [s], named)
  {
  }

  lemma Shifted<T>(s: seq<T>, index: nat)
    requires index < |s|
    ensures var r := s[..index] + s[index + 1..];
      |r| == |s| - 1 && forall i :: 0 <= i < |r| ==> r[i] == s[if i < index then i else i + 1]
  {
  }

  function Other(flow: Flow): Flow {
    if flow.Ingress? then Egress else Ingress
  }

  function SumsOf(side: Side): Sums {
    Sums(side.packets, |side.frames|, |EncodeAll(side.frames)|)
  }

  function SendingOf(r: Processed, side: Side, reply: Option<nat>): Sending
    requires r.Processed?
  {
    Sending(MemoryOf(r, side, reply), SocketOf(r), WriteOf(r))
  }

  /** What becomes of the reply buffer in a pass. */
  function ReplyAfter(s: Session, r: Processed): (Option<nat>, Pool) {
    Reacquired(s.reply, s.pool, Growth(s.conn.replies, RepliesAfter(r)))
  }

  lemma {:induction false} ReacquiredGrows(reply: Option<nat>, pool: Pool, times: nat)
    ensures var (reply', pool') := Reacquired(reply, pool, times); pool'.issued == pool.issued + times && (times > 0 ==> reply'.Some?)
    decreases times
  {
    if times > 0 {
      ReacquiredGrows(Some(pool.issued), GiveBack(pool, reply).(issued := pool.issued + 1), times - 1);
    }
  }

  lemma HandledParts(s: Session, flow: Flow, info: SessionInfo)
    ensures var side := SessionModel.Of(s, flow); var r := Process(s.conn, flow, info, side.held); var h := Handled(s, flow, info);
      && (r.Refused? ==> h == s.(reply := ReplyAfter(s, r).0, pool := ReplyAfter(s, r).1, ended := true))
      && (r.Processed? && !s.ended ==>
            && |r.held| <= |side.held|
            && var (reply, pool) := ReplyAfter(s, r);
               var k := Kept(Accounted(side, r.conn.state, side.held, |r.held|), pool, r.held);
               var ended := r.conn.state.Error? || r.conn.state.Closed?;
               h == Begun(With(s, flow, k.0).(conn := r.conn, reply := reply, pool := k.1, ended := ended), flow, WriteFor(r, flow),
                          SendingOf(r, side, reply)))
  {
    hide Process, Kept, Accounted, Reacquired, MemoryOf;
    HeldIsShort(s.conn, flow, info, SessionModel.Of(s, flow).held);
  }

  lemma ReadiedFits(s: Session, flow: Flow, available: nat, n: nat)
    requires SessionModel.Of(s, flow).readers > 0 && n <= Room(SessionModel.Of(s, flow), available)
    ensures var r := Readied(s, flow, available); var side := SessionModel.Of(r, flow);
      && |side.held| + n <= side.size
      && (Safe(s) ==> SideSafe(r.ingress, Closing(s.conn.state)) && SideSafe(r.egress, Closing(s.conn.state)))
  {
    hide ConnSafe;
  }

  lemma FilledGoesOn(s: Session, flow: Flow, available: nat, chunk: seq<Byte>)
    requires SessionModel.Of(s, flow).readers > 0
    ensures Filled(s, flow, available, chunk).ended == s.ended
  {
  }

  /** The totals a pass is counted in keep up with the account of its direction. */
  lemma AccountedSums(c: Conn, flow: Flow, info: SessionInfo, side: Side)
    requires Process(c, flow, info, side.held).Processed?
    ensures var r := Process(c, flow, info, side.held);
      && |r.held| <= |side.held|
      && SumsOf(Accounted(side, r.conn.state, side.held, |r.held|)) == SumsOf(side).Plus(Gain(r, flow, flow))
  {
    hide Process, SplitFrames, EncodeAll;
    PassSplits(c, flow, info, side.held);
    if SplitFrames(side.held).Split? {
      SplitIsWhole(side.held);
      EncodeAllConcat(side.frames, SplitFrames(side.held).frames);
    }
  }

  function CloseEvent(toIngress: bool, error: bool): Event {
    if error then CloseErrorSynthesized(toIngress) else CloseSynthesized(toIngress)
  }

  /** One direction: its two handles, what it holds, and the reads and writes outstanding. */
  class Direction {
    const data: BufferHandle
    const spare: BufferHandle
    const totals: Totals
    var watermark: nat
    var readers: nat
    var writes: seq<Outgoing>
    ghost var side: Side                      // the direction as the model has it
    ghost var named: map<nat, array<Byte>>    // the buffers it was issued, by the order of issue

    constructor (readers: nat)
      ensures fresh(data) && fresh(spare) && fresh(totals) && New(readers)
    {
      data := new BufferHandle();
      spare := new BufferHandle();
      totals := new Totals();
      watermark, this.readers, writes := 0, readers, [];
      side, named := NewSide(readers), map[];
    }

    /** Nothing has happened to it yet. */
    ghost predicate New(readers: nat)
      reads this, data, spare, data.data, totals
    {
      Valid() && Counted() && Owned() == {} && named == map[] && side == NewSide(readers)
    }

    ghost predicate Unlike(other: Direction) {
      this != other && totals != other.totals && data !in {other.data, other.spare} && spare !in {other.data, other.spare}
    }

    ghost function Owned(): set<array<Byte>>
      reads data, spare
    {
      data.Owned() + spare.Owned()
    }

    /** What it owns it owned before, or is new. */
    twostate predicate Renewed()
      reads data, spare
    {
      forall m :: m in Owned() ==> m in old(Owned()) || fresh(m)
    }

    /** The octets up to the watermark. */
    ghost predicate Holds(bs: seq<Byte>)
      reads this, data, data.data
    {
      watermark == |bs| && (bs != [] ==> data.data != null && |bs| <= data.data.Length && data.data[..|bs|] == bs)
    }

    ghost predicate Valid()
      reads this, data, spare, data.data
    {
      && data != spare && data.Fits() && spare.Fits() && data.Owned() !! spare.Owned()
      && Names(data.data, side.data, named) && Names(spare.data, side.spare, named) && data.size == side.size
      && Holds(side.held) && readers == side.readers && AllSend(writes, side.writes, named)
    }

    /** What is being written is still there. */
    ghost predicate Intact()
      reads this, set w | w in writes :: w.slice.mem
    {
      |writes| == |side.writes| &&
      forall i :: 0 <= i < |writes| ==> writes[i].slice.Valid() && writes[i].slice.Octets() == side.writes[i].octets
    }

    twostate lemma StaysIntact()
      requires old(Intact()) && writes == old(writes) && side.writes == old(side.writes)
      requires forall w :: w in writes ==> unchanged(w.slice.mem)
      ensures Intact()
    {
    }

    /** The memory that replies are being written from. */
    ghost function Replies(): set<array<Byte>>
      reads this
    {
      set i | 0 <= i < |writes| && i < |side.writes| && !side.writes[i].mem.Pooled? :: writes[i].slice.mem
    }

    ghost predicate Counted()
      reads this, totals
    {
      totals.sums == SumsOf(side)
    }

    /** Before data is fetched: fresh memory unless something is held. */
    method Prepare(pool: BufferPool, available: nat, ghost account: Pool) returns (ghost account': Pool)
      requires pool.Valid() && Valid() && Owned() <= pool.live && account.issued !in named
      modifies this`side, this`named, pool, data
      ensures pool.Valid() && Valid() && (side, account') == Prepared(old(side), account, available)
      ensures data.data != null && (data.data == old(data.data) || fresh(data.data))
      ensures (old(Counted()) ==> Counted()) && Replies() == old(Replies())
      ensures forall t :: t in named ==> t in old(named) || t < account'.issued
      ensures Renewed() && pool.live == old(pool.live - Owned()) + Owned()
    {
      hide AllSend;
      account' := Prepared(side, account, available).1;
      if watermark == 0 {
        AcquireInto(pool, data, if available == 0 then 1 else available);
        AllStillSend(writes, side.writes, named, account.issued, data.data);
        named := named[account.issued := data.data];
      }
      side := Prepared(side, account, available).0;
    }

    /** Only the history changes. */
    ghost method Account(state: State, rest: nat)
      requires Valid() && rest <= |side.held|
      modifies this`side
      ensures Valid() && side == Accounted(old(side), state, old(side).held, rest) && side.writes == old(side.writes)
      ensures Replies() == old(Replies())
    {
      hide AllSend;
      side := Accounted(side, state, side.held, rest);
    }

    /** Octets arrive behind what is held. */
    method Fill(chunk: seq<Byte>)
      requires Valid() && data.data != null && watermark + |chunk| <= data.data.Length && readers > 0
      modifies this`watermark, this`readers, this`side, data.data
      ensures Valid() && Replies() == old(Replies())
      ensures side == old(side).(held := old(side).held + chunk, readers := old(side).readers - 1, received := old(side).received + chunk)
    {
      hide AllSend;
      var mem, at := data.data, watermark;
      forall i | 0 <= i < |chunk| {
        mem[at + i] := chunk[i];
      }
      watermark, readers := at + |chunk|, readers - 1;
      assert mem[..watermark] == side.held + chunk;
      side := side.(held := side.held + chunk, readers := side.readers - 1, received := side.received + chunk);
    }

    /** What is left moves to fresh memory; the other handle keeps the memory it came from. */
    method CopyRemaining(pool: BufferPool, rest: Slice, ghost account: Pool) returns (ghost account': Pool)
      requires pool.Valid() && Valid() && Owned() <= pool.live && account.issued !in named && rest.Valid()
      modifies this`watermark, this`side, this`named, pool, data, spare
      ensures pool.Valid() && Valid() && (side, account') == Kept(old(side), account, old(rest.Octets()))
      ensures (old(Counted()) ==> Counted()) && Replies() == old(Replies())
      ensures forall t :: t in named ==> t in old(named) || t < account'.issued
      ensures forall t :: t in old(named) ==> t in named && named[t] == old(named)[t]
      ensures Renewed() && pool.live == old(pool.live - Owned()) + Owned()
    {
      hide AllSend;
      if rest.length > 0 {
        account' := Move(pool, rest, account);
      } else {
        watermark, side := 0, side.(held := []);
        account' := account;
      }
    }

    method Move(pool: BufferPool, rest: Slice, ghost account: Pool) returns (ghost account': Pool)
      requires pool.Valid() && Valid() && Owned() <= pool.live && account.issued !in named && rest.Valid() && rest.length > 0
      modifies this`watermark, this`side, this`named, pool, data, spare
      ensures pool.Valid() && Valid() && (side, account') == Kept(old(side), account, old(rest.Octets()))
      ensures named == old(named)[account.issued := data.data] && account'.issued == account.issued + 1 && Replies() == old(Replies())
      ensures Renewed() && pool.live == old(pool.live - Owned()) + Owned()
    {
      hide AllSend;
      ghost var bs := rest.Octets();
      account' := Kept(side, account, bs).1;
      watermark := rest.length;
      Rotate(pool, data, spare, if watermark > MAX_FRAME_SIZE then watermark else MAX_FRAME_SIZE);
      var mem := data.data;
      forall i | 0 <= i < watermark {
        mem[i] := rest.mem[rest.start + i];
      }
      assert mem[..watermark] == bs;
      AllStillSend(writes, side.writes, named, account.issued, mem);
      named := named[account.issued := mem];
      side := Kept(side, account, bs).0;
    }

    method StartRead()
      requires Valid()
      modifies this`readers, this`side
      ensures Valid() && side == old(side).(readers := old(side).readers + 1)
      ensures (old(Counted()) ==> Counted()) && (old(Intact()) ==> Intact()) && Replies() == old(Replies())
    {
      hide AllSend;
      readers := readers + 1;
      side := side.(readers := side.readers + 1);
    }

    method StartWrite(w: Outgoing, ghost s: Sending)
      requires Valid() && Sends(w, s, named)
      modifies this`writes, this`side
      ensures Valid() && side == old(side).(writes := old(side).writes + [s], sent := old(side).sent + PassedOn(s))
      ensures Replies() <= old(Replies()) + if s.mem.Pooled? then {} else {w.slice.mem}
      ensures old(Counted()) ==> Counted()
      ensures old(Intact()) && w.slice.Octets() == s.octets ==> Intact()
    {
      hide AllSend;
      OneMoreSends(writes, side.writes, named, w, s);
      assert |writes| == |side.writes|;
      writes := writes + [w];
      side := side.(writes := side.writes + [s], sent := side.sent + PassedOn(s));
    }

    method EndRead()
      requires Valid() && side.readers > 0
      modifies this`readers, this`side
      ensures Valid() && side == old(side).(readers := old(side).readers - 1)
      ensures (old(Counted()) ==> Counted()) && (old(Intact()) ==> Intact()) && Replies() == old(Replies())
    {
      hide AllSend;
      readers := readers - 1;
      side := side.(readers := side.readers - 1);
    }

    /** A write is done: with nothing held both buffers go back. */
    method WriteCompleted(pool: BufferPool, index: nat, failed: bool, ghost account: Pool) returns (ghost account': Pool)
      requires pool.Valid() && Valid() && Owned() <= pool.live && index < |side.writes|
      modifies this`readers, this`writes, this`side, pool, data, spare
      ensures pool.Valid() && Valid() && (old(Counted()) ==> Counted()) && (old(Intact()) ==> Intact())
      ensures var (released, p) := if old(side).held == [] then Released(old(side), account) else (old(side), account);
        && side == released.(writes := old(side).writes[..index] + old(side).writes[index + 1..],
                             readers := if failed then old(side).readers else old(side).readers + 1)
        && account' == p
      ensures Replies() <= old(Replies())
      ensures Renewed() && pool.live == old(pool.live - Owned()) + Owned()
    {
      hide Valid, Counted, Intact, Renewed;
      account' := LetGo(pool, account);
      EndWrite(index);
      if !failed {
        StartRead();
      }
    }

    method LetGo(pool: BufferPool, ghost account: Pool) returns (ghost account': Pool)
      requires pool.Valid() && Valid() && Owned() <= pool.live
      modifies this`side, pool, data, spare
      ensures pool.Valid() && Valid() && (old(Counted()) ==> Counted()) && (old(Intact()) ==> Intact())
      ensures (side, account') == if old(side).held == [] then Released(old(side), account) else (old(side), account)
      ensures Replies() == old(Replies())
      ensures Renewed() && pool.live == old(pool.live - Owned()) + Owned()
    {
      hide AllSend;
      account' := account;
      if watermark == 0 {
        account' := Released(side, account).1;
        data.Release(pool);
        spare.Release(pool);
        side := Released(side, account).0;
      }
    }

    method EndWrite(index: nat)
      requires Valid() && index < |side.writes|
      modifies this`writes, this`side
      ensures Valid() && (old(Counted()) ==> Counted()) && (old(Intact()) ==> Intact())
      ensures side == old(side).(writes := old(side).writes[..index] + old(side).writes[index + 1..])
      ensures Replies() <= old(Replies())
    {
      assert |writes| == |side.writes|;
      OneLessSends(writes, side.writes, named, index);
      hide AllSend, Counted, Owned, Holds;
      writes := writes[..index] + writes[index + 1..];
      side := side.(writes := side.writes[..index] + side.writes[index + 1..]);
      Shifted(old(writes), index);
      Shifted(old(side).writes, index);
      forall i | 0 <= i < |writes| && !side.writes[i].mem.Pooled? ensures writes[i].slice.mem in old(Replies()) {
        var j := if i < index then i else i + 1;
        assert writes[i] == old(writes)[j] && side.writes[i] == old(side).writes[j];
      }
      if old(Intact()) {
        forall i | 0 <= i < |writes|
          ensures writes[i].slice.Valid() && writes[i].slice.Octets() == side.writes[i].octets
        {
          var j := if i < index then i else i + 1;
          assert writes[i] == old(writes)[j] && side.writes[i] == old(side).writes[j];
        }
      }
    }
  }

  /**
   * What a pass answers: which direction to write for, to which socket, what, and what is left.
   * What is passed on lies in the memory that was read, a reply in the connector's.
   */
  ghost predicate Delivers(r: Processed, flow: Flow, mem: array<Byte>, out: array<Byte>, to: Option<Flow>, w: Outgoing, rest: Slice)
    requires r.Processed?
    reads w.slice.mem, rest.mem
  {
    && to == WriteFor(r, flow) && w.slice.Valid() && w.slice.Octets() == WriteOf(r) && rest.Valid() && rest.Octets() == r.held
    && (to.Some? ==> w.socket == SocketOf(r) && w.slice.mem == if r.conn.state.Open? then mem else out)
  }

  /** Chooses between the two writes of the packet processor. */
  method Choose(processor: PacketProcessor, flow: Flow, mem: array<Byte>, ghost r: Processed) returns (to: Option<Flow>, w: Outgoing)
    requires r.Processed? && processor.Valid() && processor.remaining.Octets() == r.held && processor.connector.state == r.conn.state
    requires processor.Written() == (r.ingressWrite, r.egressWrite)
    requires r.conn.state.Open? ==> processor.Forwards(flow, mem, processor.remaining.start)
    ensures Delivers(r, flow, mem, processor.connector.out, to, w, processor.remaining)
  {
    var open := processor.connector.state.Open?;
    if processor.ingressWrite.length > 0 {
      to, w := Some(if open then Egress else Ingress), Outgoing(Ingress, processor.ingressWrite);
    } else if processor.egressWrite.length > 0 {
      to, w := Some(if open then Ingress else Egress), Outgoing(Egress, processor.egressWrite);
    } else {
      to, w := None, Outgoing(Egress, processor.egressWrite);
    }
  }

  /** What a pass answers can be written out of the memory the model says. */
  lemma Sendable(c: Conn, flow: Flow, info: SessionInfo, side: Side, mem: array<Byte>, named: map<nat, array<Byte>>,
                 out: array<Byte>, to: Option<Flow>, w: Outgoing, rest: Slice, reply: Option<nat>)
    requires Process(c, flow, info, side.held).Processed? && Names(mem, side.data, named)
    requires Delivers(Process(c, flow, info, side.held), flow, mem, out, to, w, rest)
    ensures var r := Process(c, flow, info, side.held);
      && rest.Valid() && rest.Octets() == r.held && to == WriteFor(r, flow)
      && (to.Some? ==> Sends(w, SendingOf(r, side, reply), named) && w.slice.Octets() == SendingOf(r, side, reply).octets)
      && (to.Some? && SendingOf(r, side, reply).mem.Pooled? ==> to.value == flow)
      && (to.Some? && side.data.Some? && !SendingOf(r, side, reply).mem.Pooled? ==> w.slice.mem == out)
  {
    hide Process;
    if Process(c, flow, info, side.held).conn.state.Open? {
      OpenWritesAlong(c, flow, info, side.held);
    }
  }

  /** A pass of the packet processor over the first octets of some memory. */
  method Digest(connector: Connector, ingressTotals: Totals, egressTotals: Totals, flow: Flow, info: SessionInfo,
                mem: array<Byte>, filled: nat) returns (why: Option<Refusal>, to: Option<Flow>, w: Outgoing, rest: Slice)
    requires connector.Valid() && ingressTotals != egressTotals && filled <= mem.Length
    modifies connector, ingressTotals, egressTotals
    ensures var r := Process(old(connector.View()), flow, info, mem[..filled]);
      var (here, there) := if flow.Ingress? then (ingressTotals, egressTotals) else (egressTotals, ingressTotals);
      && there.sums == old(there.sums)
      && if r.Refused? then why.Some? && here.sums == old(here.sums)
         else
           && here.sums == old(here.sums).Plus(Gain(r, flow, flow))
           && why.None? && connector.Valid() && connector.View() == r.conn && connector.state == r.conn.state
           && Delivers(r, flow, mem, connector.out, to, w, rest)
    ensures connector.Renews()
  {
    hide PacketModel.Process, Transmit, WriteFor, WriteOf;
    ghost var r := Process(connector.View(), flow, info, mem[..filled]);
    var processor := new PacketProcessor(connector, ingressTotals, egressTotals);
    why := processor.Process(flow, info, mem, filled);
    rest, to, w := processor.remaining, None, Outgoing(flow, processor.remaining);
    if why.None? {
      to, w := Choose(processor, flow, mem, r);
    }
  }

  /** A session: two directions over one connector and one pool. */
  class ProxySession {
    const pool: BufferPool
    const connector: Connector
    const ingress: Direction
    const egress: Direction
    ghost var conn: Conn
    ghost var reply: Option<nat>    // the connector's reply buffer, by the order of issue
    ghost var account: Pool
    ghost var connected: bool
    ghost var aligned: bool    // every step so far was aligned
    var ended: bool            // by an exception, an error state or a failed completion

    constructor (pool: BufferPool, connector: Connector, ingress: Direction, egress: Direction, ghost start: Start, ghost tune: Tune)
      requires pool.Valid() && connector.Valid() && connector.View() == Initial(start, tune)
      requires ingress.New(1) && egress.New(0) && ingress.Unlike(egress)
      ensures Valid() && aligned && Model() == Started(start, tune) && Others() == pool.live
      ensures this.pool == pool && this.connector == connector && this.ingress == ingress && this.egress == egress
    {
      hide Connector.Valid, Connector.View, Direction.Valid, Direction.Counted, Direction.Intact, Direction.Owned, Safe, Initial;
      hide Stored, Apart, Others, Intact;
      this.pool, this.connector, this.ingress, this.egress := pool, connector, ingress, egress;
      conn, reply, account, connected, ended, aligned := Initial(start, tune), None, Pool(0, []), false, false, true;
      new;
      StartIsSafe(start, tune);
      StoresNothing();
    }

    lemma StoresNothing()
      requires ingress.Unlike(egress) && pool.Valid() && ingress.New(1) && egress.New(0)
      ensures Stored() && Apart() && Others() == pool.live && Intact()
    {
    }

    ghost function Model(): Session
      reads this, ingress, egress
    {
      Session(conn, ingress.side, egress.side, reply, account, connected, ended)
    }

    ghost function Owned(): set<array<Byte>>
      reads ingress.data, ingress.spare, egress.data, egress.spare
    {
      ingress.Owned() + egress.Owned()
    }

    /** What it owns it owned before, or is new. */
    twostate predicate Renewed()
      reads ingress.data, ingress.spare, egress.data, egress.spare
    {
      forall m :: m in Owned() ==> m in old(Owned()) || fresh(m)
    }

    /** What the pool has out on behalf of everybody else. */
    ghost function Others(): set<array<Byte>>
      reads pool, ingress.data, ingress.spare, egress.data, egress.spare
    {
      pool.live - Owned()
    }

    /** The directions are the model's; no two handles own the same buffer, and all they own is out. */
    ghost predicate Stored()
      reads this`account, pool, ingress, egress, ingress.data, ingress.spare, egress.data, egress.spare
      reads ingress.data.data, egress.data.data
    {
      && ingress.Unlike(egress) && pool.Valid() && ingress.Valid() && egress.Valid()
      && ingress.Owned() !! egress.Owned() && Owned() <= pool.live
      && (forall t :: t in ingress.named ==> t < account.issued) && (forall t :: t in egress.named ==> t < account.issued)
    }

    /** The connector has memory of its own, and replies are written out of such. */
    ghost predicate Apart()
      reads connector, ingress, egress, ingress.data, ingress.spare, egress.data, egress.spare
    {
      connector.out !in Owned() && connector.reply !in Owned() && ingress.Replies() !! Owned() && egress.Replies() !! Owned()
    }

    ghost predicate Core()
      reads this`conn, this`account, this`ended, pool, ingress, egress, ingress.data, ingress.spare, egress.data, egress.spare, ingress.data.data, egress.data.data
      reads connector, connector.out, ingress.totals, egress.totals
    {
      && ingress.Unlike(egress) && Stored() && Apart() && (!ended ==> connector.Valid() && connector.View() == conn)
      && ingress.Counted() && egress.Counted()
    }

    ghost predicate Valid()
      reads this, pool, ingress, egress, ingress.data, ingress.spare, egress.data, egress.spare, ingress.data.data, egress.data.data
      reads connector, connector.out, ingress.totals, egress.totals
      reads (set w | w in ingress.writes :: w.slice.mem), (set w | w in egress.writes :: w.slice.mem)
    {
      Core() && (aligned ==> Safe(Model()) && Intact())
    }

    ghost predicate Intact()
      reads ingress, egress, (set w | w in ingress.writes :: w.slice.mem), (set w | w in egress.writes :: w.slice.mem)
    {
      ingress.Intact() && egress.Intact()
    }

    function Of(flow: Flow): Direction {
      if flow.Ingress? then ingress else egress
    }

    /** The reply buffer is taken anew so many times. */
    ghost method Reacquire(times: nat)
      requires Core()
      modifies this`reply, this`account
      ensures Core() && Others() == old(Others()) && (old(Intact()) ==> Intact())
      ensures (reply, account) == Reacquired(old(reply), old(account), times) && account.issued == old(account).issued + times
      ensures times > 0 ==> reply.Some?
    {
      hide Connector.Valid, Connector.View, Direction.Valid, Direction.Counted, Direction.Intact, Reacquired, Apart, Others;
      ReacquiredGrows(reply, account, times);
      reply, account := Reacquired(reply, account, times).0, Reacquired(reply, account, times).1;
      if old(Intact()) {
        ingress.StaysIntact();
        egress.StaysIntact();
      }
    }

    /** Fresh memory for the next octets of a direction, unless some are held. */
    method Prepare(d: Direction, available: nat)
      requires Core() && d in {ingress, egress}
      modifies this`account, d`side, d`named, pool, d.data
      ensures Core() && d.data.data != null && Others() == old(Others()) && (old(Intact()) ==> Intact())
      ensures (d.side, account) == Prepared(old(d.side), old(account), available)
      ensures d.data.data == old(d.data.data) || fresh(d.data.data)
    {
      hide Connector.Valid, Connector.View, Direction.Valid, Direction.Counted, Direction.Owned, Direction.Intact;
      account := d.Prepare(pool, available, account);
      if old(Intact()) {
        ingress.StaysIntact();
        egress.StaysIntact();
      }
    }

    /** What is left of what a direction held. */
    method Keep(d: Direction, rest: Slice)
      requires Core() && d in {ingress, egress} && rest.Valid()
      modifies this`account, d`watermark, d`side, d`named, pool, d.data, d.spare
      ensures Core() && Others() == old(Others()) && (old(Intact()) ==> Intact())
      ensures (d.side, account) == Kept(old(d.side), old(account), old(rest.Octets())) && Renewed()
      ensures forall t :: t in old(d.named) ==> t in d.named && d.named[t] == old(d.named)[t]
    {
      hide Connector.Valid, Connector.View, Stored, Apart, Others, Direction.Counted, Direction.Intact, Kept;
      KeepStored(d, rest);
      if old(Intact()) {
        ingress.StaysIntact();
        egress.StaysIntact();
      }
    }

    method KeepStored(d: Direction, rest: Slice)
      requires Stored() && Apart() && d in {ingress, egress} && rest.Valid()
      modifies this`account, d`watermark, d`side, d`named, pool, d.data, d.spare
      ensures Stored() && Apart() && Others() == old(Others())
      ensures (d.side, account) == Kept(old(d.side), old(account), old(rest.Octets())) && d.side.writes == old(d.side.writes)
      ensures Renewed()
      ensures forall t :: t in old(d.named) ==> t in d.named && d.named[t] == old(d.named)[t]
      ensures old(d.Counted()) ==> d.Counted()
    {
      hide Direction.Valid, Direction.Counted, Direction.Owned;
      account := d.CopyRemaining(pool, rest, account);
    }

    /** The memory that is about to be filled is not being written from. */
    ghost predicate Undisturbed(d: Direction)
      reads this, ingress, egress, d.data
    {
      forall o, i :: o in {ingress, egress} && 0 <= i < |o.writes| && i < |o.side.writes| ==> o.writes[i].slice.mem != d.data.data
    }

    lemma SafeUndisturbed(d: Direction, closing: bool)
      requires Stored() && Apart() && SideSafe(ingress.side, closing) && SideSafe(egress.side, closing)
      requires d in {ingress, egress} && d.readers > 0 && d.data.data != null
      ensures Undisturbed(d)
    {
      hide Direction.Holds;
      forall o, i | o in {ingress, egress} && 0 <= i < |o.writes| && i < |o.side.writes|
        ensures o.writes[i].slice.mem != d.data.data
      {
        assert o.side.writes[i] in o.side.writes;
        assert Sends(o.writes[i], o.side.writes[i], o.named);
      }
    }

    lemma RoomEnough(d: Direction)
      requires Stored() && d in {ingress, egress} && d.data.data != null
      ensures d.watermark == |d.side.held| && d.side.size <= d.data.data.Length && d.readers == d.side.readers
    {
    }

    method Fill(d: Direction, chunk: seq<Byte>)
      requires Core() && d in {ingress, egress}
      requires d.data.data != null && d.watermark + |chunk| <= d.data.data.Length && d.readers > 0
      modifies d`watermark, d`readers, d`side, d.data.data
      ensures Core() && Others() == old(Others())
      ensures old(Intact() && Undisturbed(d)) ==> Intact()
      ensures var side := old(d.side);
        d.side == side.(held := side.held + chunk, readers := side.readers - 1, received := side.received + chunk)
    {
      hide Connector.Valid, Direction.Valid, EncodeAll;
      d.Fill(chunk);
    }

    /** A read: octets arrive in fresh memory, or behind what is held. */
    method Take(flow: Flow, available: nat, chunk: seq<Byte>)
      requires Core() && Of(flow).side.readers > 0 && |chunk| <= Room(Of(flow).side, available)
      modifies this`account, Of(flow), pool, Of(flow).data, Of(flow).data.data
      ensures Core() && Of(flow).data.data != null && Others() == old(Others())
      ensures Model() == Filled(old(Model()), flow, available, chunk)
      ensures old(Safe(Model()) && Intact()) ==> Intact()
    {
      hide Core, Stored, Apart, Intact, Others, Undisturbed, Safe, SideSafe, Prepared, Room;
      ghost var s := Model();
      ReadiedFits(s, flow, available, |chunk|);
      Prepare(Of(flow), available);
      CoreStored();
      RoomEnough(Of(flow));
      assert Model() == Readied(s, flow, available);
      if old(Safe(Model()) && Intact()) {
        SafeUndisturbed(Of(flow), Closing(s.conn.state));
      }
      Fill(Of(flow), chunk);
    }

    lemma CoreStored()
      requires Core()
      ensures ingress.Unlike(egress) && Stored() && Apart()
    {
    }

    /** The pass, with the account of its direction brought up to date; an exception ends the session. */
    method Pass(flow: Flow, info: SessionInfo) returns (why: Option<Refusal>, to: Option<Flow>, w: Outgoing, rest: Slice)
      requires Core() && !ended && Of(flow).data.data != null
      modifies this`conn, this`reply, this`account, this`ended, Of(flow)`side, connector, ingress.totals, egress.totals
      ensures Core() && Others() == old(Others()) && (old(Intact()) ==> Intact())
      ensures (reply, account) == ReplyAfter(old(Model()), Process(old(conn), flow, info, old(Of(flow).side.held)))
      ensures var side, r := old(Of(flow).side), Process(old(conn), flow, info, old(Of(flow).side.held));
        if r.Refused? then why.Some? && ended && conn == old(conn) && Of(flow).side == side
        else
          && why.None? && ended == (r.conn.state.Error? || r.conn.state.Closed?) && conn == r.conn && |r.held| <= |side.held|
          && Of(flow).side == Accounted(side, r.conn.state, side.held, |r.held|)
          && Delivers(r, flow, Of(flow).data.data, connector.out, to, w, rest)
    {
      hide PacketModel.Process, Transmit, Reacquired, Core, Others, Direction.Intact, Accounted, Delivers;
      CoreStored();
      Reacquire(Growth(conn.replies, RepliesAfter(Process(conn, flow, info, Of(flow).side.held))));
      why, to, w, rest := PassCore(flow, info);
      if old(Intact()) {
        ingress.StaysIntact();
        egress.StaysIntact();
      }
    }

    method PassCore(flow: Flow, info: SessionInfo) returns (why: Option<Refusal>, to: Option<Flow>, w: Outgoing, rest: Slice)
      requires Core() && !ended && Of(flow).data.data != null
      modifies this`conn, this`ended, Of(flow)`side, connector, ingress.totals, egress.totals
      ensures Core() && Others() == old(Others())
      ensures Of(flow).side.writes == old(Of(flow).side.writes)
      ensures var side, r := old(Of(flow).side), Process(old(conn), flow, info, old(Of(flow).side.held));
        if r.Refused? then why.Some? && ended && conn == old(conn) && Of(flow).side == side
        else
          && why.None? && ended == (r.conn.state.Error? || r.conn.state.Closed?) && conn == r.conn && |r.held| <= |side.held|
          && Of(flow).side == Accounted(side, r.conn.state, side.held, |r.held|)
          && Delivers(r, flow, Of(flow).data.data, connector.out, to, w, rest)
    {
      hide PacketModel.Process, Transmit, EncodeAll, SplitFrames, Stored, Apart, Others;
      hide Accounted, WriteFor, WriteOf, SumsOf, Sums.Plus, Gain, Connector.Valid, Connector.View;
      ghost var r := Process(conn, flow, info, Of(flow).side.held);
      if r.Processed? {
        AccountedSums(conn, flow, info, Of(flow).side);
      }
      why, to, w, rest := DigestHeld(flow, info);
      if why.Some? {
        ended := true;
      } else {
        conn := r.conn;
        ended := connector.state.Error? || connector.state.Closed?;
        Account(Of(flow), r.conn.state, |r.held|);
      }
    }

    lemma StoredHolds(d: Direction)
      requires Stored() && d in {ingress, egress} && d.data.data != null
      ensures d.watermark <= d.data.data.Length && d.data.data[..d.watermark] == d.side.held
      ensures ingress.Unlike(egress) && Owned() <= pool.live
    {
    }

    method DigestHeld(flow: Flow, info: SessionInfo) returns (why: Option<Refusal>, to: Option<Flow>, w: Outgoing, rest: Slice)
      requires Stored() && Apart() && connector.Valid() && Of(flow).data.data != null
      modifies connector, ingress.totals, egress.totals
      ensures Stored() && Apart() && Others() == old(Others())
      ensures var r := Process(old(connector.View()), flow, info, Of(flow).side.held);
        && Of(Other(flow)).totals.sums == old(Of(Other(flow)).totals.sums)
        && if r.Refused? then why.Some? && Of(flow).totals.sums == old(Of(flow).totals.sums)
           else
             && Of(flow).totals.sums == old(Of(flow).totals.sums).Plus(Gain(r, flow, flow))
             && why.None? && connector.Valid() && connector.View() == r.conn && connector.state == r.conn.state
             && Delivers(r, flow, Of(flow).data.data, connector.out, to, w, rest)
    {
      hide PacketModel.Process, Transmit, Stored, Owned, Others, WriteFor, WriteOf, Sums.Plus, Gain, Connector.Valid, Connector.View;
      StoredHolds(Of(flow));
      var mem, filled := Of(flow).data.data, Of(flow).watermark;
      ghost var owned := Owned();
      why, to, w, rest := Digest(connector, ingress.totals, egress.totals, flow, info, mem, filled);
      assert Owned() == owned;
    }

    ghost method Account(d: Direction, state: State, rest: nat)
      requires Stored() && d in {ingress, egress} && rest <= |d.side.held|
      modifies d`side
      ensures Stored() && d.side == Accounted(old(d.side), state, old(d.side).held, rest) && d.side.writes == old(d.side.writes)
      ensures old(Apart()) ==> Apart()
    {
      hide Direction.Valid, Owned;
      d.Account(state, rest);
    }

    /** Writes what there is to write, or else reads on. */
    method Begin(flow: Flow, to: Option<Flow>, w: Outgoing, ghost s: Sending)
      requires Core() && (to.Some? ==> Sends(w, s, Of(to.value).named) && w.slice.Octets() == s.octets)
      requires to.Some? && !s.mem.Pooled? ==> w.slice.mem !in Owned()
      modifies ingress`readers, ingress`writes, ingress`side, egress`readers, egress`writes, egress`side
      ensures Core() && Others() == old(Others()) && (old(Intact()) ==> Intact())
      ensures Model() == Begun(old(Model()), flow, to, s)
    {
      hide Connector.View, Connector.Valid, Direction.Valid, Direction.Counted, Direction.Intact, Owned, Sends;
      var d := Of(if to.Some? then to.value else flow);
      if to.Some? {
        d.StartWrite(w, s);
      } else {
        d.StartRead();
      }
      if old(Intact()) {
        (if d == ingress then egress else ingress).StaysIntact();
      }
    }

    /** What is left is kept, and what there is to write written. */
    method Settle(flow: Flow, to: Option<Flow>, w: Outgoing, rest: Slice, ghost s: Sending)
      requires Core() && rest.Valid()
      requires to.Some? ==> Sends(w, s, Of(flow).named) && w.slice.Octets() == s.octets && (s.mem.Pooled? ==> to.value == flow)
      requires to.Some? && !s.mem.Pooled? ==> w.slice.mem !in Owned()
      modifies this`account, pool, ingress, egress, Of(flow).data, Of(flow).spare
      ensures Core() && Others() == old(Others()) && (old(Intact()) ==> Intact())
      ensures var k := Kept(old(Of(flow).side), old(account), old(rest.Octets()));
        Model() == Begun(With(old(Model()), flow, k.0).(pool := k.1), flow, to, s)
    {
      hide Core, Intact, Others, Kept, Begun, Sends, Names, Direction.Valid;
      CoreStored();
      ghost var named := Of(flow).named;
      Keep(Of(flow), rest);
      if to.Some? {
        StillSends(w, s, named, Of(to.value).named);
      }
      Begin(flow, to, w, s);
    }

    /** What was read is processed, and the session goes on. */
    method HandleData(flow: Flow, info: SessionInfo)
      requires Core() && !ended && Of(flow).data.data != null
      modifies this`conn, this`reply, this`account, this`ended, connector, pool, ingress.totals, egress.totals
      modifies ingress, egress, Of(flow).data, Of(flow).spare
      ensures Core() && Model() == Handled(old(Model()), flow, info)
      ensures Others() == old(Others()) && (old(Intact()) ==> Intact())
    {
      hide PacketModel.Process, Transmit, Handled, Core, Intact, Others, WriteFor, WriteOf, Accounted, Kept, Begun, Sends, Names, Delivers,
        SendingOf, ReplyAfter;
      CoreNames(Of(flow));
      HandledParts(Model(), flow, info);
      ghost var side, named, r := Of(flow).side, Of(flow).named, Process(conn, flow, info, Of(flow).side.held);
      ghost var mem, c := Of(flow).data.data, conn;
      var why, to, w, rest := Pass(flow, info);
      if why.None? {
        Sendable(c, flow, info, side, mem, named, connector.out, to, w, rest, reply);
        CoreStored();
        Settle(flow, to, w, rest, SendingOf(r, side, reply));
      }
    }

    lemma CoreNames(d: Direction)
      requires Core() && d in {ingress, egress}
      ensures ingress.Unlike(egress) && Names(d.data.data, d.side.data, d.named)
    {
    }

    lemma ValidCore()
      requires Valid()
      ensures Core() && (aligned ==> Safe(Model()) && Intact())
    {
    }

    /**
     * While reads are answered to their own side, every write in flight still holds the octets
     * to be written and goes to its socket; a passthrough write reads pooled memory that one
     * handle of its direction owns, that no handle of the other one owns and that the pool has
     * out, any other write memory that no handle owns.
     */
    lemma WritesFromOwnedMemory(flow: Flow, i: nat)
      requires Valid() && aligned && i < |Of(flow).writes| == |Of(flow).side.writes|
      ensures var w, s := Of(flow).writes[i], Of(flow).side.writes[i];
        && w.slice.Valid() && w.slice.Octets() == s.octets && w.socket == s.socket
        && (if s.mem.Pooled? then
              w.slice.mem in Of(flow).Owned() && w.slice.mem !in Of(Other(flow)).Owned() && w.slice.mem in pool.live
            else w.slice.mem !in Owned())
    {
      hide Connector.Valid, Connector.View, ConnSafe, Direction.Holds, Direction.Counted;
      var d := Of(flow);
      assert d.side.writes[i] in d.side.writes;
      assert Sends(d.writes[i], d.side.writes[i], d.named);
    }

    // ----- what can happen to a session

    /** A read has completed: `chunk` is what the socket delivered. */
    method ReadData(flow: Flow, available: nat, chunk: seq<Byte>, paused: bool, info: SessionInfo)
      requires Valid() && Enabled(Model(), Read(flow, available, chunk, paused, info))
      modifies this`conn, this`reply, this`account, this`ended, this`aligned, connector, pool, ingress.totals, egress.totals
      modifies ingress, egress, Of(flow).data, Of(flow).spare, Of(flow).data.data
      ensures Valid() && Others() == old(Others())
      ensures Model() == Proceed(old(Model()), Read(flow, available, chunk, paused, info))
      ensures aligned == (old(aligned) && Aligned(old(Model()), Read(flow, available, chunk, paused, info)))
    {
      hide Core, Intact, Others, Safe, Filled, Handled, Aligned, Room;
      ghost var s, h := Model(), Read(flow, available, chunk, paused, info);
      ValidCore();
      if aligned && Aligned(s, h) {
        StepKeepsSafe(s, h);
      }
      Receive(flow, available, chunk, paused, info);
      aligned := aligned && Aligned(s, h);
    }

    method Receive(flow: Flow, available: nat, chunk: seq<Byte>, paused: bool, info: SessionInfo)
      requires Core() && !ended && Of(flow).side.readers > 0 && |chunk| <= Room(Of(flow).side, available)
      modifies this`conn, this`reply, this`account, this`ended, connector, pool, ingress.totals, egress.totals
      modifies ingress, egress, Of(flow).data, Of(flow).spare, Of(flow).data.data
      ensures Core() && Others() == old(Others()) && (old(Safe(Model()) && Intact()) ==> Intact())
      ensures var filled := Filled(old(Model()), flow, available, chunk);
        Model() == if flow.Ingress? && paused then filled else Handled(filled, flow, info)
    {
      hide Core, Intact, Others, Safe, Filled, Handled, Room;
      FilledGoesOn(Model(), flow, available, chunk);
      Take(flow, available, chunk);
      if !(flow.Ingress? && paused) {
        HandleData(flow, info);
      }
    }

    /** Nothing was there after all: the read is tried again. */
    method ReadBlocked(flow: Flow, available: nat)
      requires Valid() && Enabled(Model(), Blocked(flow, available))
      modifies this`account, Of(flow)`side, Of(flow)`named, pool, Of(flow).data
      ensures Valid() && Others() == old(Others())
      ensures Model() == Proceed(old(Model()), Blocked(flow, available)) && aligned == old(aligned)
    {
      hide Core, Intact, Others, Safe, Readied;
      ghost var s, h := Model(), Blocked(flow, available);
      ValidCore();
      if aligned {
        StepKeepsSafe(s, h);
      }
      Retry(flow, available);
    }

    method Retry(flow: Flow, available: nat)
      requires Core()
      modifies this`account, Of(flow)`side, Of(flow)`named, pool, Of(flow).data
      ensures Core() && Others() == old(Others()) && (old(Intact()) ==> Intact())
      ensures Model() == Readied(old(Model()), flow, available)
    {
      hide Core, Intact, Others, Prepared;
      CoreStored();
      Prepare(Of(flow), available);
    }

    /** A read failed, before or while the data was fetched. */
    method ReadFailed(flow: Flow, fetching: Option<nat>)
      requires Valid() && Enabled(Model(), SessionModel.ReadFailed(flow, fetching))
      modifies this`conn, this`reply, this`account, this`ended, this`aligned, connector, pool, ingress, egress, Of(flow).data
      ensures Valid() && Others() == old(Others())
      ensures Model() == Proceed(old(Model()), SessionModel.ReadFailed(flow, fetching))
      ensures aligned == (old(aligned) && Aligned(old(Model()), SessionModel.ReadFailed(flow, fetching)))
    {
      hide Core, Intact, Others, Safe, Broken, Aligned;
      ghost var s, h := Model(), SessionModel.ReadFailed(flow, fetching);
      ValidCore();
      if aligned && Aligned(s, h) {
        StepKeepsSafe(s, h);
      }
      Drop(flow, fetching);
      aligned := aligned && Aligned(s, h);
    }

    method Drop(flow: Flow, fetching: Option<nat>)
      requires Core() && Of(flow).side.readers > 0
      modifies this`conn, this`reply, this`account, this`ended, connector, pool, ingress, egress, Of(flow).data
      ensures Core() && Others() == old(Others()) && (old(Intact()) ==> Intact())
      ensures Model() == Broken(old(Model()), flow, fetching)
    {
      hide Core, Intact, Others, Readied, Failed;
      Unread(flow, fetching);
      HandleError(flow);
    }

    method Unread(flow: Flow, fetching: Option<nat>)
      requires Core() && Of(flow).side.readers > 0
      modifies this`account, Of(flow)`readers, Of(flow)`side, Of(flow)`named, pool, Of(flow).data
      ensures Core() && Others() == old(Others()) && (old(Intact()) ==> Intact())
      ensures var s := if fetching.Some? then Readied(old(Model()), flow, fetching.value) else old(Model());
        var side := SessionModel.Of(s, flow);
        side.readers > 0 && Model() == With(s, flow, side.(readers := side.readers - 1))
    {
      hide Core, Intact, Others;
      CoreStored();
      if fetching.Some? {
        Prepare(Of(flow), fetching.value);
      }
      Stop(flow);
    }

    method Stop(flow: Flow)
      requires Core() && Of(flow).side.readers > 0
      modifies Of(flow)`readers, Of(flow)`side
      ensures Core() && Others() == old(Others()) && (old(Intact()) ==> Intact())
      ensures Of(flow).side == old(Of(flow).side).(readers := old(Of(flow).side).readers - 1)
    {
      hide Connector.View, Connector.Valid, Direction.Valid, Direction.Counted, Direction.Intact, Owned, Others;
      Of(flow).EndRead();
      if old(Intact()) {
        Of(Other(flow)).StaysIntact();
      }
    }

    /** A completion failed: the session ends, unless it was for a client that had been asked to close. */
    method HandleError(flow: Flow)
      requires Core()
      modifies this`conn, this`reply, this`account, this`ended, connector
      modifies ingress`readers, ingress`writes, ingress`side, egress`readers, egress`writes, egress`side
      ensures Core() && Others() == old(Others()) && (old(Intact()) ==> Intact())
      ensures Model() == Failed(old(Model()), flow)
    {
      hide Core, Intact, Others, Synthesized;
      CoreState();
      if !ended && flow.Ingress? && connector.state.ClientCloseSent? {
        SendClose(false, false);
        SendClose(true, true);
      } else {
        Finish();
      }
    }

    lemma CoreState()
      requires Core()
      ensures !ended ==> connector.state == conn.state
    {
    }

    method Finish()
      requires Core()
      modifies this`ended
      ensures Core() && ended && Others() == old(Others()) && (old(Intact()) ==> Intact())
    {
      hide Stored, Apart, Others, Direction.Intact, Connector.Valid, Connector.View, Direction.Counted;
      ended := true;
      if old(Intact()) {
        ingress.StaysIntact();
        egress.StaysIntact();
      }
    }

    // ----- messages of the proxy's own

    /** A close, or the error that follows an unconfirmed one, for one side. */
    method SendClose(toIngress: bool, error: bool)
      requires Core() && !ended
      modifies this`conn, this`reply, this`account, connector
      modifies ingress`readers, ingress`writes, ingress`side, egress`readers, egress`writes, egress`side
      ensures Core() && !ended && Others() == old(Others()) && (old(Intact()) ==> Intact())
      ensures Model() == Synthesized(old(Model()), CloseEvent(toIngress, error))
    {
      hide Core, Others, Intact, Apply, Reacquired;
      CloseIsSent(conn, toIngress, CloseEvent(toIngress, error));
      Compose(toIngress, error);
      Reacquire(1);
      var d := if toIngress then Ingress else Egress;
      assert Of(d).side.sent + [] == Of(d).side.sent;
      var w := Outgoing(d, Slice(connector.out, 0, connector.outLength));
      assert w.slice.Octets() == connector.out[..connector.outLength];
      Begin(Ingress, Some(d), w, Sending(Reply(reply.value), d, conn.out));
      Forget();
    }

    method Compose(toIngress: bool, error: bool)
      requires Core() && !ended && Apply(conn, CloseEvent(toIngress, error)).Next?
      modifies this`conn, connector
      ensures Core() && Others() == old(Others()) && (old(Intact()) ==> Intact())
      ensures conn == Apply(old(conn), CloseEvent(toIngress, error)).conn
      ensures connector.outLength == |conn.out| <= connector.out.Length
      ensures connector.out[..connector.outLength] == conn.out && connector.out !in Owned()
    {
      hide Stored, Others, Owned, Transmit, Direction.Counted, Direction.Intact, SynthesizeMessage;
      StoredValid();
      ghost var owned := Owned();
      var raised;
      if error {
        raised := connector.SynthesizeCloseError(toIngress);
      } else {
        raised := connector.SynthesizeClose(toIngress);
      }
      conn := connector.View();
      assert Owned() == owned;
      if old(Intact()) {
        ingress.StaysIntact();
        egress.StaysIntact();
      }
    }

    /** What was handed to the socket is no longer queued. */
    method Forget()
      requires Core() && !ended
      modifies this`conn, connector
      ensures Core() && Others() == old(Others()) && (old(Intact()) ==> Intact())
      ensures conn == old(conn).(out := [])
    {
      hide Stored, Others, Owned, Transmit, Direction.Counted, Direction.Intact;
      connector.ResetOutBuffer();
      conn := connector.View();
      if old(Intact()) {
        ingress.StaysIntact();
        egress.StaysIntact();
      }
    }

    /** An operator asks for the session to be closed gracefully. */
    method DisconnectGracefully()
      requires Valid() && Enabled(Model(), Disconnect)
      modifies this`conn, this`reply, this`account, this`aligned, connector
      modifies ingress`readers, ingress`writes, ingress`side, egress`readers, egress`writes, egress`side
      ensures Valid() && Others() == old(Others())
      ensures Model() == Proceed(old(Model()), Disconnect)
      ensures aligned == (old(aligned) && Aligned(old(Model()), Disconnect))
    {
      hide Core, Intact, Others, Safe, Synthesized, SynthesizeMessage, Aligned;
      ghost var s := Model();
      ValidCore();
      if aligned && Aligned(s, Disconnect) {
        StepKeepsSafe(s, Disconnect);
      }
      SendClose(true, false);
      aligned := aligned && Aligned(s, Disconnect);
    }

    /** A write has completed. */
    method WriteCompleted(flow: Flow, index: nat, failed: bool)
      requires Valid() && Enabled(Model(), WriteDone(flow, index, failed))
      modifies this`conn, this`reply, this`account, this`ended, this`aligned, connector, pool, ingress, egress, Of(flow).data, Of(flow).spare
      ensures Valid() && Others() == old(Others())
      ensures Model() == Proceed(old(Model()), WriteDone(flow, index, failed))
      ensures aligned == (old(aligned) && Aligned(old(Model()), WriteDone(flow, index, failed)))
    {
      hide Core, Intact, Others, Safe, Aligned, Completed;
      ghost var s, h := Model(), WriteDone(flow, index, failed);
      ValidCore();
      if aligned && Aligned(s, h) {
        StepKeepsSafe(s, h);
      }
      Complete(flow, index, failed);
      aligned := aligned && Aligned(s, h);
    }

    method Complete(flow: Flow, index: nat, failed: bool)
      requires Core() && index < |Of(flow).side.writes|
      modifies this`conn, this`reply, this`account, this`ended, connector, pool, ingress, egress, Of(flow).data, Of(flow).spare
      ensures Core() && Others() == old(Others()) && (old(Intact()) ==> Intact())
      ensures Model() == Completed(old(Model()), flow, index, failed)
    {
      hide Core, Intact, Others, Released, Failed;
      Unwrite(flow, index, failed);
      if failed {
        HandleError(flow);
      }
    }

    method Unwrite(flow: Flow, index: nat, failed: bool)
      requires Core() && index < |Of(flow).side.writes|
      modifies this`account, Of(flow)`readers, Of(flow)`writes, Of(flow)`side, pool, Of(flow).data, Of(flow).spare
      ensures Core() && Others() == old(Others()) && (old(Intact()) ==> Intact())
      ensures var s := old(Model()); var side := SessionModel.Of(s, flow);
        var (released, pool) := if side.held == [] then Released(side, s.pool) else (side, s.pool);
        Model() == With(s, flow, released.(writes := side.writes[..index] + side.writes[index + 1..],
                                           readers := if failed then side.readers else side.readers + 1)).(pool := pool)
    {
      hide Connector.View, Connector.Valid, Stored, Apart, Others, Direction.Counted, Direction.Intact;
      FinishStored(Of(flow), index, failed);
      if old(Intact()) {
        Of(Other(flow)).StaysIntact();
      }
    }

    method FinishStored(d: Direction, index: nat, failed: bool)
      requires Stored() && Apart() && d in {ingress, egress} && index < |d.side.writes|
      modifies this`account, d`readers, d`writes, d`side, pool, d.data, d.spare
      ensures Stored() && Apart() && Others() == old(Others()) && (old(d.Counted()) ==> d.Counted()) && (old(d.Intact()) ==> d.Intact())
      ensures var side, before := old(d.side), old(account);
        var (released, pool) := if side.held == [] then Released(side, before) else (side, before);
        && d.side == released.(writes := side.writes[..index] + side.writes[index + 1..],
                               readers := if failed then side.readers else side.readers + 1)
        && account == pool
    {
      hide Direction.Valid, Direction.Counted, Direction.Owned;
      account := d.WriteCompleted(pool, index, failed, account);
    }

    /** A broker was reached: it is sent the protocol header. */
    method EstablishConnection()
      requires Valid() && Enabled(Model(), Connected)
      modifies this`conn, this`reply, this`account, this`connected, this`aligned, connector
      modifies ingress`readers, ingress`writes, ingress`side, egress`readers, egress`writes, egress`side
      ensures Valid() && Others() == old(Others())
      ensures Model() == Proceed(old(Model()), Connected)
      ensures aligned == (old(aligned) && Aligned(old(Model()), Connected))
    {
      hide Core, Intact, Others, Safe, Aligned, Greeted;
      ghost var s := Model();
      ValidCore();
      if aligned && Aligned(s, Connected) {
        StepKeepsSafe(s, Connected);
      }
      Greet();
      aligned := aligned && Aligned(s, Connected);
    }

    method Greet()
      requires Core() && !ended
      modifies this`conn, this`reply, this`account, this`connected, connector
      modifies ingress`readers, ingress`writes, ingress`side, egress`readers, egress`writes, egress`side
      ensures Core() && Others() == old(Others()) && (old(Intact()) ==> Intact())
      ensures Model() == Greeted(old(Model()))
    {
      hide Core, Others, Intact, Reacquired;
      ghost var ticket := account.issued;
      Synthesize();
      Reacquire(1);
      assert egress.side.sent + [] == egress.side.sent;
      var w := Outgoing(Egress, Slice(connector.out, 0, connector.outLength));
      assert w.slice.Octets() == connector.out[..connector.outLength];
      Begin(Egress, Some(Egress), w, Sending(Reply(ticket), Egress, PROTOCOL_HEADER));
    }

    method Synthesize()
      requires Core() && !ended
      modifies this`conn, this`connected, connector
      ensures Core() && Others() == old(Others()) && (old(Intact()) ==> Intact())
      ensures conn == old(conn).(out := PROTOCOL_HEADER, replies := old(conn).replies + 1) && connected
      ensures connector.outLength == |PROTOCOL_HEADER| <= connector.out.Length
      ensures connector.out[..connector.outLength] == PROTOCOL_HEADER && connector.out !in Owned()
    {
      hide Stored, Others, Owned, Transmit, Direction.Counted, Direction.Intact;
      StoredValid();
      ghost var owned := Owned();
      connector.SynthesizeProtocolHeader();
      assert connector.View().out == PROTOCOL_HEADER;
      conn, connected := connector.View(), true;
      assert Owned() == owned;
      if old(Intact()) {
        ingress.StaysIntact();
        egress.StaysIntact();
      }
    }

    lemma StoredValid()
      requires Stored()
      ensures ingress.Unlike(egress) && Owned() <= pool.live
    {
    }

    /** Authentication has replaced the client's credentials, or left a reason. */
    method Authorise(event: Event)
      requires Valid() && Enabled(Model(), Authorised(event))
      modifies this`conn, connector
      ensures Valid() && Others() == old(Others())
      ensures Model() == Proceed(old(Model()), Authorised(event)) && aligned == old(aligned)
    {
      hide Core, Intact, Others, Safe, Apply;
      ghost var s := Model();
      ValidCore();
      if aligned {
        StepKeepsSafe(s, Authorised(event));
      }
      Override(event);
    }

    method Override(event: Event)
      requires Core() && !ended && (event.SetCredentials? || event.SetAuthReason?)
      modifies this`conn, connector
      ensures Core() && Others() == old(Others()) && (old(Intact()) ==> Intact())
      ensures conn == Apply(old(conn), event).conn
    {
      hide Stored, Others, Owned, Transmit, Direction.Counted, Direction.Intact;
      StoredValid();
      ghost var owned := Owned();
      match event {
        case SetCredentials(mechanism, credentials) => connector.SetAuthMechanismCredentials(mechanism, credentials);
        case SetAuthReason(reason) => connector.SetAuthReasonAsClientProperties(reason);
      }
      conn := connector.View();
      assert Owned() == owned;
      if old(Intact()) {
        ingress.StaysIntact();
        egress.StaysIntact();
      }
    }

    /** The session is gone: whatever it still owned is back in the pool. */
    method Destroy()
      requires Valid() && Enabled(Model(), Destroyed)
      modifies this`reply, this`account, this`ended, ingress`side, egress`side, pool, ingress.data, ingress.spare, egress.data, egress.spare
      ensures Model() == Proceed(old(Model()), Destroyed)
      ensures pool.Valid() && Owned() == {} && pool.live == old(Others())
    {
      hide Valid, Core, Stored, Others, Owned, Ended, Intact, Safe;
      ghost var s := Model();
      EndedKeeps(s);
      ValidCore();
      CoreStored();
      ReleaseAll();
      ingress.side, egress.side, reply, account, ended := Ended(s).ingress, Ended(s).egress, None, Ended(s).pool, true;
    }

    method ReleaseAll()
      requires Core()
      modifies pool, ingress.data, ingress.spare, egress.data, egress.spare
      ensures pool.Valid() && Owned() == {} && pool.live == old(Others())
    {
      hide Direction.Counted, Connector.Valid, Connector.View, AllSend, Direction.Holds;
      ingress.data.Release(pool);
      ingress.spare.Release(pool);
      egress.data.Release(pool);
      egress.spare.Release(pool);
    }
  }

  lemma EndedKeeps(s: Session)
    ensures Ended(s).conn == s.conn && Ended(s).connected == s.connected && Ended(s).reply == None && Ended(s).ended
  {
  }

  /** A client has connected. */
  method Accept(pool: BufferPool, start: Start, tune: Tune) returns (session: ProxySession)
    requires pool.Valid() && Transmit(StartMethod(start)).Transmitted?
    ensures session.Valid() && session.aligned && session.Model() == Started(start, tune)
    ensures session.pool == pool && session.Others() == pool.live
  {
    hide Transmit, Direction.New, Connector.Valid, Connector.View, ProxySession.Valid;
    var connector := new Connector(start, tune);
    var ingress := new Direction(1);
    var egress := new Direction(0);
    session := new ProxySession(pool, connector, ingress, egress, start, tune);
  }
}
