/** The packet processor object: it refines PacketModel over the memory a socket was read into. */
module PacketProcessing {
  import opened Bytes
  import opened Frames
  import opened Methods
  import opened ConnectorModel
  import opened Connectors
  import opened Options
  import opened PacketModel

  /** A stretch of somebody's memory. */
  datatype Slice = Slice(mem: array<Byte>, start: nat, length: nat) {
    predicate Valid() {
      start + length <= mem.Length
    }

    function Octets(): seq<Byte>
      requires Valid()
      reads mem
    {
      mem[start..start + length]
    }
  }

  datatype Sums = Sums(packets: nat, frames: nat, bytes: nat) {
    function Plus(other: Sums): Sums {
      Sums(packets + other.packets, frames + other.frames, bytes + other.bytes)
    }
  }

  /** What a pass adds to the totals of a direction: one packet, if it was read from there and passed through. */
  function Gain(r: Processed, flow: Flow, direction: Flow): Sums {
    if r.Processed? && r.conn.state.Open? && flow == direction then Sums(1, r.frames, r.passed) else Sums(0, 0, 0)
  }

  class Totals {
    var sums: Sums

    constructor ()
      ensures sums == Sums(0, 0, 0)
    {
      sums := Sums(0, 0, 0);
    }

    method Increment(frames: nat, bytes: nat)
      modifies this
      ensures sums == old(sums).Plus(Sums(1, frames, bytes))
    {
      sums := Sums(sums.packets + 1, sums.frames + frames, sums.bytes + bytes);
    }
  }

  class PacketProcessor {
    const connector: Connector
    const ingressTotals: Totals
    const egressTotals: Totals
    const nothing: Slice
    var ingressWrite: Slice
    var egressWrite: Slice
    var remaining: Slice

    constructor (connector: Connector, ingressTotals: Totals, egressTotals: Totals)
      requires connector.Valid()
      ensures Valid() && Idle()
      ensures this.connector == connector && this.ingressTotals == ingressTotals && this.egressTotals == egressTotals
    {
      this.connector, this.ingressTotals, this.egressTotals := connector, ingressTotals, egressTotals;
      var empty := new Byte[0];
      nothing := Slice(empty, 0, 0);
      ingressWrite, egressWrite, remaining := Slice(empty, 0, 0), Slice(empty, 0, 0), Slice(empty, 0, 0);
    }

    ghost predicate Sound()
      reads this, connector
    {
      connector.Valid() && ingressWrite.Valid() && egressWrite.Valid() && remaining.Valid() && nothing.Valid() && nothing.length == 0
    }

    ghost predicate Valid()
      reads this, connector
    {
      Sound() && (!connector.state.Open? ==> Points())
    }

    /** What there is to write lies where the connector keeps it. */
    ghost predicate Points()
      reads this, connector
    {
      (ingressWrite.length > 0 ==> ingressWrite.mem == connector.out) && (egressWrite.length > 0 ==> egressWrite.mem == connector.out)
    }

    /** Nothing to write and nothing left over. */
    ghost predicate Idle()
      reads this
    {
      ingressWrite == egressWrite == remaining == nothing
    }

    ghost function Written(): Writes
      requires ingressWrite.Valid() && egressWrite.Valid()
      reads this, ingressWrite.mem, egressWrite.mem
    {
      (ingressWrite.Octets(), egressWrite.Octets())
    }

    method TakeOutBuffer()
      requires Sound()
      modifies this`ingressWrite, this`egressWrite
      ensures Valid() && Written() == Write(connector.View())
    {
      var out := Slice(connector.out, 0, connector.outLength);
      assert out.Octets() == connector.out[..connector.outLength] && nothing.Octets() == [];
      if connector.toIngress {
        ingressWrite, egressWrite := out, nothing;
      } else {
        ingressWrite, egressWrite := nothing, out;
      }
    }

    /** The writes and the connector are as `r` says, and `held` is what is left. */
    ghost predicate Reached(why: Option<Refusal>, held: seq<Byte>, r: Processed)
      requires connector.Valid() ==> connector.outLength <= connector.out.Length
      reads this, connector, connector.out, ingressWrite.mem, egressWrite.mem
    {
      if r.Refused? then why == Some(r.why)
      else why.None? && Valid() && connector.View() == r.conn && Written() == (r.ingressWrite, r.egressWrite) && held == r.held
    }

    lemma ReachedOpen(why: Option<Refusal>, held: seq<Byte>, r: Processed)
      requires connector.Valid() ==> connector.outLength <= connector.out.Length
      requires Reached(why, held, r)
      ensures (why.None? && connector.state.Open?) == (r.Processed? && r.conn.state.Open?)
      ensures r.Processed? ==> held == r.held
    {
    }

    method TakeFrame(flow: Flow, info: SessionInfo, f: Frame) returns (why: Option<Refusal>)
      requires Valid()
      modifies this`ingressWrite, this`egressWrite, connector
      ensures match PacketModel.TakeFrame(old(connector.View()), flow, info, f, old(Written()))
        case NotTaken(reason) => why == Some(reason)
        case Taken(c, w) => why.None? && Valid() && connector.View() == c && Written() == w
      ensures connector.Renews()
    {
      hide ReceiveMethod, ToReceived, Transmit;
      if f.kind == 1 && !connector.state.Open? {
        if |f.payload| < 4 {
          return Some(ShortMethod);
        }
        var m := ToReceived(f.payload);
        if m.classId == CONNECTION_CLASS {
          var raised := connector.Receive(m, flow, info);
          if raised.Some? {
            return Some(ConnectorFailed(raised.value));
          }
          TakeOutBuffer();
        }
      }
      why := None;
    }

    /** The loop over whole frames: where it stopped, and how many it took. */
    method TakeWholeFrames(flow: Flow, info: SessionInfo, read: array<Byte>, filled: nat)
        returns (why: Option<Refusal>, at: nat, frameCount: nat)
      requires Valid() && filled <= read.Length && Idle()
      modifies this`ingressWrite, this`egressWrite, connector
      ensures at <= filled
      ensures var r := TakeFrames(old(connector.View()), flow, info, read[..filled], ([], []), 0);
        Reached(why, read[at..filled], r) && (r.Processed? ==> frameCount == r.frames)
      ensures connector.Renews()
    {
      hide PacketModel.TakeFrame, TakeFrames, DecodeFrame, Transmit, Connector.View, Connector.Valid;
      at, frameCount := 0, 0;
      assert nothing.Octets() == [];
      ghost var all := TakeFrames(connector.View(), flow, info, read[..filled], ([], []), 0);
      assert read[0..filled] == read[..filled];
      while filled - at >= FRAME_OVERHEAD
        invariant Valid() && at <= filled
        invariant all == TakeFrames(connector.View(), flow, info, read[at..filled], Written(), frameCount)
        invariant connector.Renews()
        decreases filled - at
      {
        var d := DecodeAt(read, at, filled - at);
        TakeStep(connector.View(), flow, info, read[at..filled], Written(), frameCount);
        if d.Incomplete? {
          return None, at, frameCount;
        }
        if !d.Complete? {
          return Some(BadFrame), at, frameCount;
        }
        assert read[at..filled][d.size..] == read[at + d.size..filled];
        why := TakeFrame(flow, info, d.frame);
        if why.Some? {
          return;
        }
        at, frameCount := at + d.size, frameCount + 1;
      }
      ShortIsIncomplete(read[at..filled]);
      TakeStep(connector.View(), flow, info, read[at..filled], Written(), frameCount);
      why := None;
    }

    /** Whole frames; what is left over of the memory is remembered. */
    method TakeAll(flow: Flow, info: SessionInfo, read: array<Byte>, filled: nat) returns (why: Option<Refusal>, frameCount: nat)
      requires Valid() && filled <= read.Length && Idle()
      modifies this, connector
      ensures remaining.mem == read && remaining.start + remaining.length == filled
      ensures var r := TakeFrames(old(connector.View()), flow, info, read[..filled], ([], []), 0);
        Reached(why, remaining.Octets(), r) && (r.Processed? ==> frameCount == r.frames)
      ensures connector.Renews()
    {
      hide TakeFrames, Transmit, Connector.Valid, Connector.Renews;
      var at;
      why, at, frameCount := TakeWholeFrames(flow, info, read, filled);
      remaining := Slice(read, at, filled - at);
    }

    /** Whole frames, then the passthrough once the connection is open. */
    method ProcessFrames(flow: Flow, info: SessionInfo, read: array<Byte>, filled: nat) returns (why: Option<Refusal>, frameCount: nat)
      requires Valid() && filled <= read.Length && Idle()
      requires !connector.state.AwaitingProtocolHeader?
      modifies this, connector
      ensures remaining.mem == read && remaining.start + remaining.length == filled
      ensures var r := PacketModel.Process(old(connector.View()), flow, info, read[..filled]);
        && Reached(why, remaining.Octets(), r)
        && (r.Processed? ==> frameCount == r.frames)
      ensures why.None? && connector.state.Open? ==> Forwards(flow, read, remaining.start)
      ensures connector.Renews()
    {
      hide TakeFrames, ConnectorModel.ReceiveHeader, Transmit, Connector.Valid, Connector.Renews;
      TakenIsSuffix(connector.View(), flow, info, read[..filled], ([], []), 0);
      why, frameCount := TakeAll(flow, info, read, filled);
      if why.None? && connector.state.Open? {
        Forward(flow, read, remaining.start);
        assert read[..filled][..remaining.start] == read[..remaining.start];
      }
    }

    /** The first octets of the memory that was read are written to the other side, and nothing to this one. */
    ghost predicate Forwards(flow: Flow, read: array<Byte>, n: nat)
      reads this
    {
      && (if flow.Ingress? then egressWrite else ingressWrite) == Slice(read, 0, n)
      && (if flow.Ingress? then ingressWrite else egressWrite) == nothing
    }

    /** The slice of the read memory that goes to the other side. */
    method Forward(flow: Flow, read: array<Byte>, at: nat)
      requires Sound() && connector.state.Open? && at <= read.Length
      modifies this`ingressWrite, this`egressWrite
      ensures Valid()
      ensures Forwards(flow, read, at)
      ensures Written() == if flow.Ingress? then ([], read[..at]) else (read[..at], [])
    {
      assert Slice(read, 0, at).Octets() == read[..at] && nothing.Octets() == [];
      if flow.Ingress? {
        egressWrite, ingressWrite := Slice(read, 0, at), nothing;
      } else {
        egressWrite, ingressWrite := nothing, Slice(read, 0, at);
      }
    }

    method ProcessHeader(flow: Flow, info: SessionInfo, read: array<Byte>, filled: nat) returns (why: Option<Refusal>)
      requires Valid() && Idle() && filled <= read.Length && connector.state.AwaitingProtocolHeader?
      modifies this, connector
      ensures remaining.Valid()
      ensures Reached(why, remaining.Octets(), PacketModel.Process(old(connector.View()), flow, info, read[..filled]))
      ensures connector.Renews()
    {
      hide TakeFrames, ConnectorModel.ReceiveHeader, Transmit;
      assert nothing.Octets() == [];
      if filled < PROTOCOL_HEADER_LENGTH {
        remaining := Slice(read, 0, filled);
        assert remaining.Octets() == read[..filled];
        return None;
      }
      var raised := connector.ReceiveHeader(read[..filled]);
      if raised.Some? {
        return Some(ConnectorFailed(raised.value));
      }
      TakeOutBuffer();
      why := None;
    }

    method ProcessAndCount(flow: Flow, info: SessionInfo, read: array<Byte>, filled: nat) returns (why: Option<Refusal>)
      requires Valid() && Idle() && filled <= read.Length && ingressTotals != egressTotals
      requires !connector.state.AwaitingProtocolHeader?
      modifies this, connector, ingressTotals, egressTotals
      ensures remaining.Valid() && connector.Renews()
      ensures Reached(why, remaining.Octets(), PacketModel.Process(old(connector.View()), flow, info, read[..filled]))
      ensures var r := PacketModel.Process(old(connector.View()), flow, info, read[..filled]);
        && ingressTotals.sums == old(ingressTotals.sums).Plus(Gain(r, flow, Ingress))
        && egressTotals.sums == old(egressTotals.sums).Plus(Gain(r, flow, Egress))
      ensures why.None? && connector.state.Open? ==> Forwards(flow, read, remaining.start) && remaining.mem == read
    {
      hide PacketModel.Process, Transmit, Forwards, Connector.Renews;
      PassIsCounted(connector.View(), flow, info, read[..filled]);
      ghost var r := PacketModel.Process(connector.View(), flow, info, read[..filled]);
      var frameCount;
      why, frameCount := ProcessFrames(flow, info, read, filled);
      ReachedOpen(why, remaining.Octets(), r);
      Count(why.None? && connector.state.Open?, flow, frameCount, remaining.start);
    }

    method Count(passed: bool, flow: Flow, frames: nat, bytes: nat)
      requires ingressTotals != egressTotals
      modifies ingressTotals, egressTotals
      ensures ingressTotals.sums == old(ingressTotals.sums).Plus(if passed && flow.Ingress? then Sums(1, frames, bytes) else Sums(0, 0, 0))
      ensures egressTotals.sums == old(egressTotals.sums).Plus(if passed && flow.Egress? then Sums(1, frames, bytes) else Sums(0, 0, 0))
    {
      if passed && flow.Ingress? {
        ingressTotals.Increment(frames, bytes);
      } else if passed {
        egressTotals.Increment(frames, bytes);
      }
    }

    /** One pass over what has been read, `filled` octets of `read`. */
    method Process(flow: Flow, info: SessionInfo, read: array<Byte>, filled: nat) returns (why: Option<Refusal>)
      requires Valid() && Idle() && filled <= read.Length && ingressTotals != egressTotals
      modifies this, connector, ingressTotals, egressTotals
      ensures remaining.Valid() && connector.Renews()
      ensures Reached(why, remaining.Octets(), PacketModel.Process(old(connector.View()), flow, info, read[..filled]))
      ensures var r := PacketModel.Process(old(connector.View()), flow, info, read[..filled]);
        && ingressTotals.sums == old(ingressTotals.sums).Plus(Gain(r, flow, Ingress))
        && egressTotals.sums == old(egressTotals.sums).Plus(Gain(r, flow, Egress))
      ensures why.None? && connector.state.Open? ==> Forwards(flow, read, remaining.start) && remaining.mem == read
    {
      if connector.state.AwaitingProtocolHeader? {
        HeaderDoesNotOpen(connector.View(), flow, info, read[..filled]);
        hide PacketModel.Process, Transmit;
        why := ProcessHeader(flow, info, read, filled);
      } else {
        hide PacketModel.Process, Transmit;
        why := ProcessAndCount(flow, info, read, filled);
      }
    }
  }
}
