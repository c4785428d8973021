/**
  How an ADNL peer pair packs outgoing messages into packets over a direct connection.
 */
module AdnlPacking {

  const MTU := 1440              // of the network
  const MESSAGE_MTU := 1024 + 128 // of one message
  const HEADER := 272
  const CHANNEL_HEADER := 128
  const ADDR_LIST := 128
  const CREATE_CHANNEL := 40
  const CONFIRM_CHANNEL := 72
  const NO_UPDATE := 0x7fff_ffff

  datatype Message = Message(size: nat, data: nat)

  /** A control message about the channel, if one is sent along. */
  datatype Control = NoControl | CreateChannel | ConfirmChannel

  /** `addrIf`: the address list goes along if its version is above this. */
  datatype Packet = Packet(seqno: nat, control: Control, messages: seq<Message>, addrIf: int, priorityIf: int)

  /** The state the packer reads. */
  datatype Config = Config(channelInited: bool, channelReady: bool, peerAddrVersion: int, peerPriorityVersion: int)

  function ControlSize(c: Control): nat {
    match c
    case NoControl => 0
    case CreateChannel => CREATE_CHANNEL
    case ConfirmChannel => CONFIRM_CHANNEL
  }

  function HeaderSize(cfg: Config): nat {
    if cfg.channelReady then CHANNEL_HEADER else HEADER
  }

  /** The control message that is still to be delivered to the other side. */
  function Wanted(cfg: Config): Control {
    if !cfg.channelInited then CreateChannel
    else if !cfg.channelReady then ConfirmChannel
    else NoControl
  }

  function Total(ms: seq<Message>): nat {
    if ms == [] then 0 else Total(ms[..|ms| - 1]) + ms[|ms| - 1].size
  }

  /**
    The packet fits into 1440 bytes, whatever address lists are attached: 128 bytes for the header in a channel and 272
    without, 40 and 72 for the two control messages, 128 for each address list that may go along.
   */
  ghost predicate Fits(cfg: Config, p: Packet) {
    (if cfg.channelReady then 128 else 272)
    + (if p.control == CreateChannel then 40 else if p.control == ConfirmChannel then 72 else 0) + Total(p.messages)
    + (if p.addrIf < 0x7fff_ffff then 128 else 0) + (if p.priorityIf < 0x7fff_ffff then 128 else 0) <= 1440
  }

  /** There is no room for `m` beside `ms`; the first packet sets aside both address lists and the control message. */
  ghost predicate NoRoom(cfg: Config, first: bool, ms: seq<Message>, m: Message) {
    (if cfg.channelReady then 128 else 272)
    + (if !first then 0 else if !cfg.channelInited then 296 else if !cfg.channelReady then 328 else 256)
    + Total(ms) + m.size > 1440
  }

  lemma TotalNext(ms: seq<Message>, m: Message)
    ensures Total(ms + [m]) == Total(ms) + m.size
  {
    assert (ms + [m])[..|ms|] == ms;
  }

  /** Greedily takes messages from `ptr` on while they fit into a packet of which `s` bytes are used. */
  method Fill(messages: seq<Message>, ptr: nat, s: nat) returns (taken: seq<Message>, ptr': nat, s': nat)
    requires ptr <= |messages| && forall m | m in messages :: m.size <= MESSAGE_MTU
    ensures ptr <= ptr' <= |messages| && taken == messages[ptr..ptr']
    ensures s' == s + Total(taken) && (s <= MTU ==> s' <= MTU)
    ensures ptr' < |messages| ==> s' + messages[ptr'].size > MTU
  {
    taken, ptr', s' := [], ptr, s;
    while ptr' < |messages|
      invariant ptr <= ptr' <= |messages| && taken == messages[ptr..ptr']
      invariant s' == s + Total(taken) && (s <= MTU ==> s' <= MTU)
    {
      var m := messages[ptr'];
      assert m.size <= MESSAGE_MTU;
      if s' + m.size <= MTU {
        TotalNext(taken, m);
        s' := s' + m.size;
        taken := taken + [m];
        ptr' := ptr' + 1;
      } else {
        break;
      }
    }
  }

  /**
    One packet; `first` is the first of a batch, which reserves room for both address lists and the control message.
    Its size is counted in bytes: 128 for the header in a channel and 272 without, 40 and 72 for the two control
    messages, 128 for an address list, and 1440 in all.
   */
  method NextPacket(cfg: Config, messages: seq<Message>, ptr: nat, first: bool, seqno: nat)
    returns (p: Packet, ptr': nat)
    requires ptr <= |messages| && forall m | m in messages :: m.size <= MESSAGE_MTU
    ensures ptr <= ptr' <= |messages| && p.messages == messages[ptr..ptr'] && p.seqno == seqno
    ensures Fits(cfg, p) && (!first && ptr < |messages| ==> ptr < ptr')
    ensures ptr' < |messages| ==> NoRoom(cfg, first, p.messages, messages[ptr'])
    ensures first ==> p.control == (if !cfg.channelInited then CreateChannel
                                    else if !cfg.channelReady then ConfirmChannel else NoControl)
    ensures first ==> p.addrIf == cfg.peerAddrVersion && p.priorityIf == cfg.peerPriorityVersion
    ensures !first ==> var s := (if cfg.channelReady then 128 else 272) + Total(p.messages);
              && p.control == (if !cfg.channelInited then (if s + 40 <= 1440 then CreateChannel else NoControl)
                               else if !cfg.channelReady && s + 72 <= 1440 then ConfirmChannel else NoControl)
              && var s' := s + if p.control == CreateChannel then 40 else if p.control == ConfirmChannel then 72 else 0;
              && p.addrIf == (if s' + 128 <= 1440 then cfg.peerAddrVersion else 0x7fff_ffff)
              && p.priorityIf == (if s' + 256 <= 1440 then cfg.peerPriorityVersion else 0x7fff_ffff)
  {
    var s := HeaderSize(cfg);
    var control := NoControl;
    if first {
      s := s + 2 * ADDR_LIST;
      control := Wanted(cfg);
      s := s + ControlSize(control);
    }
    var taken;
    taken, ptr', s := Fill(messages, ptr, s);
    if !first {
      if s + ControlSize(Wanted(cfg)) <= MTU {
        control := Wanted(cfg);
        s := s + ControlSize(control);
      }
    }
    p := Packet(seqno, control, taken,
                if first || s + ADDR_LIST <= MTU then cfg.peerAddrVersion else NO_UPDATE,
                if first || s + 2 * ADDR_LIST <= MTU then cfg.peerPriorityVersion else NO_UPDATE);
  }

  /**
    A whole batch: every message exactly once and in order, packet `i` with those from `cuts[i]` to `cuts[i + 1]`;
    every packet within the network's limit, and none that could have taken one message more; the packets numbered
    consecutively, and at most one packet more than messages.
   */
  method Pack(cfg: Config, messages: seq<Message>, outSeqno: nat) returns (ps: seq<Packet>, ghost cuts: seq<nat>)
    requires forall m | m in messages :: m.size <= MESSAGE_MTU
    ensures 1 <= |ps| <= |messages| + 1 && |cuts| == |ps| + 1 && cuts[0] == 0 && cuts[|ps|] == |messages|
    ensures forall i | 0 <= i < |ps| :: PacketAt(cfg, messages, outSeqno, ps[i], cuts, i)
    ensures ps[0].control == if !cfg.channelInited then CreateChannel
                             else if !cfg.channelReady then ConfirmChannel else NoControl
  {
    hide PacketAt;
    var ptr, first := 0, true;
    ps, cuts := [], [0];
    while first || ptr < |messages|
      invariant 0 <= ptr <= |messages| && (first <==> ps == []) && (first ==> ptr == 0) && |ps| <= ptr + 1
      invariant |cuts| == |ps| + 1 && cuts[0] == 0 && cuts[|ps|] == ptr
      invariant forall i | 0 <= i < |ps| :: PacketAt(cfg, messages, outSeqno, ps[i], cuts, i)
      invariant ps != [] ==> ps[0].control == if !cfg.channelInited then CreateChannel
                                              else if !cfg.channelReady then ConfirmChannel else NoControl
      decreases first, |messages| - ptr
    {
      var p, next := NextPacket(cfg, messages, ptr, first, outSeqno + |ps| + 1);
      PacketAdded(cfg, messages, outSeqno, ps, cuts, p, next);
      ps, cuts, ptr, first := ps + [p], cuts + [next], next, false;
    }
  }

  /** What holds of packet `i`, which has the messages from `cuts[i]` to `cuts[i + 1]`. */
  ghost predicate PacketAt(cfg: Config, messages: seq<Message>, outSeqno: nat, p: Packet, cuts: seq<nat>, i: nat) {
    && i + 1 < |cuts| && cuts[i] <= cuts[i + 1] <= |messages| && p.messages == messages[cuts[i]..cuts[i + 1]]
    && p.seqno == outSeqno + 1 + i && Fits(cfg, p)
    && (cuts[i + 1] < |messages| ==> NoRoom(cfg, i == 0, p.messages, messages[cuts[i + 1]]))
  }

  lemma PacketAdded(cfg: Config, messages: seq<Message>, outSeqno: nat, ps: seq<Packet>, cuts: seq<nat>, p: Packet,
                    next: nat)
    requires |cuts| == |ps| + 1 && cuts[|ps|] <= next <= |messages| && p.messages == messages[cuts[|ps|]..next]
    requires forall i | 0 <= i < |ps| :: PacketAt(cfg, messages, outSeqno, ps[i], cuts, i)
    requires p.seqno == outSeqno + 1 + |ps| && Fits(cfg, p)
    requires next < |messages| ==> NoRoom(cfg, ps == [], p.messages, messages[next])
    ensures forall i | 0 <= i < |ps| + 1 :: PacketAt(cfg, messages, outSeqno, (ps + [p])[i], cuts + [next], i)
  {
    hide Fits, NoRoom;
    forall i | 0 <= i < |ps| ensures PacketAt(cfg, messages, outSeqno, ps[i], cuts + [next], i) {
      assert PacketAt(cfg, messages, outSeqno, ps[i], cuts, i);
    }
  }
}
