/**
  Which packets an ADNL peer pair accepts: a window of 64 sequence numbers in each epoch of the other
  side, and an epoch number, its reinit date, that only moves forward.
 */
module AdnlWindow {
  import opened Numbers
  import opened Options

  const U64 := 0x1_0000_0000_0000_0000

  // ---------------------------------------------------------------- the 64-bit mask

  /** A 64-bit word, least significant bit first. */
  type Word = seq<bool>

  function Blank(n: nat): (w: Word)
    ensures |w| == n && forall k | 0 <= k < n :: !w[k]
  {
    if n == 0 then [] else Blank(n - 1) + [false]
  }

  /** The word shifted left by `d`. */
  function Shl(w: Word, d: nat): Word
    requires |w| == 64 && d < 64
  {
    Blank(d) + w[..64 - d]
  }

  // ---------------------------------------------------------------- the window

  /** The program's test. The sum wraps around at 64 bits. */
  predicate Received(top: nat, mask: Word, s: nat)
    requires 0 < s < U64 && top < U64 && |mask| == 64
  {
    if (s + 64) % U64 <= top then true
    else if s > top then false
    else Bit(top, mask, s)
  }

  /** The window describes the set `acc` of accepted numbers: `top` is the greatest, the mask tells of the last 64. */
  ghost predicate WindowOk(top: nat, mask: Word, acc: set<nat>) {
    && |mask| == 64 && top < U64 && (top > 0 ==> top in acc)
    && (forall s | s in acc :: 0 < s <= top)
    && (forall s: nat | 0 < s <= top < s + 64 :: Bit(top, mask, s) <==> s in acc)
  }

  /** The bit of number `s`. */
  predicate Bit(top: nat, mask: Word, s: nat)
    requires |mask| == 64 && s <= top < s + 64
  {
    mask[top - s]
  }

  /** Nothing accepted is ever accepted again, even where the sum wraps around. */
  lemma AcceptedIsReceived(top: nat, mask: Word, acc: set<nat>, s: nat)
    requires WindowOk(top, mask, acc) && s in acc
    ensures Received(top, mask, s)
  {
  }

  /**
    When the test is exact, that is, says "accepted before, or too old to tell": unless the sum wraps around
    to a number up to `top` and the mask does not tell of `s`.
   */
  lemma ReceivedMeans(top: nat, mask: Word, acc: set<nat>, s: nat)
    requires WindowOk(top, mask, acc) && 0 < s < U64
    ensures (Received(top, mask, s) <==> s in acc || s + 64 <= top)
            <==> (s + 64 < U64 || s + 64 - U64 > top || (s <= top && Bit(top, mask, s)))
  {
  }

  /** Where it is not exact, a new number is dropped; an old one is never taken for new. */
  lemma WrapDropsNew(top: nat, mask: Word, acc: set<nat>, s: nat)
    requires WindowOk(top, mask, acc) && 0 < s < U64
    requires s + 64 >= U64 && s + 64 - U64 <= top && !(s <= top && Bit(top, mask, s))
    ensures s !in acc && s + 64 > top && Received(top, mask, s)
  {
  }

  /** Such windows exist. */
  lemma WrapHappens() returns (top: nat, mask: Word, acc: set<nat>, s: nat)
    ensures WindowOk(top, mask, acc) && 0 < s < U64 && s !in acc && s > top && Received(top, mask, s)
  {
    top, mask, acc, s := 1, Blank(64)[0 := true], {1}, U64 - 64;
  }

  /** The new window after accepting `s`. */
  function NewMask(top: nat, mask: Word, s: nat): Word
    requires |mask| == 64 && 0 < s < U64 && top < U64 && !Received(top, mask, s)
  {
    if s <= top then mask[top - s := true]
    else if s - top >= 64 then Blank(64)[0 := true]
    else Shl(mask, s - top)[0 := true]
  }

  lemma AddKeepsWindow(top: nat, mask: Word, acc: set<nat>, s: nat)
    requires WindowOk(top, mask, acc) && 0 < s < U64 && !Received(top, mask, s)
    ensures WindowOk(if s <= top then top else s, NewMask(top, mask, s), acc + {s})
  {
    var top', mask', acc' := if s <= top then top else s, NewMask(top, mask, s), acc + {s};
    forall t: nat | 0 < t <= top' < t + 64 ensures Bit(top', mask', t) <==> t in acc' {
      if s > top && s - top < 64 && t <= top {
        assert Shl(mask, s - top)[s - t] == Bit(top, mask, t);
      } else if s <= top && t != s {
        assert mask'[top - t] == Bit(top, mask, t);
      }
    }
  }

  // ---------------------------------------------------------------- the peer pair

  /** A packet number with the epoch it belongs to. */
  datatype Key = Key(epoch: int, seqno: nat)

  /** What matters of a packet; `dates` are those of the reinit messages in it. */
  datatype Packet = Packet(dstReinitDate: int, reinitDate: int, seqno: nat, confirmSeqno: nat, addrDate: Option<int>,
                           priorityAddrDate: Option<int>, dates: seq<int>)

  /** The epoch of the other side, the numbers used in it, the window, and the numbers accepted. */
  datatype State = State(date: int, inSeqno: nat, outSeqno: nat, ackSeqno: nat, mask: Word, accepted: set<nat>)

  /** A new epoch starts with an empty window and nothing sent; the first date ever seen only gives it a name. */
  ghost function Started(e: State, date: int): State {
    if e.date == 0 then e.(date := date)
    else if e.date < date then State(date, 0, 0, 0, Blank(64), {})
    else e
  }

  /** An address list of some date starts an epoch, unless it is too far in the future. */
  ghost function Listed(e: State, date: Option<int>, now: int): State {
    if date.Some? && e.date < date.value <= now + 60 then Started(e, date.value) else e
  }

  ghost function Told(e: State, dates: seq<int>): State {
    if dates == [] then e else Started(Told(e, dates[..|dates| - 1]), dates[|dates| - 1])
  }

  /** A packet is taken: its number is in the window, and what it confirms is. */
  ghost function Taken(e: State, seqno: nat, confirmSeqno: nat): State
    requires |e.mask| == 64 && e.inSeqno < U64 && seqno < U64 && (seqno > 0 ==> !Received(e.inSeqno, e.mask, seqno))
  {
    var w := if seqno > 0 then e.(inSeqno := Max(e.inSeqno, seqno), mask := NewMask(e.inSeqno, e.mask, seqno),
                                  accepted := e.accepted + {seqno})
             else e;
    w.(ackSeqno := Max(e.ackSeqno, confirmSeqno))
  }

  /** What a packet that passes or fails each check leaves behind. */
  ghost function Passed(startTime: int, now: int, e: State, p: Packet): State
    requires |e.mask| == 64 && e.inSeqno < U64 && p.seqno < U64
  {
    if p.dstReinitDate > startTime || p.reinitDate > now + 60 then e
    else
      var e1 := if p.reinitDate > e.date then Started(e, p.reinitDate) else e;
      if 0 < p.reinitDate < e1.date then e
      else if 0 < p.dstReinitDate < startTime then Listed(Listed(e1, p.addrDate, now), p.priorityAddrDate, now)
      else if p.seqno > 0 && Received(e1.inSeqno, e1.mask, p.seqno) then e1
      else if p.confirmSeqno > e1.outSeqno then e1
      else Told(Listed(Listed(Taken(e1, p.seqno, p.confirmSeqno), p.addrDate, now), p.priorityAddrDate, now), p.dates)
  }

  class PeerPair {
    const startTime: int
    var reinitDate: int
    var inSeqno: nat
    var outSeqno: nat
    var ackSeqno: nat
    var mask: Word
    /** Numbers accepted since the window was last cleared. */
    ghost var accepted: set<nat>
    /** Everything delivered: epoch and number of the packet. */
    ghost var delivered: set<Key>

    ghost predicate Valid()
      reads this
    {
      && WindowOk(inSeqno, mask, accepted) && ackSeqno <= outSeqno < U64
      && DeliveredOk(reinitDate, accepted, delivered)
    }

    ghost function Now(): State
      reads this
    {
      State(reinitDate, inSeqno, outSeqno, ackSeqno, mask, accepted)
    }

    constructor (startTime: int)
      ensures Valid() && Now() == State(0, 0, 0, 0, Blank(64), {}) && delivered == {} && this.startTime == startTime
    {
      this.startTime := startTime;
      reinitDate, inSeqno, outSeqno, ackSeqno, mask, accepted, delivered := 0, 0, 0, 0, Blank(64), {}, {};
    }

    /** A new epoch of the other side. The first date ever seen does not clear the window. */
    method Reinit(date: int)
      requires Valid()
      modifies this`reinitDate, this`inSeqno, this`outSeqno, this`ackSeqno, this`mask, this`accepted
      ensures Valid() && Now() == Started(old(Now()), date)
      ensures if old(reinitDate) != 0 && old(reinitDate) < date
              then inSeqno == outSeqno == ackSeqno == 0 && mask == Blank(64) && accepted == {}
              else && inSeqno == old(inSeqno) && outSeqno == old(outSeqno) && ackSeqno == old(ackSeqno)
                   && mask == old(mask) && accepted == old(accepted)
    {
      if reinitDate == 0 {
        reinitDate := date;
      }
      if reinitDate < date {
        inSeqno, outSeqno, ackSeqno, mask := 0, 0, 0, Blank(64);
        accepted := {};
        reinitDate := date;
      }
    }

    /** An address list may announce a new epoch too. */
    method UpdateAddrList(date: int, now: int)
      requires Valid()
      modifies this`reinitDate, this`inSeqno, this`outSeqno, this`ackSeqno, this`mask, this`accepted
      ensures Valid() && Now() == Listed(old(Now()), Some(date), now)
    {
      if date > now + 60 {
        return;
      }
      if date > reinitDate {
        Reinit(date);
      }
    }

    method ReceivedPacket(s: nat) returns (r: bool)
      requires Valid() && 0 < s < U64
      ensures r <==> Received(inSeqno, mask, s)
      ensures s in accepted ==> r
      ensures s + 64 < U64 ==> (r <==> s in accepted || s + 64 <= inSeqno)
    {
      AcceptedIsReceivedIf(inSeqno, mask, accepted, s);
      return Received(inSeqno, mask, s);
    }

    method AddReceivedPacket(s: nat)
      requires Valid() && 0 < s < U64 && !Received(inSeqno, mask, s)
      modifies this`inSeqno, this`mask, this`accepted
      ensures Valid() && old(Now()).inSeqno < U64 && |old(Now()).mask| == 64
      ensures Now() == Taken(old(Now()), s, 0) && accepted == old(accepted) + {s}
    {
      AddKeepsWindow(inSeqno, mask, accepted, s);
      accepted := accepted + {s};
      if s <= inSeqno {
        mask := mask[inSeqno - s := true];
      } else {
        var was := inSeqno;
        inSeqno := s;
        if inSeqno - was >= 64 {
          mask := Blank(64)[0 := true];
        } else {
          mask := Shl(mask, inSeqno - was);
          mask := mask[0 := true];
        }
      }
    }

    /** The next outgoing packet number; fewer than 2^64 packets are sent in an epoch. */
    method NextSeqno() returns (s: nat)
      requires Valid() && outSeqno + 1 < U64
      modifies this`outSeqno
      ensures Valid() && s == outSeqno == old(outSeqno) + 1
    {
      outSeqno := outSeqno + 1;
      return outSeqno;
    }

    /**
      A packet whose signature or channel has been checked. `ok` tells whether its messages are
      delivered: for a positive epoch and number that happens at most once, whatever else is received.
     */
    method Receive(p: Packet, now: int) returns (ok: bool)
      requires Valid() && p.seqno < U64 && p.confirmSeqno < U64
      modifies this`reinitDate, this`inSeqno, this`outSeqno, this`ackSeqno, this`mask, this`accepted, this`delivered
      ensures Valid() && Later(old(reinitDate), reinitDate)
      ensures delivered == if ok && p.reinitDate > 0 && p.seqno > 0
                then old(delivered) + {Key(p.reinitDate, p.seqno)} else old(delivered)
      ensures ok && p.reinitDate > 0 && p.seqno > 0 ==> Key(p.reinitDate, p.seqno) !in old(delivered)
      ensures ok && p.reinitDate > 0 ==> old(reinitDate) <= p.reinitDate
      ensures |old(mask)| == 64 && old(inSeqno) < U64
      ensures ok <==> Admits(startTime, now, old(reinitDate), old(inSeqno), old(mask), old(outSeqno), p)
      ensures Now() == Passed(startTime, now, old(Now()), p)
      ensures ok && p.reinitDate <= old(reinitDate) && p.dates == [] && reinitDate == old(reinitDate) ==>
                accepted == old(accepted) + (if p.seqno > 0 then {p.seqno} else {}) &&
                  ackSeqno == Max(old(ackSeqno), p.confirmSeqno)
    {
      WindowBounds(inSeqno, mask, accepted);
      hide WindowOk, DeliveredOk, Received;
      ok := false;
      if p.dstReinitDate > startTime {
        return;
      }
      if p.reinitDate > now + 60 {
        return;
      }
      if p.reinitDate > reinitDate {
        Reinit(p.reinitDate);
      }
      if 0 < p.reinitDate < reinitDate {
        return;
      }
      if 0 < p.dstReinitDate < startTime {
        Announced(p, now);
        return;
      }
      if p.seqno > 0 {
        var again := ReceivedPacket(p.seqno);
        if again {
          return;
        }
      }
      if p.confirmSeqno > 0 && p.confirmSeqno > outSeqno {
        return;
      }
      Accept(p, now);
      ok := true;
    }

    /** The packet has passed all checks. */
    method Accept(p: Packet, now: int)
      requires Valid() && p.seqno < U64 && (p.seqno > 0 ==> !Received(inSeqno, mask, p.seqno))
      requires p.confirmSeqno <= outSeqno
      requires p.reinitDate > 0 ==> p.reinitDate == reinitDate
      modifies this`reinitDate, this`inSeqno, this`outSeqno, this`ackSeqno, this`mask, this`accepted, this`delivered
      ensures Valid() && Later(old(reinitDate), reinitDate)
      ensures delivered == if p.reinitDate > 0 && p.seqno > 0 then old(delivered) + {Key(p.reinitDate, p.seqno)}
                else old(delivered)
      ensures p.reinitDate > 0 && p.seqno > 0 ==> Key(p.reinitDate, p.seqno) !in old(delivered)
      ensures old(inSeqno) < U64 && |old(mask)| == 64
      ensures Now() == Told(Listed(Listed(Taken(old(Now()), p.seqno, p.confirmSeqno), p.addrDate, now),
                                   p.priorityAddrDate, now), p.dates)
    {
      WindowBounds(inSeqno, mask, accepted);
      if p.seqno > 0 {
        AcceptedIsReceivedIf(inSeqno, mask, accepted, p.seqno);
      }
      hide WindowOk, DeliveredOk, Received;
      ghost var was := accepted;
      if p.seqno > 0 {
        AddReceivedPacket(p.seqno);
      }
      if p.confirmSeqno > ackSeqno {
        ackSeqno := p.confirmSeqno;
      }
      DeliveredNext(reinitDate, was, accepted, delivered, p);
      if p.reinitDate > 0 && p.seqno > 0 {
        delivered := delivered + {Key(p.reinitDate, p.seqno)};
      }
      Announced(p, now);
      ToldIsLater(Now(), p.dates);
      DeliverMessages(p);
    }

    /** The messages of a packet, of which some announce a new epoch. */
    method DeliverMessages(p: Packet)
      requires Valid()
      modifies this`reinitDate, this`inSeqno, this`outSeqno, this`ackSeqno, this`mask, this`accepted
      ensures Valid() && Now() == Told(old(Now()), p.dates)
    {
      for i := 0 to |p.dates|
        invariant Valid() && Now() == Told(old(Now()), p.dates[..i])
      {
        assert p.dates[..i + 1][..i] == p.dates[..i];
        Reinit(p.dates[i]);
      }
      assert p.dates[..|p.dates|] == p.dates;
    }

    /** The address lists of a packet. */
    method Announced(p: Packet, now: int)
      requires Valid()
      modifies this`reinitDate, this`inSeqno, this`outSeqno, this`ackSeqno, this`mask, this`accepted
      ensures Valid() && Now() == Listed(Listed(old(Now()), p.addrDate, now), p.priorityAddrDate, now)
    {
      if p.addrDate.Some? {
        UpdateAddrList(p.addrDate.value, now);
      }
      if p.priorityAddrDate.Some? {
        UpdateAddrList(p.priorityAddrDate.value, now);
      }
    }
  }

  /** When a packet is delivered; a newer epoch starts with an empty window and nothing sent. */
  ghost predicate Admits(startTime: int, now: int, date: int, top: nat, mask: Word, out: nat, p: Packet)
    requires |mask| == 64 && top < U64 && p.seqno < U64
  {
    var clear := date != 0 && date < p.reinitDate;
    && p.dstReinitDate <= startTime && (p.dstReinitDate <= 0 || p.dstReinitDate == startTime)
    && p.reinitDate <= now + 60 && (p.reinitDate <= 0 || p.reinitDate >= date)
    && (p.seqno > 0 ==> if clear then !Received(0, Blank(64), p.seqno) else !Received(top, mask, p.seqno))
    && p.confirmSeqno <= if clear then 0 else out
  }

  lemma {:induction false} ToldIsLater(e: State, dates: seq<int>)
    ensures Later(e.date, Told(e, dates).date)
  {
    if dates != [] {
      ToldIsLater(e, dates[..|dates| - 1]);
    }
  }

  /** Once positive, a reinit date never goes back. */
  ghost predicate Later(before: int, after: int) {
    before > 0 ==> before <= after
  }

  /** What was delivered belongs to this epoch, and then it was accepted in it, or to an earlier one. */
  ghost predicate DeliveredOk(date: int, acc: set<nat>, delivered: set<Key>) {
    forall d | d in delivered :: 0 < d.epoch <= date && (d.epoch == date ==> d.seqno in acc)
  }

  lemma AcceptedIsReceivedIf(top: nat, mask: Word, acc: set<nat>, s: nat)
    requires WindowOk(top, mask, acc) && 0 < s < U64
    ensures s in acc ==> Received(top, mask, s)
    ensures s + 64 < U64 ==> (Received(top, mask, s) <==> s in acc || s + 64 <= top)
  {
    if s + 64 < U64 {
      ReceivedMeans(top, mask, acc, s);
    }
  }

  lemma WindowBounds(top: nat, mask: Word, acc: set<nat>)
    requires WindowOk(top, mask, acc)
    ensures |mask| == 64 && top < U64
  {
  }

  lemma DeliveredNext(date: int, was: set<nat>, acc: set<nat>, delivered: set<Key>, p: Packet)
    requires DeliveredOk(date, was, delivered) && was <= acc
    requires p.reinitDate > 0 && p.seqno > 0 ==> p.reinitDate == date && p.seqno !in was && p.seqno in acc
    ensures p.reinitDate > 0 && p.seqno > 0 ==>
              Key(p.reinitDate, p.seqno) !in delivered &&
              DeliveredOk(date, acc, delivered + {Key(p.reinitDate, p.seqno)})
    ensures DeliveredOk(date, acc, delivered)
  {
  }
}
