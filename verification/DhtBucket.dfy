/**
  A bucket of the DHT table: slots for active nodes and slots for backup nodes, between which nodes
  move as they answer pings or fail to. Time is a positive real number.
 */
module DhtBucket {
  import opened DhtKeys
  import opened Options
  import N = DhtNearest

  const MAX_MISSED := 3
  const PING_TIMEOUT := 60.0
  const EVICT_AFTER := 60.0

  datatype Remote = Remote(key: Key, version: int, missed: nat, lastPing: real, readyFrom: real, failedFrom: real)

  type Slots = seq<Option<Remote>>

  /** An announcement of a node; `signed` tells whether its signature is good. */
  datatype Node = Node(key: Key, version: int, signed: bool)

  predicate Ready(r: Remote) {
    r.readyFrom > 0.0
  }

  predicate Stale(r: Remote, now: real) {
    r.readyFrom == 0.0 && r.failedFrom + EVICT_AFTER < now
  }

  /** A node that has missed more than three pings is not ready. */
  predicate TimesOk(r: Remote) {
    r.readyFrom >= 0.0 && (r.missed > 3 ==> r.readyFrom == 0.0)
  }

  // ---------------------------------------------------------------- one node

  /** A newer announcement with a good signature replaces the old one; `ok` is false for a bad signature. */
  function UpdateValue(r: Remote, n: Node): (Remote, bool) {
    if n.version <= r.version then (r, true)
    else if !n.signed then (r, false)
    else (r.(version := n.version), true)
  }

  function ReceivePing(r: Remote, n: Node, now: real): Remote {
    var (u, ok) := UpdateValue(r, n);
    if !ok then r
    else u.(missed := 0, readyFrom := if u.readyFrom == 0.0 then now else u.readyFrom)
  }

  function SendPing(r: Remote, now: real): Remote {
    var fails := r.missed + 1 > MAX_MISSED && r.readyFrom > 0.0;
    r.(missed := r.missed + 1, lastPing := now,
       readyFrom := if fails then 0.0 else r.readyFrom,
       failedFrom := if fails then now else r.failedFrom)
  }

  /** The node was pinged: one more ping is missed, and with more than three a ready node has failed. */
  ghost predicate Aged(r: Remote, r': Remote, now: real) {
    && r'.key == r.key && r'.version == r.version && r'.missed == r.missed + 1 && r'.lastPing == now
    && if r.missed + 1 > 3 && r.readyFrom > 0.0 then r'.readyFrom == 0.0 && r'.failedFrom == now
       else r'.readyFrom == r.readyFrom && r'.failedFrom == r.failedFrom
  }

  /** The node has a newer version, if the announcement is newer and its signature good. */
  ghost predicate Renewed(r: Remote, r': Remote, n: Node, ok: bool) {
    && (ok <==> n.version <= r.version || n.signed)
    && r' == if n.version > r.version && n.signed then r.(version := n.version) else r
  }

  /** The node has answered with `n`: no ping is missed, and it is ready, unless the signature is bad. */
  ghost predicate Replied(r: Remote, r': Remote, n: Node, now: real) {
    if n.version > r.version && !n.signed then r' == r
    else && r'.key == r.key && r'.lastPing == r.lastPing && r'.failedFrom == r.failedFrom && r'.missed == 0
         && r'.version == (if n.version > r.version then n.version else r.version)
         && r'.readyFrom == if r.readyFrom == 0.0 then now else r.readyFrom
  }

  lemma NodeSteps(r: Remote, n: Node, now: real)
    ensures Aged(r, SendPing(r, now), now) && Renewed(r, UpdateValue(r, n).0, n, UpdateValue(r, n).1)
    ensures Replied(r, ReceivePing(r, n, now), n, now)
  {
  }

  // ---------------------------------------------------------------- the invariant

  ghost predicate Distinct(all: Slots) {
    forall i, j | 0 <= i < j < |all| && all[i].Some? && all[j].Some? :: all[i].value.key != all[j].value.key
  }

  ghost predicate Times(all: Slots) {
    forall i | 0 <= i < |all| && all[i].Some? :: TimesOk(all[i].value)
  }

  ghost predicate AllReady(active: Slots) {
    forall i | 0 <= i < |active| && active[i].Some? :: active[i].value.readyFrom > 0.0
  }

  ghost predicate NoneReady(backup: Slots, n: nat) {
    forall i | 0 <= i < n && i < |backup| && backup[i].Some? :: backup[i].value.readyFrom <= 0.0
  }

  ghost predicate HasRoom(active: Slots) {
    exists i :: 0 <= i < |active| && active[i].None?
  }

  ghost predicate Has(all: Slots, key: Key) {
    exists i :: 0 <= i < |all| && all[i].Some? && all[i].value.key == key
  }

  /** The time of an operation, and whether it sends pings. */
  datatype When = When(time: real, pings: bool)

  /** Ready and, if pings are sent, not about to fail by one ping too many without an answer. */
  ghost predicate Good(r: Remote, due: When) {
    r.readyFrom > 0.0 && !(due.pings && due.time - r.lastPing > 60.0 && r.missed + 1 > 3)
  }

  /** Good, or failed before but not more than a minute ago. */
  ghost predicate Fresh(r: Remote, due: When) {
    || Good(r, due)
    || (r.readyFrom == 0.0 && due.time <= r.failedFrom + 60.0 && (due.pings ==> r.failedFrom < due.time))
  }

  ghost predicate HasGood(all: Slots, key: Key, due: When) {
    exists i :: 0 <= i < |all| && all[i].Some? && all[i].value.key == key && Good(all[i].value, due)
  }

  ghost predicate HasFresh(all: Slots, key: Key, due: When) {
    exists i :: 0 <= i < |all| && all[i].Some? && all[i].value.key == key && Fresh(all[i].value, due)
  }

  /** No good node is lost or stops being good, and none that failed less than a minute ago is lost. */
  ghost predicate KeepsGood(all: Slots, all': Slots, due: When) {
    && (forall key | HasGood(all, key, due) :: HasGood(all', key, due))
    && (forall key | HasFresh(all, key, due) :: HasFresh(all', key, due))
  }

  ghost predicate Sound(active: Slots, backup: Slots) {
    Distinct(active + backup) && Times(active + backup) && AllReady(active)
  }

  // ---------------------------------------------------------------- elementary changes

  /** Write a slot: either with an update of the node in it, or with a node whose key is nowhere else. */
  lemma WriteKeeps(all: Slots, i: nat, s: Option<Remote>)
    requires Distinct(all) && Times(all) && i < |all| && (s.Some? ==> TimesOk(s.value))
    requires s.Some? ==> forall j | 0 <= j < |all| && j != i && all[j].Some? :: all[j].value.key != s.value.key
    ensures Distinct(all[i := s]) && Times(all[i := s])
  {
  }

  lemma MoveKeeps(all: Slots, i: nat, j: nat)
    requires Distinct(all) && Times(all) && i < |all| && j < |all| && i != j && all[i].Some?
    ensures Distinct(all[j := all[i]][i := None]) && Times(all[j := all[i]][i := None])
  {
  }

  lemma WriteKeepsGood(all: Slots, i: nat, s: Option<Remote>, due: When)
    requires i < |all|
    requires all[i].Some? && Good(all[i].value, due) ==>
               s.Some? && s.value.key == all[i].value.key && Good(s.value, due)
    requires all[i].Some? && Fresh(all[i].value, due) ==>
               s.Some? && s.value.key == all[i].value.key && Fresh(s.value, due)
    ensures KeepsGood(all, all[i := s], due)
  {
    forall key | HasGood(all, key, due) ensures HasGood(all[i := s], key, due) {
      var j :| 0 <= j < |all| && all[j].Some? && all[j].value.key == key && Good(all[j].value, due);
      assert all[i := s][j].Some?;
    }
    forall key | HasFresh(all, key, due) ensures HasFresh(all[i := s], key, due) {
      var j :| 0 <= j < |all| && all[j].Some? && all[j].value.key == key && Fresh(all[j].value, due);
      assert all[i := s][j].Some?;
    }
  }

  lemma MoveKeepsGood(all: Slots, i: nat, j: nat, due: When)
    requires i < |all| && j < |all| && i != j && (all[j].Some? ==> !Fresh(all[j].value, due))
    ensures KeepsGood(all, all[j := all[i]][i := None], due)
  {
    var all' := all[j := all[i]][i := None];
    forall key | HasGood(all, key, due) ensures HasGood(all', key, due) {
      var m :| 0 <= m < |all| && all[m].Some? && all[m].value.key == key && Good(all[m].value, due);
      assert all'[if m == i then j else m] == all[m];
    }
    forall key | HasFresh(all, key, due) ensures HasFresh(all', key, due) {
      var m :| 0 <= m < |all| && all[m].Some? && all[m].value.key == key && Fresh(all[m].value, due);
      assert all'[if m == i then j else m] == all[m];
    }
  }

  lemma JoinedActive(active: Slots, backup: Slots, i: nat, s: Option<Remote>)
    requires i < |active|
    ensures active[i := s] + backup == (active + backup)[i := s] && (active + backup)[i] == active[i]
  {
  }

  lemma JoinedBackup(active: Slots, backup: Slots, j: nat, s: Option<Remote>)
    requires j < |backup|
    ensures active + backup[j := s] == (active + backup)[|active| + j := s]
    ensures (active + backup)[|active| + j] == backup[j]
  {
  }

  // ---------------------------------------------------------------- searching

  method FindKey(slots: Slots, key: Key) returns (i: nat)
    ensures i <= |slots| && (i < |slots| ==> slots[i].Some? && slots[i].value.key == key)
    ensures forall j | 0 <= j < i && slots[j].Some? :: slots[j].value.key != key
  {
    i := 0;
    while i < |slots| && !(slots[i].Some? && slots[i].value.key == key)
      invariant i <= |slots| && forall j | 0 <= j < i && slots[j].Some? :: slots[j].value.key != key
    {
      i := i + 1;
    }
  }

  /** The slot is empty, or its node failed more than a minute ago. */
  ghost predicate IsPlace(s: Option<Remote>, now: real) {
    s.None? || (s.value.readyFrom == 0.0 && s.value.failedFrom + 60.0 < now)
  }

  ghost predicate NoPlace(slots: Slots, now: real) {
    forall j | 0 <= j < |slots| :: !IsPlace(slots[j], now)
  }

  /** The node is in a slot that was free for it, if there was one. */
  ghost predicate PutAside(backup: Slots, backup': Slots, s: Option<Remote>, now: real) {
    if NoPlace(backup, now) then backup' == backup
    else exists j :: 0 <= j < |backup| && IsPlace(backup[j], now) && backup' == backup[j := s]
  }

  /** An empty slot, or else one whose node failed long ago. */
  method FindPlace(slots: Slots, now: real) returns (i: nat)
    ensures i <= |slots| && if i < |slots| then IsPlace(slots[i], now) else NoPlace(slots, now)
    ensures i < |slots| && slots[i].Some? ==> forall j | 0 <= j < |slots| :: slots[j].Some?
  {
    i := 0;
    while i < |slots|
      invariant i <= |slots| && forall j | 0 <= j < i :: slots[j].Some?
    {
      if slots[i].None? {
        return;
      }
      i := i + 1;
    }
    i := 0;
    while i < |slots|
      invariant i <= |slots| && forall j | 0 <= j < i :: !Stale(slots[j].value, now)
      invariant forall j | 0 <= j < |slots| :: slots[j].Some?
    {
      assert slots[i].Some?;
      if Stale(slots[i].value, now) {
        return;
      }
      i := i + 1;
    }
  }

  // ---------------------------------------------------------------- the class

  class Bucket {
    var active: Slots
    var backup: Slots

    ghost predicate Valid()
      reads this
    {
      Sound(active, backup) && (HasRoom(active) ==> NoneReady(backup, |backup|))
    }

    constructor (k: nat)
      ensures Valid() && |active| == |backup| == k
    {
      active, backup := seq(k, _ => None), seq(k, _ => None);
    }

    /** An announcement of a node. It never displaces a ready node. */
    method AddFullNode(n: Node, now: real) returns (ok: bool)
      requires Valid() && now > 0.0
      modifies this
      ensures Valid() && |active| == old(|active|) && |backup| == old(|backup|)
      ensures KeepsGood(old(active + backup), active + backup, When(now, false))
      ensures old(Has(active + backup, n.key)) ==> RefreshedBy(old(active + backup), active + backup, n, ok)
      ensures old(!Has(active + backup, n.key)) ==> (ok <==> n.signed) && active == old(active)
      ensures old(!Has(active + backup, n.key)) && !n.signed ==> backup == old(backup)
      ensures old(!Has(active + backup, n.key)) && n.signed && Has(active + backup, n.key) ==>
                exists j :: 0 <= j < |backup| &&
                  backup == old(backup)[j := Some(Remote(n.key, n.version, 0, 0.0, 0.0, now))]
                            && IsPlace(old(backup[j]), now)
      ensures old(!Has(active + backup, n.key)) && n.signed && !Has(active + backup, n.key) ==>
                backup == old(backup) && NoPlace(backup, now)
    {
      hide Distinct, Times, AllReady, NoneReady, HasRoom, KeepsGood, Has, RefreshedBy;
      var i := FindKey(active, n.key);
      if i < |active| {
        Updated(active, backup, i, n, now);
        var (r, good) := UpdateValue(active[i].value, n);
        active := active[i := Some(r)];
        return good;
      }
      var j := FindKey(backup, n.key);
      if j < |backup| {
        UpdatedBackup(active, backup, j, n, now);
        var (r, good) := UpdateValue(backup[j].value, n);
        backup := backup[j := Some(r)];
        return good;
      }
      NotThere(active, backup, n.key);
      if !n.signed {
        KeepsAll(active + backup, When(now, false));
        return false;
      }
      j := FindPlace(backup, now);
      if j < |backup| {
        Placed(active, backup, j, Remote(n.key, n.version, 0, 0.0, 0.0, now), now);
        backup := backup[j := Some(Remote(n.key, n.version, 0, 0.0, 0.0, now))];
      } else {
        KeepsAll(active + backup, When(now, false));
      }
      return true;
    }

    /** Move a ready backup node to the first empty slot for active nodes, if there is one. */
    method Promote(j: nat, ghost due: When)
      requires Sound(active, backup) && j < |backup| && backup[j].Some? && Ready(backup[j].value)
      modifies this
      ensures Sound(active, backup) && |active| == old(|active|) && |backup| == old(|backup|)
      ensures KeepsGood(old(active + backup), active + backup, due) && Within(active + backup, old(active + backup))
      ensures old(HasRoom(active)) ==>
                backup == old(backup)[j := None] && exists p: nat ::
                FirstEmpty(old(active), p) && active == old(active)[p := old(backup[j])]
      ensures !old(HasRoom(active)) ==> active == old(active) && backup == old(backup)
    {
      hide Distinct, Times, KeepsGood;
      var p := 0;
      while p < |active|
        invariant p <= |active| && active == old(active) && backup == old(backup)
        invariant forall i | 0 <= i < p :: active[i].Some?
      {
        if active[p].None? {
          Promoted(active, backup, j, p, due);
          JoinedActive(active, backup, p, backup[j]);
          JoinedBackup(active, backup, j, None);
          JoinedBackup(active[p := backup[j]], backup, j, None);
          MovedWithin(active + backup, |active| + j, p);
          assert FirstEmpty(active, p);
          active := active[p := backup[j]];
          backup := backup[j := None];
          return;
        }
        assert Ready(active[p].value);
        p := p + 1;
      }
      KeepsAll(active + backup, due);
      if |active + backup| > 0 {
        MovedWithin(active + backup, 0, 0);
      }
    }

    /** Move a failed node to the backup slots, or drop it if none is free or long failed. */
    method Demote(i: nat, now: real)
      requires i < |active| && active[i].Some? && active[i].value.readyFrom == 0.0 && active[i].value.failedFrom == now
      requires Distinct(active + backup) && Times(active + backup) && AllReady(active[i := None])
      modifies this
      ensures Sound(active, backup) && |backup| == old(|backup|) && active == old(active)[i := None]
      ensures KeepsGood(old(active + backup), active + backup, When(now, true))
      ensures Within(active + backup, old(active + backup))
      ensures PutAside(old(backup), backup, old(active[i]), now)
    {
      hide Distinct, Times, KeepsGood;
      var j := FindPlace(backup, now);
      if j < |backup| {
        Demoted(active, backup, i, j, now);
        JoinedActive(active, backup, i, None);
        JoinedBackup(active, backup, j, active[i]);
        JoinedBackup(active[i := None], backup, j, active[i]);
        MovedWithin(active + backup, i, |active| + j);
        assert (active + backup)[|active| + j := active[i]][i := None]
            == (active + backup)[i := None][|active| + j := active[i]];
        backup := backup[j := active[i]];
        active := active[i := None];
      } else {
        Dropped(active, backup, i, now);
        JoinedActive(active, backup, i, None);
        MovedWithin(active + backup, i, i);
        active := active[i := None];
      }
    }

    /**
      An answer to a ping of the node with key `id`. The answer is not looked at before, so it may tell of another node
      than the one that was asked: then the check on it fails, which ends the program, exactly if that one is held.
     */
    method ReceivedPing(id: Key, n: Node, now: real) returns (ok: bool)
      requires Valid() && now > 0.0
      modifies this
      ensures ok <==> (old(Has(active + backup, id)) ==> n.key == id)
      ensures Valid() && |active| == old(|active|) && |backup| == old(|backup|)
      ensures KeepsGood(old(active + backup), active + backup, When(now, false))
      ensures !ok || !old(Has(active + backup, id)) ==> active == old(active) && backup == old(backup)
      ensures ok && n.signed && old(Has(active + backup, id)) ==> HasGood(active + backup, id, When(now, false))
      ensures ok && old(Has(active + backup, id)) ==> AnsweredBy(old(active + backup), active + backup, n, now)
                                                      && OthersStay(old(active + backup), active + backup, id)
    {
      hide Distinct, Times, NoneReady, HasRoom, KeepsGood, Has, HasGood, AnsweredBy, OthersStay;
      ok := true;
      var i := FindKey(active, id);
      if i < |active| {
        There(active, backup, i);
        if n.key != active[i].value.key {
          KeepsAll(active + backup, When(now, false));
          return false;
        }
        Answered(active, backup, i, n, now);
        AnswerSeen(active, backup, active[i := Some(ReceivePing(active[i].value, n, now))], backup, n, now, i, i);
        active := active[i := Some(ReceivePing(active[i].value, n, now))];
        return;
      }
      var j := FindKey(backup, id);
      if j < |backup| {
        There(active, backup, |active| + j);
        if n.key != backup[j].value.key {
          KeepsAll(active + backup, When(now, false));
          return false;
        }
        ghost var all0, backup0 := active + backup, backup;
        AnsweredBackup(active, backup, j, n, now);
        backup := backup[j := Some(ReceivePing(backup[j].value, n, now))];
        if Ready(backup[j].value) {
          ghost var all1 := active + backup;
          Promote(j, When(now, false));
          KeepsChain(all0, all1, active + backup, When(now, false));
          GoodStays(all1, active + backup, n.key, When(now, false));
          PromotedRoom(old(active), backup0, active, backup, j);
          PromotedAnswer(old(active), backup0, active, backup, n, now, j);
        } else {
          StillNotReady(active, backup0, backup, j);
          AnswerSeen(active, backup0, active, backup, n, now, |active| + j, |active| + j);
        }
        return;
      }
      NotThere(active, backup, id);
      KeepsAll(active + backup, When(now, false));
    }

    /** The periodic check: ping what is due, demote what has failed, fill the empty slots. */
    method Check(now: real)
      requires Valid() && now > 0.0
      modifies this
      ensures Valid() && |active| == old(|active|) && |backup| == old(|backup|)
      ensures KeepsGood(old(active + backup), active + backup, When(now, true))
      ensures Checked(old(active + backup), active, backup, now)
    {
      hide Sound, KeepsGood, HasGood, SendPing, PingedFrom, NoneDue, NoneReady;
      var space := CheckActive(now);
      CheckBackup(now, space, old(active + backup));
      EmptyMeans(active);
    }

    /** The active nodes; returns the number of empty slots. */
    method CheckActive(now: real) returns (space: nat)
      requires Sound(active, backup) && now > 0.0
      modifies this
      ensures Sound(active, backup) && |active| == old(|active|) && |backup| == old(|backup|)
      ensures KeepsGood(old(active + backup), active + backup, When(now, true))
      ensures PingedFrom(old(active + backup), active + backup, now)
      ensures space == Empty(active) && NoneDue(active, now, |active|)
    {
      hide Distinct, Times, KeepsGood, HasGood, SendPing, PingedFrom;
      KeepsAll(active + backup, When(now, true));
      PingedNone(active + backup, now);
      space := 0;
      for i := 0 to |active|
        invariant Sound(active, backup) && |active| == old(|active|) && |backup| == old(|backup|)
        invariant KeepsGood(old(active + backup), active + backup, When(now, true))
        invariant space == Empty(active[..i])
        invariant NoneDue(active, now, i) && PingedFrom(old(active + backup), active + backup, now)
      {
        ghost var all0, active0 := active + backup, active;
        if active[i].Some? && now - active[i].value.lastPing > PING_TIMEOUT {
          Pinged(active, backup, i, now);
          JoinedActive(active, backup, i, Some(SendPing(active[i].value, now)));
          PingedAt(old(active + backup), active + backup, i, now);
          PingedNow(active[i].value, now);
          active := active[i := Some(SendPing(active[i].value, now))];
          ghost var all1 := active + backup;
          KeepsChain(old(active + backup), all0, all1, When(now, true));
          if active[i].value.readyFrom == 0.0 {
            Demote(i, now);
            KeepsChain(old(active + backup), all1, active + backup, When(now, true));
            PingedWithin(old(active + backup), all1, active + backup, now);
          }
        }
        EmptyNext(active0, active, i);
        if active[i].None? {
          space := space + 1;
        }
      }
      assert active[..|active|] == active;
    }

    /** The backup nodes, of which ready ones move to the empty slots. */
    method CheckBackup(now: real, room: nat, ghost start: Slots)
      requires Sound(active, backup) && now > 0.0 && room == Empty(active) && NoneDue(active, now, |active|)
      requires KeepsGood(start, active + backup, When(now, true)) && PingedFrom(start, active + backup, now)
      modifies this
      ensures Sound(active, backup) && |active| == old(|active|) && |backup| == old(|backup|)
      ensures KeepsGood(start, active + backup, When(now, true)) && PingedFrom(start, active + backup, now)
      ensures NoneDue(active, now, |active|) && NoneDue(backup, now, |backup|)
      ensures Empty(active) > 0 ==> NoneReady(backup, |backup|)
    {
      hide Distinct, Times, KeepsGood, HasGood, SendPing, PingedFrom;
      var space := room;
      for j := 0 to |backup|
        invariant Sound(active, backup) && |active| == old(|active|) && |backup| == old(|backup|)
        invariant KeepsGood(start, active + backup, When(now, true))
        invariant space == Empty(active) && (space > 0 ==> NoneReady(backup, j))
        invariant NoneDue(active, now, |active|) && NoneDue(backup, now, j) && PingedFrom(start, active + backup, now)
      {
        ghost var all0 := active + backup;
        if backup[j].Some? && now - backup[j].value.lastPing > PING_TIMEOUT {
          PingedBackup(active, backup, j, now);
          JoinedBackup(active, backup, j, Some(SendPing(backup[j].value, now)));
          PingedAt(start, active + backup, |active| + j, now);
          PingedNow(backup[j].value, now);
          backup := backup[j := Some(SendPing(backup[j].value, now))];
          KeepsChain(start, all0, active + backup, When(now, true));
        }
        ghost var all1, active1, backup1 := active + backup, active, backup;
        if backup[j].Some? && space > 0 && Ready(backup[j].value) {
          EmptyMeans(active);
          Promote(j, When(now, true));
          KeepsChain(start, all1, active + backup, When(now, true));
          PingedWithin(start, all1, active + backup, now);
          Filled(active1, active, backup1[j]);
          space := space - 1;
        }
      }
    }
  }

  // ---------------------------------------------------------------- the steps, on values

  lemma KeepsAll(all: Slots, due: When)
    ensures KeepsGood(all, all, due)
  {
  }

  lemma There(active: Slots, backup: Slots, i: nat)
    requires i < |active + backup| && (active + backup)[i].Some?
    ensures Has(active + backup, (active + backup)[i].value.key)
  {
  }

  lemma NotThere(active: Slots, backup: Slots, key: Key)
    requires forall j | 0 <= j < |active| && active[j].Some? :: active[j].value.key != key
    requires forall j | 0 <= j < |backup| && backup[j].Some? :: backup[j].value.key != key
    ensures !Has(active + backup, key)
  {
  }

  /** The node of `n` was updated in its place. */
  ghost predicate RefreshedBy(all: Slots, all': Slots, n: Node, ok: bool) {
    exists i :: 0 <= i < |all| == |all'| && all[i].Some? && all[i].value.key == n.key && all'[i].Some?
                && all' == all[i := all'[i]] && Renewed(all[i].value, all'[i].value, n, ok)
  }

  /** Replacing a node in place by one with the same key that is ready exactly if it was. */
  lemma InPlace(all: Slots, i: nat, r: Remote, due: When)
    requires Distinct(all) && Times(all) && i < |all| && all[i].Some? && r.key == all[i].value.key && TimesOk(r)
    requires (Good(all[i].value, due) ==> Good(r, due)) && (Fresh(all[i].value, due) ==> Fresh(r, due))
    ensures Distinct(all[i := Some(r)]) && Times(all[i := Some(r)]) && KeepsGood(all, all[i := Some(r)], due)
  {
    WriteKeeps(all, i, Some(r));
    WriteKeepsGood(all, i, Some(r), due);
  }

  lemma InActive(active: Slots, backup: Slots, i: nat, r: Remote, due: When)
    requires Sound(active, backup) && (HasRoom(active) ==> NoneReady(backup, |backup|))
    requires i < |active| && active[i].Some? && r.key == active[i].value.key && TimesOk(r) && Ready(r)
    requires (Good(active[i].value, due) ==> Good(r, due)) && (Fresh(active[i].value, due) ==> Fresh(r, due))
    ensures Sound(active[i := Some(r)], backup) && (HasRoom(active[i := Some(r)]) ==> NoneReady(backup, |backup|))
    ensures KeepsGood(active + backup, active[i := Some(r)] + backup, due)
  {
    JoinedActive(active, backup, i, Some(r));
    InPlace(active + backup, i, r, due);
    if HasRoom(active[i := Some(r)]) {
      var j :| 0 <= j < |active| && active[i := Some(r)][j].None?;
      assert active[j].None?;
    }
  }

  lemma InBackup(active: Slots, backup: Slots, j: nat, r: Remote, due: When)
    requires Sound(active, backup) && j < |backup| && backup[j].Some? && r.key == backup[j].value.key && TimesOk(r)
    requires (Good(backup[j].value, due) ==> Good(r, due)) && (Fresh(backup[j].value, due) ==> Fresh(r, due))
    ensures Sound(active, backup[j := Some(r)]) && KeepsGood(active + backup, active + backup[j := Some(r)], due)
  {
    JoinedBackup(active, backup, j, Some(r));
    InPlace(active + backup, |active| + j, r, due);
  }

  lemma Updated(active: Slots, backup: Slots, i: nat, n: Node, now: real)
    requires Sound(active, backup) && (HasRoom(active) ==> NoneReady(backup, |backup|)) && i < |active|
    requires active[i].Some? && active[i].value.key == n.key
    ensures var (r, ok) := UpdateValue(active[i].value, n);
            && Sound(active[i := Some(r)], backup) && (HasRoom(active[i := Some(r)]) ==> NoneReady(backup, |backup|))
            && KeepsGood(active + backup, active[i := Some(r)] + backup, When(now, false))
            && Has(active + backup, n.key) && RefreshedBy(active + backup, active[i := Some(r)] + backup, n, ok)
  {
    var (r, ok) := UpdateValue(active[i].value, n);
    JoinedActive(active, backup, i, Some(r));
    assert TimesOk((active + backup)[i].value) && Ready(active[i].value);
    InActive(active, backup, i, r, When(now, false));
  }

  lemma UpdatedBackup(active: Slots, backup: Slots, j: nat, n: Node, now: real)
    requires Sound(active, backup) && (HasRoom(active) ==> NoneReady(backup, |backup|)) && j < |backup|
    requires backup[j].Some? && backup[j].value.key == n.key
    ensures var (r, ok) := UpdateValue(backup[j].value, n);
            && Sound(active, backup[j := Some(r)]) && (HasRoom(active) ==> NoneReady(backup[j := Some(r)], |backup|))
            && KeepsGood(active + backup, active + backup[j := Some(r)], When(now, false))
            && Has(active + backup, n.key) && RefreshedBy(active + backup, active + backup[j := Some(r)], n, ok)
  {
    var (r, ok) := UpdateValue(backup[j].value, n);
    JoinedBackup(active, backup, j, Some(r));
    assert TimesOk((active + backup)[|active| + j].value);
    InBackup(active, backup, j, r, When(now, false));
  }

  lemma Placed(active: Slots, backup: Slots, j: nat, r: Remote, now: real)
    requires Sound(active, backup) && (HasRoom(active) ==> NoneReady(backup, |backup|)) && j < |backup|
    requires IsPlace(backup[j], now)
    requires !Has(active + backup, r.key) && TimesOk(r) && !Ready(r)
    ensures var backup' := backup[j := Some(r)];
            && Sound(active, backup') && (HasRoom(active) ==> NoneReady(backup', |backup'|))
            && KeepsGood(active + backup, active + backup', When(now, false)) && Has(active + backup', r.key)
  {
    var i := |active| + j;
    JoinedBackup(active, backup, j, Some(r));
    WriteKeeps(active + backup, i, Some(r));
    WriteKeepsGood(active + backup, i, Some(r), When(now, false));
    assert (active + backup[j := Some(r)])[i] == Some(r);
  }

  /** The first empty slot. */
  ghost predicate FirstEmpty(slots: Slots, p: nat) {
    p < |slots| && slots[p].None? && forall i | 0 <= i < p :: slots[i].Some?
  }

  lemma KeepsChain(a: Slots, b: Slots, c: Slots, due: When)
    requires KeepsGood(a, b, due) && KeepsGood(b, c, due)
    ensures KeepsGood(a, c, due)
  {
  }

  lemma GoodStays(a: Slots, b: Slots, key: Key, due: When)
    requires KeepsGood(a, b, due) && HasGood(a, key, due)
    ensures HasGood(b, key, due)
  {
  }

  lemma Promoted(active: Slots, backup: Slots, j: nat, p: nat, due: When)
    requires Sound(active, backup) && j < |backup| && backup[j].Some? && Ready(backup[j].value)
    requires p < |active| && active[p].None?
    ensures Sound(active[p := backup[j]], backup[j := None])
    ensures KeepsGood(active + backup, active[p := backup[j]] + backup[j := None], due)
  {
    hide Distinct, Times, KeepsGood;
    var all := active + backup;
    JoinedActive(active, backup, p, backup[j]);
    JoinedBackup(active[p := backup[j]], backup, j, None);
    JoinedBackup(active, backup, j, None);
    MoveKeeps(all, |active| + j, p);
    MoveKeepsGood(all, |active| + j, p, due);
  }

  lemma Demoted(active: Slots, backup: Slots, i: nat, j: nat, now: real)
    requires i < |active| && active[i].Some? && j < |backup| && IsPlace(backup[j], now)
    requires Distinct(active + backup) && Times(active + backup) && AllReady(active[i := None])
    ensures Sound(active[i := None], backup[j := active[i]])
    ensures KeepsGood(active + backup, active[i := None] + backup[j := active[i]], When(now, true))
  {
    hide Distinct, Times, KeepsGood;
    var all := active + backup;
    JoinedActive(active, backup, i, None);
    JoinedBackup(active, backup, j, active[i]);
    JoinedBackup(active[i := None], backup, j, active[i]);
    assert all[|active| + j := all[i]][i := None] == all[i := None][|active| + j := all[i]];
    MoveKeeps(all, i, |active| + j);
    MoveKeepsGood(all, i, |active| + j, When(now, true));
  }

  lemma Dropped(active: Slots, backup: Slots, i: nat, now: real)
    requires i < |active| && active[i].Some? && active[i].value.readyFrom == 0.0 && active[i].value.failedFrom == now
    requires Distinct(active + backup) && Times(active + backup) && AllReady(active[i := None])
    ensures Sound(active[i := None], backup)
    ensures KeepsGood(active + backup, active[i := None] + backup, When(now, true))
  {
    JoinedActive(active, backup, i, None);
    WriteKeeps(active + backup, i, None);
    WriteKeepsGood(active + backup, i, None, When(now, true));
  }

  lemma Answered(active: Slots, backup: Slots, i: nat, n: Node, now: real)
    requires Sound(active, backup) && (HasRoom(active) ==> NoneReady(backup, |backup|)) && now > 0.0
    requires i < |active| && active[i].Some? && active[i].value.key == n.key
    ensures var r := ReceivePing(active[i].value, n, now);
            && Sound(active[i := Some(r)], backup) && (HasRoom(active[i := Some(r)]) ==> NoneReady(backup, |backup|))
            && KeepsGood(active + backup, active[i := Some(r)] + backup, When(now, false))
            && HasGood(active[i := Some(r)] + backup, n.key, When(now, false)) && Has(active + backup, n.key)
  {
    var r := ReceivePing(active[i].value, n, now);
    JoinedActive(active, backup, i, Some(r));
    InActive(active, backup, i, r, When(now, false));
    assert (active[i := Some(r)] + backup)[i] == Some(r);
  }

  lemma AnsweredBackup(active: Slots, backup: Slots, j: nat, n: Node, now: real)
    requires Sound(active, backup) && now > 0.0 && j < |backup| && backup[j].Some? && backup[j].value.key == n.key
    ensures var r := ReceivePing(backup[j].value, n, now);
            && Sound(active, backup[j := Some(r)]) && Has(active + backup, n.key)
            && KeepsGood(active + backup, active + backup[j := Some(r)], When(now, false))
            && (n.signed ==> Ready(r)) && (Ready(r) ==> HasGood(active + backup[j := Some(r)], n.key, When(now, false)))
            && (!Ready(r) ==> !Ready(backup[j].value))
  {
    var r := ReceivePing(backup[j].value, n, now);
    JoinedBackup(active, backup, j, Some(r));
    assert TimesOk((active + backup)[|active| + j].value);
    InBackup(active, backup, j, r, When(now, false));
    assert (active + backup[j := Some(r)])[|active| + j] == Some(r);
  }

  /** The node of `n` is now as an answer to a ping makes it. */
  ghost predicate AnsweredBy(all: Slots, all': Slots, n: Node, now: real) {
    exists i, j :: 0 <= i < |all| && 0 <= j < |all'| && all[i].Some? && all[i].value.key == n.key &&
      all'[j].Some? && Replied(all[i].value, all'[j].value, n, now)
  }

  /** The nodes with other keys are the same. */
  ghost predicate OthersStay(all: Slots, all': Slots, key: Key) {
    && (forall i | 0 <= i < |all| && all[i].Some? && all[i].value.key != key :: all[i] in all')
    && (forall i | 0 <= i < |all'| && all'[i].Some? && all'[i].value.key != key :: all'[i] in all)
  }

  lemma OthersWrite(all: Slots, i: nat, s: Option<Remote>, key: Key)
    requires i < |all| && (all[i].Some? ==> all[i].value.key == key) && (s.Some? ==> s.value.key == key)
    ensures OthersStay(all, all[i := s], key)
  {
    forall m | 0 <= m < |all| && all[m].Some? && all[m].value.key != key ensures all[m] in all[i := s] {
      assert all[i := s][m] == all[m];
    }
  }

  lemma OthersChain(a: Slots, b: Slots, c: Slots, key: Key)
    requires OthersStay(a, b, key) && OthersStay(b, c, key)
    ensures OthersStay(a, c, key)
  {
  }

  lemma AnswerSeen(active: Slots, backup: Slots, active': Slots, backup': Slots, n: Node, now: real, i: nat, j: nat)
    requires i < |active + backup| && j < |active' + backup'| && (active + backup)[i].Some?
    requires (active + backup)[i].value.key == n.key
    requires (active' + backup')[j] == Some(ReceivePing((active + backup)[i].value, n, now))
    requires (j < |active + backup| && active' + backup' == (active + backup)[j := (active' + backup')[j]] && i == j)
             || OthersStay(active + backup, active' + backup', n.key)
    ensures AnsweredBy(active + backup, active' + backup', n, now)
    ensures OthersStay(active + backup, active' + backup', n.key)
  {
    NodeSteps((active + backup)[i].value, n, now);
    if j < |active + backup| && active' + backup' == (active + backup)[j := (active' + backup')[j]] && i == j {
      OthersWrite(active + backup, j, (active' + backup')[j], n.key);
    }
  }

  lemma PromotedAnswer(active0: Slots, backup0: Slots, active: Slots, backup: Slots, n: Node, now: real, j: nat)
    requires j < |backup0| == |backup| && |active| == |active0| && backup0[j].Some? && backup0[j].value.key == n.key
    requires var s := Some(ReceivePing(backup0[j].value, n, now));
             || (exists p: nat :: FirstEmpty(active0, p) && active == active0[p := s] && backup == backup0[j := None])
             || (active == active0 && backup == backup0[j := s])
    ensures AnsweredBy(active0 + backup0, active + backup, n, now)
    ensures OthersStay(active0 + backup0, active + backup, n.key)
  {
    var s := Some(ReceivePing(backup0[j].value, n, now));
    JoinedBackup(active0, backup0, j, s);
    if active == active0 && backup == backup0[j := s] {
      AnswerSeen(active0, backup0, active, backup, n, now, |active0| + j, |active| + j);
    } else {
      var p: nat :| FirstEmpty(active0, p) && active == active0[p := s] && backup == backup0[j := None];
      JoinedBackup(active0, backup0, j, None);
      JoinedActive(active0, backup, p, s);
      OthersWrite(active0 + backup0, |active0| + j, None, n.key);
      OthersWrite(active0 + backup, p, s, n.key);
      OthersChain(active0 + backup0, active0 + backup, active + backup, n.key);
      AnswerSeen(active0, backup0, active, backup, n, now, |active0| + j, p);
    }
  }

  /** After a promotion there is no ready backup node if there still is room. */
  lemma PromotedRoom(active0: Slots, backup0: Slots, active: Slots, backup: Slots, j: nat)
    requires HasRoom(active0) ==> NoneReady(backup0, |backup0|)
    requires j < |backup0| == |backup| && forall i | 0 <= i < |backup| && i != j :: backup[i] == backup0[i]
    requires HasRoom(active0) ==> backup[j].None?
    requires !HasRoom(active0) ==> active == active0
    ensures HasRoom(active) ==> NoneReady(backup, |backup|)
  {
  }

  lemma StillNotReady(active: Slots, backup0: Slots, backup: Slots, j: nat)
    requires HasRoom(active) ==> NoneReady(backup0, |backup0|)
    requires j < |backup0| == |backup| && backup == backup0[j := backup[j]] && backup[j].Some?
    requires !Ready(backup[j].value)
    ensures HasRoom(active) ==> NoneReady(backup, |backup|)
  {
  }

  lemma Pinged(active: Slots, backup: Slots, i: nat, now: real)
    requires Sound(active, backup) && now > 0.0 && i < |active| && active[i].Some?
    requires now - active[i].value.lastPing > PING_TIMEOUT
    ensures var r := SendPing(active[i].value, now);
            && Distinct(active[i := Some(r)] + backup) && Times(active[i := Some(r)] + backup)
            && AllReady(active[i := Some(r)][i := None]) && (r.readyFrom != 0.0 ==> AllReady(active[i := Some(r)]))
            && KeepsGood(active + backup, active[i := Some(r)] + backup, When(now, true))
            && (r.readyFrom == 0.0 ==> r.failedFrom == now)
  {
    var r := SendPing(active[i].value, now);
    JoinedActive(active, backup, i, Some(r));
    assert TimesOk((active + backup)[i].value);
    InPlace(active + backup, i, r, When(now, true));
  }

  lemma PingedBackup(active: Slots, backup: Slots, j: nat, now: real)
    requires Sound(active, backup) && now > 0.0 && j < |backup| && backup[j].Some?
    requires now - backup[j].value.lastPing > PING_TIMEOUT
    ensures var r := SendPing(backup[j].value, now);
            && Sound(active, backup[j := Some(r)]) &&
               KeepsGood(active + backup, active + backup[j := Some(r)], When(now, true))
  {
    var r := SendPing(backup[j].value, now);
    JoinedBackup(active, backup, j, Some(r));
    assert TimesOk((active + backup)[|active| + j].value);
    InBackup(active, backup, j, r, When(now, true));
  }

  /** All nodes of `all'` were in `all`. */
  ghost predicate Within(all': Slots, all: Slots) {
    forall i | 0 <= i < |all'| && all'[i].Some? :: all'[i] in all
  }

  /** No node among the first `n` is due for a ping. */
  ghost predicate NoneDue(slots: Slots, now: real, n: nat) {
    forall i | 0 <= i < n && i < |slots| && slots[i].Some? :: now - slots[i].value.lastPing <= 60.0
  }

  /** Every node is as it was, or it was due and has been pinged once. */
  ghost predicate PingedFrom(all: Slots, all': Slots, now: real) {
    forall i | 0 <= i < |all'| && all'[i].Some? :: PingedOnce(all, all'[i].value, now)
  }

  ghost predicate PingedOnce(all: Slots, r': Remote, now: real) {
    Some(r') in all || exists r :: Some(r) in all && now - r.lastPing > 60.0 && Aged(r, r', now)
  }

  /** What a check does: then nothing is due, and every node is as it was or has been pinged once. */
  ghost predicate Checked(all: Slots, active': Slots, backup': Slots, now: real) {
    && NoneDue(active', now, |active'|) && NoneDue(backup', now, |backup'|)
    && PingedFrom(all, active' + backup', now)
  }

  lemma PingedNone(all: Slots, now: real)
    ensures PingedFrom(all, all, now)
  {
  }

  lemma PingedAt(a: Slots, b: Slots, i: nat, now: real)
    requires PingedFrom(a, b, now) && i < |b| && b[i].Some? && now - b[i].value.lastPing > PING_TIMEOUT
    ensures PingedFrom(a, b[i := Some(SendPing(b[i].value, now))], now)
  {
    assert PingedOnce(a, b[i].value, now);
    NodeSteps(b[i].value, Node(b[i].value.key, 0, false), now);
    forall j | 0 <= j < |b| && j != i && b[j].Some? ensures PingedOnce(a, b[j].value, now) { }
  }

  lemma PingedWithin(a: Slots, b: Slots, c: Slots, now: real)
    requires PingedFrom(a, b, now) && Within(c, b)
    ensures PingedFrom(a, c, now)
  {
    forall i | 0 <= i < |c| && c[i].Some? ensures PingedOnce(a, c[i].value, now) {
      var j :| 0 <= j < |b| && b[j] == c[i];
    }
  }

  lemma MovedWithin(all: Slots, i: nat, j: nat)
    requires i < |all| && j < |all|
    ensures Within(all[j := all[i]][i := None], all) && Within(all[i := None], all) && Within(all, all)
  {
  }

  lemma PingedNow(r: Remote, now: real)
    ensures SendPing(r, now).lastPing == now
  {
  }

  /** The number of empty slots. */
  function Empty(slots: Slots): nat {
    if slots == [] then 0 else Empty(slots[..|slots| - 1]) + if slots[|slots| - 1].None? then 1 else 0
  }

  lemma EmptyNext(active0: Slots, active: Slots, i: nat)
    requires i < |active| == |active0| && active == active0[i := active[i]]
    ensures active[..i] == active0[..i]
    ensures Empty(active[..i + 1]) == Empty(active0[..i]) + if active[i].None? then 1 else 0
  {
    assert active[..i + 1][..i] == active[..i];
  }

  lemma {:induction false} EmptyMeans(slots: Slots)
    ensures Empty(slots) > 0 <==> HasRoom(slots)
  {
    if slots != [] {
      var n := |slots| - 1;
      EmptyMeans(slots[..n]);
      if HasRoom(slots[..n]) {
        var i :| 0 <= i < n && slots[..n][i].None?;
        assert slots[i].None?;
      }
      if HasRoom(slots) && slots[n].Some? {
        var i :| 0 <= i < |slots| && slots[i].None?;
        assert slots[..n][i].None?;
      }
    }
  }

  lemma {:induction false} FilledOne(slots: Slots, p: nat, s: Option<Remote>)
    requires p < |slots| && slots[p].None? && s.Some?
    ensures Empty(slots[p := s]) == Empty(slots) - 1
  {
    var n := |slots| - 1;
    if p == n {
      assert slots[p := s][..n] == slots[..n];
    } else {
      FilledOne(slots[..n], p, s);
      assert slots[p := s][..n] == slots[..n][p := s];
    }
  }

  lemma Filled(slots: Slots, slots': Slots, s: Option<Remote>)
    requires s.Some? && exists p: nat :: FirstEmpty(slots, p) && slots' == slots[p := s]
    ensures Empty(slots') == Empty(slots) - 1
  {
    var p: nat :| FirstEmpty(slots, p) && slots' == slots[p := s];
    FilledOne(slots, p, s);
  }

  // ---------------------------------------------------------------- a node that does not answer

  /** The node is held, whatever its version. */
  ghost predicate Held(all: Slots, r: Remote) {
    exists i :: 0 <= i < |all| && all[i].Some? && all[i].value == r.(version := all[i].value.version)
  }

  /** A check pings the node if the last ping is more than a minute ago, and leaves it alone if not. */
  ghost predicate Passed(r: Remote, r': Remote, now: real) {
    if now - r.lastPing > 60.0 then Aged(r.(version := r'.version), r', now) else r' == r.(version := r'.version)
  }

  lemma CheckedNode(active: Slots, backup: Slots, active': Slots, backup': Slots, r: Remote, r': Remote, now: real)
    requires Sound(active, backup) && Checked(active + backup, active', backup', now)
    requires r.key == r'.key && Held(active + backup, r) && Held(active' + backup', r')
    ensures Passed(r, r', now)
  {
    var all, all' := active + backup, active' + backup';
    var i :| 0 <= i < |all| && all[i].Some? && all[i].value == r.(version := all[i].value.version);
    var j :| 0 <= j < |all'| && all'[j].Some? && all'[j].value == r'.(version := all'[j].value.version);
    assert PingedOnce(all, all'[j].value, now);
    assert now - all'[j].value.lastPing <= 60.0;
    forall s | Some(s) in all && s.key == r.key ensures s == all[i].value {
    }
  }

  /** One check, from the slots before it to those after it. */
  datatype Round = Round(active: Slots, backup: Slots, active': Slots, backup': Slots, now: real)

  /**
    Checks, between which the node with the records `rs` gives no answer: it is `rs[i]` before and `rs[i + 1]` after
    the `i`-th. Other operations may come between the checks.
   */
  ghost predicate Silence(rounds: seq<Round>, rs: seq<Remote>) {
    && |rs| == |rounds| + 1
    && (forall i | 0 <= i < |rs| :: rs[i].key == rs[0].key)
    && forall i | 0 <= i < |rounds| :: SilentRound(rounds[i], rs, i)
  }

  ghost predicate SilentRound(c: Round, rs: seq<Remote>, i: nat) {
    && i + 1 < |rs| && Sound(c.active, c.backup) && Sound(c.active', c.backup')
    && Checked(c.active + c.backup, c.active', c.backup', c.now)
    && Held(c.active + c.backup, rs[i]) && Held(c.active' + c.backup', rs[i + 1])
  }

  /** The number of checks that find the node due for a ping. */
  ghost function Pings(rounds: seq<Round>, rs: seq<Remote>): nat
    requires |rs| > |rounds|
  {
    if rounds == [] then 0
    else var n := |rounds| - 1;
         Pings(rounds[..n], rs[..n + 1]) + if rounds[n].now - rs[n].lastPing > 60.0 then 1 else 0
  }

  /** The check sends the ping that is one too many. */
  ghost predicate FailsAt(c: Round, r: Remote) {
    c.now - r.lastPing > 60.0 && r.missed == 3
  }

  /**
    A node that does not answer: every ping adds one to its count. Up to three it is as ready as it was. From the
    fourth it is not ready, its time of failure is that of the ping that brought it there, and no active slot has it.
   */
  lemma {:induction false} SilentNode(rounds: seq<Round>, rs: seq<Remote>)
    requires Silence(rounds, rs) && TimesOk(rs[0])
    ensures TimesOk(rs[|rounds|]) && rs[|rounds|].missed == rs[0].missed + Pings(rounds, rs)
    ensures rs[|rounds|].missed <= 3 ==>
              rs[|rounds|].readyFrom == rs[0].readyFrom && rs[|rounds|].failedFrom == rs[0].failedFrom
    ensures rs[0].readyFrom > 0.0 && rs[|rounds|].missed > 3 ==>
              exists k :: 0 <= k < |rounds| && FailsAt(rounds[k], rs[k]) && rs[|rounds|].failedFrom == rounds[k].now
    ensures rs[|rounds|].missed > 3 ==> rs[|rounds|].readyFrom == 0.0
    ensures rounds != [] && rs[|rounds|].missed > 3 ==> !Has(rounds[|rounds| - 1].active', rs[0].key)
  {
    hide Sound, Checked, Held, Has;
    if rounds != [] {
      var n := |rounds| - 1;
      var c, before, rs' := rounds[n], rounds[..n], rs[..n + 1];
      assert SilentRound(c, rs, n);
      assert Silence(before, rs') by {
        forall i | 0 <= i < n ensures SilentRound(before[i], rs', i) {
          assert SilentRound(rounds[i], rs, i);
        }
      }
      SilentNode(before, rs');
      CheckedNode(c.active, c.backup, c.active', c.backup', rs[n], rs[n + 1], c.now);
      if rs[0].readyFrom > 0.0 && rs[n].missed > 3 {
        var k :| 0 <= k < |before| && FailsAt(before[k], rs'[k]) && rs'[n].failedFrom == before[k].now;
        assert FailsAt(rounds[k], rs[k]);
      }
      if rs[n + 1].missed > 3 {
        NotActive(c.active', c.backup', rs[n + 1]);
      }
    }
  }

  lemma NotActive(active: Slots, backup: Slots, r: Remote)
    requires Sound(active, backup) && Held(active + backup, r) && r.readyFrom == 0.0
    ensures !Has(active, r.key)
  {
    var all := active + backup;
    var i :| 0 <= i < |all| && all[i].Some? && all[i].value == r.(version := all[i].value.version);
    forall j | 0 <= j < |active| && active[j].Some? ensures active[j].value.key != r.key {
      assert all[j] == active[j];
    }
  }

  // ---------------------------------------------------------------- the table

  /** The active slots as the search for the nearest nodes sees them. */
  function View(active: Slots): (v: N.Slots)
    ensures |v| == |active|
    ensures forall i | 0 <= i < |active| :: v[i] == if active[i].Some? then Some(active[i].value.key) else None
  {
    if active == [] then [] else [if active[0].Some? then Some(active[0].value.key) else None] + View(active[1..])
  }

  /** Buckets in which every key is where it belongs are a table for the search. */
  lemma BucketsAreTable(self: Key, actives: seq<Slots>, backups: seq<Slots>, views: seq<N.Slots>)
    requires |actives| == |backups| == |views| == |self|
    requires forall b | 0 <= b < |self| :: Sound(actives[b], backups[b]) && views[b] == View(actives[b])
    requires forall b, i | 0 <= b < |self| && 0 <= i < |actives[b]| && actives[b][i].Some? ::
               InBucket(self, b, actives[b][i].value.key)
    ensures N.TableOk(self, views)
  {
    forall b | 0 <= b < |self|
      ensures N.EachOnce(views[b]) && forall x | x in N.Keys(views[b]) :: InBucket(self, b, x) {
      assert Sound(actives[b], backups[b]) && views[b] == View(actives[b]);
      forall i, j | 0 <= i < j < |views[b]| && views[b][i].Some? && views[b][j].Some?
        ensures views[b][i].value != views[b][j].value {
        assert (actives[b] + backups[b])[i] == actives[b][i] && (actives[b] + backups[b])[j] == actives[b][j];
      }
      forall x | x in N.Keys(views[b]) ensures InBucket(self, b, x) {
        var i :| 0 <= i < |views[b]| && views[b][i] == Some(x);
        assert actives[b][i].Some? && actives[b][i].value.key == x;
      }
    }
  }
}
