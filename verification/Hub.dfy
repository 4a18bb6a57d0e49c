/** Phone connections and their pending acks (server/crates/dialf/src/hub.rs).

    `Shared` is what the hub's locks and counters guard; class `Hub` holds it, with one method per
    critical section. `System` adds the tasks that run between those sections: registrations,
    incoming acks and commands. A `Step` is one section of one task, so a run is any interleaving. */
module Hub {
  import opened Seqs

  type Device = string
  type Gen = nat
  type CmdId = nat
  type PhoneResult = Result<(), string>

  /** What a command's one-shot channel can carry, and who put it there. */
  datatype Verdict = FromPhone(result: PhoneResult) | Superseded | Disconnected

  /** The pending-ack map of every connection is `acks[gen]`; `sent` is what one-shot senders sent. */
  datatype Shared = Shared(conns: map<Device, Gen>, acks: map<Gen, set<CmdId>>, sent: map<CmdId, Verdict>,
                           seq_: nat, connGen: nat)

  function Start(): Shared { Shared(map[], map[], map[], 1, 1) }

  function Acks(h: Shared, g: Gen): set<CmdId> { if g in h.acks then h.acks[g] else {} }

  function Emptied(h: Shared, g: Gen): Shared { h.(acks := h.acks[g := {}]) }

  /** The same verdict for all of them. */
  function ForAll(cs: set<CmdId>, v: Verdict): map<CmdId, Verdict> { map c | c in cs :: v }

  /** Fail everything pending on a connection. */
  function Drained(h: Shared, g: Gen, v: Verdict): Shared {
    Emptied(h, g).(sent := h.sent + ForAll(Acks(h, g), v))
  }

  function Inserted(h: Shared, dev: Device, g: Gen): Shared {
    h.(conns := h.conns[dev := g], acks := h.acks[g := {}])
  }

  function Current(h: Shared, dev: Device): Option<Gen> {
    if dev in h.conns then Some(h.conns[dev]) else None
  }

  /** The device's connection leaves the map and its pending acks fail. */
  function Removed(h: Shared, dev: Device): Shared
    requires dev in h.conns
  {
    Drained(h.(conns := h.conns - {dev}), h.conns[dev], Disconnected)
  }

  function Unregistered(h: Shared, dev: Device, g: Gen): Shared {
    if Current(h, dev) == Some(g) then Removed(h, dev) else h
  }

  function Dropped(h: Shared, dev: Device): Shared {
    if dev in h.conns then Removed(h, dev) else h
  }

  function Without(h: Shared, g: Gen, c: CmdId): Shared { h.(acks := h.acks[g := Acks(h, g) - {c}]) }

  function With(h: Shared, g: Gen, c: CmdId): Shared { h.(acks := h.acks[g := Acks(h, g) + {c}]) }

  function Sent(h: Shared, c: CmdId, v: Verdict): Shared { h.(sent := h.sent[c := v]) }

  /** A new connection for the device, and the one it supersedes fails its waiters. */
  function Superseding(h: Shared, dev: Device): Shared {
    var inserted := Inserted(h.(connGen := h.connGen + 1), dev, h.connGen);
    if dev in h.conns then Drained(inserted, h.conns[dev], Superseded) else inserted
  }

  predicate Awaited(h: Shared, dev: Device, c: CmdId) { dev in h.conns && c in Acks(h, h.conns[dev]) }

  function Resolved(h: Shared, dev: Device, c: CmdId, r: PhoneResult): Shared {
    if Awaited(h, dev, c) then Sent(Without(h, h.conns[dev], c), c, FromPhone(r)) else h
  }

  function Started(h: Shared, dev: Device): Shared {
    if dev in h.conns then With(h.(seq_ := h.seq_ + 1), h.conns[dev], h.seq_) else h
  }

  // ---- the hub itself ------------------------------------------------------------------------

  class Hub {
    var conns: map<Device, Gen>
    var acks: map<Gen, set<CmdId>>
    var sent: map<CmdId, Verdict>
    var seq_: nat
    var connGen: nat

    ghost function View(): Shared
      reads this
    {
      Shared(conns, acks, sent, seq_, connGen)
    }

    constructor ()
      ensures View() == Start()
    {
      conns, acks, sent, seq_, connGen := map[], map[], map[], 1, 1;
    }

    method FetchGen() returns (g: Gen)
      modifies this`connGen
      ensures g == old(connGen) && View() == old(View()).(connGen := old(connGen) + 1)
    {
      g, connGen := connGen, connGen + 1;
    }

    method NextCmdId() returns (c: CmdId)
      modifies this`seq_
      ensures c == old(seq_) && View() == old(View()).(seq_ := old(seq_) + 1)
    {
      c, seq_ := seq_, seq_ + 1;
    }

    method InsertConn(dev: Device, g: Gen) returns (prev: Option<Gen>)
      modifies this`conns, this`acks
      ensures View() == Inserted(old(View()), dev, g) && prev == Current(old(View()), dev)
    {
      prev := if dev in conns then Some(conns[dev]) else None;
      conns, acks := conns[dev := g], acks[g := {}];
    }

    method Drain(g: Gen, v: Verdict)
      requires g in acks
      modifies this`acks, this`sent
      ensures View() == Drained(old(View()), g, v)
    {
      var pending := acks[g];
      acks := acks[g := {}];
      while pending != {}
        invariant pending <= old(acks)[g]
        invariant sent == old(sent) + ForAll(old(acks)[g] - pending, v)
        invariant conns == old(conns) && acks == old(acks)[g := {}] && seq_ == old(seq_) && connGen == old(connGen)
        decreases pending
      {
        var c :| c in pending;
        sent, pending := sent[c := v], pending - {c};
      }
      assert old(acks)[g] - {} == old(acks)[g];
    }

    /** The device's connection g is gone, every waiter on it has been told so, and nothing else has changed. */
    twostate predicate Left(dev: Device, g: Gen)
      reads this
    {
      && dev in old(conns) && old(conns)[dev] == g && g in old(acks)
      && dev !in conns && (forall d :: d != dev ==> (d in conns <==> d in old(conns)))
      && (forall d :: d in conns ==> conns[d] == old(conns)[d])
      && acks.Keys == old(acks).Keys && acks[g] == {} && (forall k :: k in acks && k != g ==> acks[k] == old(acks)[k])
      && (forall c :: c in old(acks)[g] ==> c in sent && sent[c] == Disconnected)
      && (forall c :: c !in old(acks)[g] ==> (c in sent <==> c in old(sent)))
      && (forall c :: c in sent && c !in old(acks)[g] ==> sent[c] == old(sent)[c])
      && seq_ == old(seq_) && connGen == old(connGen)
    }

    method Unregister(dev: Device, g: Gen) returns (removed: bool)
      requires dev in conns ==> conns[dev] in acks
      modifies this`conns, this`acks, this`sent
      ensures View() == Unregistered(old(View()), dev, g) && removed == (dev in old(conns) && old(conns)[dev] == g)
      ensures if removed then Left(dev, g) else View() == old(View())
    {
      if dev in conns && conns[dev] == g {
        conns := conns - {dev};
        Drain(g, Disconnected);
        return true;
      }
      return false;
    }

    method DropDevice(dev: Device)
      requires dev in conns ==> conns[dev] in acks
      modifies this`conns, this`acks, this`sent
      ensures View() == Dropped(old(View()), dev)
      ensures if dev in old(conns) then Left(dev, old(conns)[dev]) else View() == old(View())
    {
      if dev in conns {
        var g := conns[dev];
        conns := conns - {dev};
        Drain(g, Disconnected);
      }
    }

    method TakeAck(g: Gen, c: CmdId) returns (found: bool)
      requires g in acks
      modifies this`acks
      ensures View() == Without(old(View()), g, c) && found == (c in old(acks)[g])
    {
      found := c in acks[g];
      acks := acks[g := acks[g] - {c}];
    }

    method AddAck(g: Gen, c: CmdId)
      requires g in acks
      modifies this`acks
      ensures View() == With(old(View()), g, c)
    {
      acks := acks[g := acks[g] + {c}];
    }

    method SendOn(c: CmdId, v: Verdict)
      modifies this`sent
      ensures View() == Sent(old(View()), c, v)
    {
      sent := sent[c := v];
    }

    // The hub's calls, each as one task that nothing interrupts.

    /** Every connection has its ack map, under a generation handed out already. */
    ghost predicate Linked()
      reads this
    {
      (forall d :: d in conns ==> conns[d] in acks) && (forall g :: g in acks ==> g < connGen)
    }

    /** The device gets a new connection without waiters; the waiters of the one it supersedes all fail,
        and nobody else's do. */
    method Register(dev: Device) returns (g: Gen)
      requires Linked()
      modifies this
      ensures View() == Superseding(old(View()), dev)
      ensures Linked() && conns == old(conns)[dev := g] && g !in old(acks) && g in acks && acks[g] == {}
      ensures seq_ == old(seq_)
      ensures var prev := Current(old(View()), dev);
        var failed := if prev.Some? then Acks(old(View()), prev.value) else {};
        && (forall k :: k in old(acks) ==> k in acks && acks[k] == if Some(k) == prev then {} else old(acks)[k])
        && sent == old(sent) + ForAll(failed, Superseded)
    {
      g := FetchGen();
      var prev := InsertConn(dev, g);
      if prev.Some? {
        Drain(prev.value, Superseded);
      }
    }

    /** An ack reaches the waiter of its own id on the device's current connection, takes it out and
        gives it the phone's word; an ack for anything else changes nothing. */
    method ResolveAck(dev: Device, c: CmdId, r: PhoneResult) returns (found: bool)
      requires Linked()
      modifies this`acks, this`sent
      ensures View() == Resolved(old(View()), dev, c, r)
      ensures Linked() && (found <==> dev in conns && c in old(acks)[conns[dev]])
      ensures if found then
                acks == old(acks)[conns[dev] := old(acks)[conns[dev]] - {c}] && sent == old(sent)[c := FromPhone(r)]
              else acks == old(acks) && sent == old(sent)
    {
      if dev !in conns {
        return false;
      }
      found := TakeAck(conns[dev], c);
      if found {
        SendOn(c, FromPhone(r));
      } else {
        assert acks[conns[dev]] == old(acks)[conns[dev]];
        assert acks == old(acks);
      }
    }

    /** A command gets an id never given before, and waits on the device's current connection. */
    method StartCommand(dev: Device) returns (c: Option<CmdId>)
      requires Linked()
      modifies this`acks, this`seq_
      ensures View() == Started(old(View()), dev)
      ensures Linked() && (c.None? <==> dev !in conns)
      ensures c.None? ==> View() == old(View())
      ensures c.Some? ==>
        c.value == old(seq_) < seq_ && acks == old(acks)[conns[dev] := old(acks)[conns[dev]] + {c.value}]
    {
      if dev !in conns {
        return None;
      }
      var g := conns[dev];
      var id := NextCmdId();
      AddAck(g, id);
      return Some(id);
    }
  }

  // ---- tasks between the critical sections ---------------------------------------------------

  datatype Reply = SendFailed | TimedOut | Got(v: Verdict)

  /** How far a command with an id has come. */
  datatype Phase = Fresh | Pending | Waiting | GivingUp(reply: Reply) | Returned(reply: Reply)

  datatype Command = Command(gen: Gen, phase: Phase)

  /** An ack being handled, past its lookup: the connection it found, and what it says. */
  datatype Lookup = Lookup(gen: Gen, id: CmdId, result: PhoneResult)

  datatype System = System(
    hub: Shared,
    fetched: map<Gen, Device>,       // registrations that have a generation and are not in the map yet
    draining: set<Gen>,              // superseded connections whose acks have still to be failed
    looked: map<nat, Lookup>,        // acks past their lookup, by task
    held: map<CmdId, Verdict>,       // senders taken out of an ack map and not used yet
    starting: map<nat, Gen>,         // commands past their lookup without an id, by task
    cmds: map<CmdId, Command>)       // commands by id, for ever

  function Boot(): System { System(Start(), map[], {}, map[], map[], map[], map[]) }

  datatype Event =
    | RegFetch(dev: Device)
    | RegInsert(gen: Gen)
    | RegDrain(gen: Gen)
    | Unregister(dev: Device, gen: Gen)
    | DropDevice(dev: Device)
    | AckLookup(task: nat, dev: Device, id: CmdId, result: PhoneResult)
    | AckTake(task: nat)
    | Send(id: CmdId)
    | CmdLookup(task: nat, dev: Device)
    | CmdFetchId(task: nat)
    | CmdInsert(id: CmdId)
    | CmdSend(id: CmdId, open: bool)
    | CmdReceive(id: CmdId)
    | CmdTimeout(id: CmdId)
    | CmdRemove(id: CmdId)
    | Free(gen: Gen)

  predicate InPhase(s: System, c: CmdId, p: Phase) { c in s.cmds && s.cmds[c].phase == p }

  function To(s: System, c: CmdId, p: Phase): System
    requires c in s.cmds
  {
    s.(cmds := s.cmds[c := s.cmds[c].(phase := p)])
  }

  /** A registration enters the map; the connection it supersedes has still to be drained. */
  function TakesOver(s: System, g: Gen): System
    requires g in s.fetched
  {
    var prev := Current(s.hub, s.fetched[g]);
    s.(hub := Inserted(s.hub, s.fetched[g], g), fetched := s.fetched - {g},
       draining := if prev.Some? then s.draining + {prev.value} else s.draining)
  }

  /** An ack takes the sender it is for, if that is still pending where the lookup found it. */
  function Taken(s: System, t: nat): System
    requires t in s.looked
  {
    var l := s.looked[t];
    s.(looked := s.looked - {t}, hub := Without(s.hub, l.gen, l.id),
       held := if l.id in Acks(s.hub, l.gen) then s.held[l.id := FromPhone(l.result)] else s.held)
  }

  /** A drain takes every sender out of the connection's map at once. What it sends them comes after, one
      by one. */
  function Grabbed(s: System, g: Gen, v: Verdict): System {
    s.(hub := Emptied(s.hub, g), held := s.held + ForAll(Acks(s.hub, g), v))
  }

  function Leaves(s: System, dev: Device): System
    requires dev in s.hub.conns
  {
    Grabbed(s.(hub := s.hub.(conns := s.hub.conns - {dev})), s.hub.conns[dev], Disconnected)
  }

  /** One more sender is used. */
  function Used(s: System, c: CmdId): System {
    if c !in s.held then s else s.(hub := Sent(s.hub, c, s.held[c]), held := s.held - {c})
  }

  function UsedAll(s: System, cs: seq<CmdId>): System {
    if cs == [] then s else Used(UsedAll(s, cs[..|cs| - 1]), cs[|cs| - 1])
  }

  /** A drain of some connection halfway: those senders are used, and the rest in hand. */
  function Halfway(s: System, g: Gen, v: Verdict, used: set<CmdId>): System {
    s.(hub := Emptied(s.hub, g).(sent := s.hub.sent + ForAll(used, v)),
       held := s.held + ForAll(Acks(s.hub, g) - used, v))
  }

  lemma OneMoreInHand(sent: map<CmdId, Verdict>, held: map<CmdId, Verdict>, all: set<CmdId>, used: set<CmdId>, c: CmdId,
                      v: Verdict)
    requires c in all && c !in held
    ensures var waiting := held + ForAll(all - used, v);
      && (c in waiting <==> c !in used) && (c in waiting ==> waiting[c] == v)
      && waiting - {c} == held + ForAll(all - (used + {c}), v)
    ensures (sent + ForAll(used, v))[c := v] == sent + ForAll(used + {c}, v)
  {
  }

  lemma OneMoreUsed(s: System, g: Gen, v: Verdict, used: set<CmdId>, c: CmdId)
    requires c in Acks(s.hub, g) && c !in s.held
    ensures Used(Halfway(s, g, v, used), c) == Halfway(s, g, v, used + {c})
  {
    OneMoreInHand(s.hub.sent, s.held, Acks(s.hub, g), used, c, v);
    if c in used {
      assert used + {c} == used;
    }
  }

  lemma NoneUsed(s: System, g: Gen, v: Verdict)
    ensures Halfway(s, g, v, {}) == Grabbed(s, g, v)
  {
    assert s.hub.sent + ForAll({}, v) == s.hub.sent;
    assert Acks(s.hub, g) - {} == Acks(s.hub, g);
  }

  lemma AllUsed(s: System, g: Gen, v: Verdict)
    ensures Halfway(s, g, v, Acks(s.hub, g)) == s.(hub := Drained(s.hub, g, v))
  {
    assert s.held + ForAll(Acks(s.hub, g) - Acks(s.hub, g), v) == s.held;
  }

  function Those(cs: seq<CmdId>): set<CmdId> { set c | c in cs }

  lemma ThoseSnoc(cs: seq<CmdId>)
    requires cs != []
    ensures Those(cs) == Those(cs[..|cs| - 1]) + {cs[|cs| - 1]}
  {
    assert cs == cs[..|cs| - 1] + [cs[|cs| - 1]];
  }

  lemma {:induction false} UsedSome(s: System, g: Gen, v: Verdict, cs: seq<CmdId>)
    requires Those(cs) <= Acks(s.hub, g) && forall c :: c in Acks(s.hub, g) ==> c !in s.held
    ensures UsedAll(Grabbed(s, g, v), cs) == Halfway(s, g, v, Those(cs))
  {
    if cs == [] {
      NoneUsed(s, g, v);
      assert Those(cs) == {};
    } else {
      var init, c := cs[..|cs| - 1], cs[|cs| - 1];
      ThoseSnoc(cs);
      UsedSome(s, g, v, init);
      OneMoreUsed(s, g, v, Those(init), c);
    }
  }

  /** A drain that nothing interrupts is the hub's own, in whatever order it sends. */
  lemma DrainedOneByOne(s: System, g: Gen, v: Verdict, cs: seq<CmdId>)
    requires Those(cs) == Acks(s.hub, g) && forall c :: c in Acks(s.hub, g) ==> c !in s.held
    ensures UsedAll(Grabbed(s, g, v), cs) == s.(hub := Drained(s.hub, g, v))
  {
    UsedSome(s, g, v, cs);
    AllUsed(s, g, v);
  }

  function Numbered(s: System, t: nat): System
    requires t in s.starting
  {
    s.(hub := s.hub.(seq_ := s.hub.seq_ + 1), starting := s.starting - {t},
       cmds := s.cmds[s.hub.seq_ := Command(s.starting[t], Fresh)])
  }

  predicate IsGivingUp(s: System, c: CmdId) { c in s.cmds && s.cmds[c].phase.GivingUp? }

  /** A command that gave up takes its own waiter out of the connection it went out on. */
  function GivenUp(s: System, c: CmdId): System
    requires IsGivingUp(s, c)
  {
    To(s, c, Returned(s.cmds[c].phase.reply)).(hub := Without(s.hub, s.cmds[c].gen, c))
  }

  /** Somebody holds the connection: the map, a registration that has still to drain it, an ack past its
      lookup, or a command that has not returned. */
  predicate InUse(s: System, g: Gen) {
    || g in s.hub.conns.Values
    || g in s.draining
    || (exists t :: t in s.looked && s.looked[t].gen == g)
    || (exists t :: t in s.starting && s.starting[t] == g)
    || (exists c :: c in s.cmds && !s.cmds[c].phase.Returned? && s.cmds[c].gen == g)
  }

  /** One critical section. An event that its task is not ready for changes nothing. A failed send or a
      fired timer and the removal that follows it are two sections; so are each of a drain's sends. `Free` is the end of
      a connection that nobody holds any more: whatever waits in its ack map is dropped with it. */
  function Step(s: System, e: Event): System {
    match e
    case RegFetch(dev) =>
      s.(hub := s.hub.(connGen := s.hub.connGen + 1), fetched := s.fetched[s.hub.connGen := dev])
    case RegInsert(g) => if g !in s.fetched then s else TakesOver(s, g)
    case RegDrain(g) =>
      if g !in s.draining then s else Grabbed(s, g, Superseded).(draining := s.draining - {g})
    case Unregister(dev, g) => if Current(s.hub, dev) == Some(g) then Leaves(s, dev) else s
    case DropDevice(dev) => if dev in s.hub.conns then Leaves(s, dev) else s
    case AckLookup(t, dev, c, r) =>
      if t in s.looked || dev !in s.hub.conns then s else s.(looked := s.looked[t := Lookup(s.hub.conns[dev], c, r)])
    case AckTake(t) => if t !in s.looked then s else Taken(s, t)
    case Send(c) => Used(s, c)
    case CmdLookup(t, dev) =>
      if t in s.starting || dev !in s.hub.conns then s else s.(starting := s.starting[t := s.hub.conns[dev]])
    case CmdFetchId(t) => if t !in s.starting then s else Numbered(s, t)
    case CmdInsert(c) =>
      if !InPhase(s, c, Fresh) then s else To(s, c, Pending).(hub := With(s.hub, s.cmds[c].gen, c))
    case CmdSend(c, open) =>
      if !InPhase(s, c, Pending) then s
      else if open then To(s, c, Waiting)
      else To(s, c, GivingUp(SendFailed))
    case CmdReceive(c) =>
      if !InPhase(s, c, Waiting) || c !in s.hub.sent then s else To(s, c, Returned(Got(s.hub.sent[c])))
    case CmdTimeout(c) =>
      if !InPhase(s, c, Waiting) || c in s.hub.sent then s else To(s, c, GivingUp(TimedOut))
    case CmdRemove(c) => if !IsGivingUp(s, c) then s else GivenUp(s, c)
    case Free(g) => if InUse(s, g) then s else s.(hub := s.hub.(acks := s.hub.acks - {g}))
  }

  predicate Open(p: Phase) { p == Pending || p == Waiting || p.GivingUp? }

  /** Connections: generations are handed out once, and every one in use has its ack map. */
  ghost predicate GensOk(s: System) {
    && (forall g :: g in s.hub.acks ==> g < s.hub.connGen && g !in s.fetched)
    && (forall g :: g in s.fetched ==> g < s.hub.connGen)
    && (forall d :: d in s.hub.conns ==> s.hub.conns[d] in s.hub.acks)
    && (forall d, e :: d in s.hub.conns && e in s.hub.conns && s.hub.conns[d] == s.hub.conns[e] ==> d == e)
    && (forall g :: g in s.draining ==> g in s.hub.acks && g !in s.hub.conns.Values)
    && (forall t :: t in s.looked ==> s.looked[t].gen in s.hub.acks)
    && (forall t :: t in s.starting ==> s.starting[t] in s.hub.acks)
    && (forall c :: c in s.cmds && !s.cmds[c].phase.Returned? ==> s.cmds[c].gen in s.hub.acks)
  }

  predicate PendingIn(h: Shared, g: Gen, c: CmdId) { c in Acks(h, g) }

  /** One command: the sender of an open command is in its own connection's ack map, in the hands of
      an ack or a drain, or used, and never in two of these places; a returned command's is in no map. */
  ghost predicate IdOk(s: System, c: CmdId) {
    && (forall g :: PendingIn(s.hub, g, c) ==> c in s.cmds && g == s.cmds[c].gen)
    && if c in s.cmds then
         var here, cmd := PendingIn(s.hub, s.cmds[c].gen, c), s.cmds[c];
         && c < s.hub.seq_
         && (here ==> Open(cmd.phase) && c !in s.hub.sent && c !in s.held)
         && (c in s.held ==> cmd.phase != Fresh && c !in s.hub.sent)
         && (c in s.hub.sent ==> cmd.phase != Fresh)
         && (Open(cmd.phase) ==> here || c in s.held || c in s.hub.sent)
         && (cmd.phase.GivingUp? ==> !cmd.phase.reply.Got?)
         && (cmd.phase.Returned? && cmd.phase.reply.Got? ==> c in s.hub.sent && s.hub.sent[c] == cmd.phase.reply.v)
       else c !in s.held && c !in s.hub.sent
  }

  ghost predicate IdsOk(s: System) { forall c :: IdOk(s, c) }

  ghost predicate Inv(s: System) { GensOk(s) && IdsOk(s) }

  // ---- every section keeps the invariant -------------------------------------------------------

  /** A map with some devices removed. */
  ghost predicate Fewer(conns: map<Device, Gen>, all: map<Device, Gen>) {
    forall d :: d in conns ==> d in all && conns[d] == all[d]
  }

  lemma DrainGens(s: System, conns: map<Device, Gen>, draining: set<Gen>, g: Gen, v: Verdict)
    requires GensOk(s) && g in s.hub.acks && Fewer(conns, s.hub.conns) && draining <= s.draining
    ensures GensOk(Grabbed(s.(hub := s.hub.(conns := conns)), g, v).(draining := draining))
  {
    var s' := Grabbed(s.(hub := s.hub.(conns := conns)), g, v).(draining := draining);
    assert s'.hub.acks.Keys == s.hub.acks.Keys;
    forall h | h in draining
      ensures h !in conns.Values
    {
      assert h !in s.hub.conns.Values;
      assert forall d :: d in conns ==> s.hub.conns[d] in s.hub.conns.Values;
    }
  }

  lemma DrainIds(s: System, conns: map<Device, Gen>, draining: set<Gen>, g: Gen, v: Verdict)
    requires IdsOk(s) && g in s.hub.acks
    ensures IdsOk(Grabbed(s.(hub := s.hub.(conns := conns)), g, v).(draining := draining))
  {
    var s' := Grabbed(s.(hub := s.hub.(conns := conns)), g, v).(draining := draining);
    forall c
      ensures IdOk(s', c)
    {
      assert IdOk(s, c);
      assert forall k :: PendingIn(s'.hub, k, c) <==> PendingIn(s.hub, k, c) && k != g;
      assert c in s'.held <==> c in s.held || PendingIn(s.hub, g, c);
    }
  }

  /** Nothing that concerns command c moved. */
  ghost predicate SameFor(s: System, t: System, c: CmdId) {
    && (c in t.cmds <==> c in s.cmds) && (c in s.cmds ==> t.cmds[c] == s.cmds[c])
    && (c in t.hub.sent <==> c in s.hub.sent) && (c in s.hub.sent ==> t.hub.sent[c] == s.hub.sent[c])
    && (c in t.held <==> c in s.held) && s.hub.seq_ <= t.hub.seq_
    && forall k :: PendingIn(t.hub, k, c) <==> PendingIn(s.hub, k, c)
  }

  /** A step that moves one command, and moves it rightly, keeps them all right. */
  lemma OnlyMoves(s: System, t: System, moved: CmdId)
    requires IdsOk(s) && IdOk(t, moved) && forall c :: c != moved ==> SameFor(s, t, c)
    ensures IdsOk(t)
  {
    forall c
      ensures IdOk(t, c)
    {
      assert IdOk(s, c);
      if c != moved {
        assert SameFor(s, t, c);
      }
    }
  }

  lemma NothingMoves(s: System, t: System)
    requires IdsOk(s) && forall c :: SameFor(s, t, c)
    ensures IdsOk(t)
  {
    forall c
      ensures IdOk(t, c)
    {
      assert IdOk(s, c) && SameFor(s, t, c);
    }
  }

  lemma RegistrationKept(s: System, g: Gen)
    requires Inv(s) && g in s.fetched
    ensures Inv(TakesOver(s, g))
  {
    var s' := TakesOver(s, g);
    forall c
      ensures SameFor(s, s', c)
    {
      assert forall k :: PendingIn(s'.hub, k, c) <==> PendingIn(s.hub, k, c);
    }
    NothingMoves(s, s');
    TakeOverGens(s, g);
  }

  lemma TakeOverGens(s: System, g: Gen)
    requires GensOk(s) && g in s.fetched
    ensures GensOk(TakesOver(s, g))
  {
    var s', dev := TakesOver(s, g), s.fetched[g];
    assert s'.hub.acks.Keys == s.hub.acks.Keys + {g};
    forall h | h in s'.draining
      ensures h !in s'.hub.conns.Values
    {
      assert forall d :: d in s.hub.conns ==> s.hub.conns[d] in s.hub.conns.Values;
    }
  }

  lemma GenFetchedKept(s: System, dev: Device)
    requires Inv(s)
    ensures Inv(s.(hub := s.hub.(connGen := s.hub.connGen + 1), fetched := s.fetched[s.hub.connGen := dev]))
  {
    SameIds(s, s.(hub := s.hub.(connGen := s.hub.connGen + 1), fetched := s.fetched[s.hub.connGen := dev]));
  }

  lemma RemovalKept(s: System, e: Event)
    requires Inv(s) && (e.RegDrain? || e.Unregister? || e.DropDevice?)
    ensures Inv(Step(s, e))
  {
    var conns := s.hub.conns;
    match e
    case RegDrain(g) =>
      if g in s.draining {
        DrainGens(s, conns, s.draining - {g}, g, Superseded);
        DrainIds(s, conns, s.draining - {g}, g, Superseded);
      }
    case Unregister(dev, g) => if Current(s.hub, dev) == Some(g) { LeavingKept(s, dev); }
    case DropDevice(dev) => if dev in conns { LeavingKept(s, dev); }
  }

  lemma LeavingKept(s: System, dev: Device)
    requires Inv(s) && dev in s.hub.conns
    ensures Inv(Leaves(s, dev))
  {
    DrainGens(s, s.hub.conns - {dev}, s.draining, s.hub.conns[dev], Disconnected);
    DrainIds(s, s.hub.conns - {dev}, s.draining, s.hub.conns[dev], Disconnected);
  }

  /** Generations and connections are left alone, and whatever refers to one still does. */
  lemma GensSame(s: System, t: System)
    requires GensOk(s) && t.hub.conns == s.hub.conns && t.hub.connGen == s.hub.connGen
    requires t.hub.acks.Keys == s.hub.acks.Keys && t.fetched == s.fetched && t.draining == s.draining
    requires forall k :: k in t.looked ==> t.looked[k].gen in s.hub.acks
    requires forall k :: k in t.starting ==> t.starting[k] in s.hub.acks
    requires forall c :: c in t.cmds && !t.cmds[c].phase.Returned? ==> t.cmds[c].gen in s.hub.acks
    ensures GensOk(t)
  {
  }

  lemma LookedKept(s: System, t: nat, l: Lookup)
    requires Inv(s) && l.gen in s.hub.acks
    ensures Inv(s.(looked := s.looked[t := l]))
  {
    GensSame(s, s.(looked := s.looked[t := l]));
    SameIds(s, s.(looked := s.looked[t := l]));
  }

  lemma StartingKept(s: System, t: nat, g: Gen)
    requires Inv(s) && g in s.hub.acks
    ensures Inv(s.(starting := s.starting[t := g]))
  {
    GensSame(s, s.(starting := s.starting[t := g]));
    SameIds(s, s.(starting := s.starting[t := g]));
  }

  lemma SameIds(s: System, t: System)
    requires IdsOk(s) && t.cmds == s.cmds && t.held == s.held
    requires t.hub.acks == s.hub.acks && t.hub.sent == s.hub.sent && t.hub.seq_ == s.hub.seq_
    ensures IdsOk(t)
  {
    forall c
      ensures IdOk(t, c)
    {
      assert IdOk(s, c) && SameFor(s, t, c);
    }
  }

  lemma TakeKept(s: System, t: nat)
    requires Inv(s) && t in s.looked
    ensures Inv(Taken(s, t))
  {
    GensSame(s, Taken(s, t));
    TakeIds(s, t);
  }

  lemma TakeIds(s: System, t: nat)
    requires Inv(s) && t in s.looked
    ensures IdsOk(Taken(s, t))
  {
    var s', l := Taken(s, t), s.looked[t];
    var c := l.id;
    assert IdOk(s, c);
    assert PendingIn(s.hub, l.gen, c) <==> c in s.hub.acks[l.gen];
    assert forall k :: PendingIn(s'.hub, k, c) <==> PendingIn(s.hub, k, c) && k != l.gen;
    OnlyMoves(s, s', c);
  }

  lemma SendKept(s: System, c: CmdId)
    requires Inv(s) && c in s.held
    ensures Inv(Used(s, c))
  {
    var s' := Used(s, c);
    GensSame(s, s');
    assert IdOk(s, c);
    assert forall k :: PendingIn(s'.hub, k, c) <==> PendingIn(s.hub, k, c);
    OnlyMoves(s, s', c);
  }

  lemma FetchKept(s: System, t: nat)
    requires Inv(s) && t in s.starting
    ensures Inv(Numbered(s, t))
  {
    var s', c := Numbered(s, t), s.hub.seq_;
    GensSame(s, s');
    assert IdOk(s, c);
    assert c !in s.cmds;
    assert forall k :: PendingIn(s'.hub, k, c) <==> PendingIn(s.hub, k, c);
    OnlyMoves(s, s', c);
  }

  lemma InsertKept(s: System, c: CmdId)
    requires Inv(s) && InPhase(s, c, Fresh)
    ensures Inv(To(s, c, Pending).(hub := With(s.hub, s.cmds[c].gen, c)))
  {
    var s' := To(s, c, Pending).(hub := With(s.hub, s.cmds[c].gen, c));
    GensSame(s, s');
    assert IdOk(s, c);
    assert forall k :: PendingIn(s'.hub, k, c) <==> PendingIn(s.hub, k, c) || k == s.cmds[c].gen;
    OnlyMoves(s, s', c);
  }

  lemma OpenKept(s: System, c: CmdId)
    requires Inv(s) && InPhase(s, c, Pending)
    ensures Inv(To(s, c, Waiting))
  {
    GensSame(s, To(s, c, Waiting));
    assert IdOk(s, c);
    OnlyMoves(s, To(s, c, Waiting), c);
  }

  lemma ReceiveKept(s: System, c: CmdId)
    requires Inv(s) && InPhase(s, c, Waiting) && c in s.hub.sent
    ensures Inv(To(s, c, Returned(Got(s.hub.sent[c]))))
  {
    var s' := To(s, c, Returned(Got(s.hub.sent[c])));
    GensSame(s, s');
    assert IdOk(s, c);
    OnlyMoves(s, s', c);
  }

  lemma GivingUpKept(s: System, c: CmdId, reply: Reply)
    requires Inv(s) && c in s.cmds && Open(s.cmds[c].phase) && !reply.Got?
    ensures Inv(To(s, c, GivingUp(reply)))
  {
    GensSame(s, To(s, c, GivingUp(reply)));
    assert IdOk(s, c);
    OnlyMoves(s, To(s, c, GivingUp(reply)), c);
  }

  lemma GiveUpKept(s: System, c: CmdId)
    requires Inv(s) && IsGivingUp(s, c) && !s.cmds[c].phase.reply.Got?
    ensures Inv(GivenUp(s, c))
  {
    var t := GivenUp(s, c);
    GensSame(s, t);
    assert IdOk(s, c);
    assert forall k :: PendingIn(t.hub, k, c) <==> PendingIn(s.hub, k, c) && k != s.cmds[c].gen;
    OnlyMoves(s, t, c);
  }

  /** A connection that nobody holds has no waiter: every waiter's command holds it. */
  lemma FreeKept(s: System, g: Gen)
    requires Inv(s) && !InUse(s, g)
    ensures Inv(s.(hub := s.hub.(acks := s.hub.acks - {g})))
  {
    var t := s.(hub := s.hub.(acks := s.hub.acks - {g}));
    forall c
      ensures SameFor(s, t, c)
    {
      assert IdOk(s, c);
      assert !PendingIn(s.hub, g, c);
      assert forall k :: PendingIn(t.hub, k, c) <==> PendingIn(s.hub, k, c) && k != g;
    }
    NothingMoves(s, t);
    FreeGens(s, g);
  }

  lemma FreeGens(s: System, g: Gen)
    requires GensOk(s) && !InUse(s, g)
    ensures GensOk(s.(hub := s.hub.(acks := s.hub.acks - {g})))
  {
    assert forall d :: d in s.hub.conns ==> s.hub.conns[d] in s.hub.conns.Values;
  }

  lemma ConnectionStepKept(s: System, e: Event)
    requires Inv(s) && (e.RegFetch? || e.RegInsert? || e.RegDrain? || e.Unregister? || e.DropDevice? || e.Free?)
    ensures Inv(Step(s, e))
  {
    match e
    case RegFetch(dev) => GenFetchedKept(s, dev);
    case RegInsert(g) => if g in s.fetched { RegistrationKept(s, g); }
    case Free(g) => if !InUse(s, g) { FreeKept(s, g); }
    case _ => RemovalKept(s, e);
  }

  lemma AckStepKept(s: System, e: Event)
    requires Inv(s) && (e.AckLookup? || e.AckTake? || e.Send?)
    ensures Inv(Step(s, e))
  {
    match e
    case AckLookup(t, dev, c, r) => if dev in s.hub.conns { LookedKept(s, t, Lookup(s.hub.conns[dev], c, r)); }
    case AckTake(t) => if t in s.looked { TakeKept(s, t); }
    case Send(c) => if c in s.held { SendKept(s, c); }
  }

  lemma StartStepKept(s: System, e: Event)
    requires Inv(s) && (e.CmdLookup? || e.CmdFetchId? || e.CmdInsert?)
    ensures Inv(Step(s, e))
  {
    match e
    case CmdLookup(t, dev) => if dev in s.hub.conns { StartingKept(s, t, s.hub.conns[dev]); }
    case CmdFetchId(t) => if t in s.starting { FetchKept(s, t); }
    case CmdInsert(c) => if InPhase(s, c, Fresh) { InsertKept(s, c); }
  }

  lemma SendStepKept(s: System, c: CmdId, open: bool)
    requires Inv(s)
    ensures Inv(Step(s, CmdSend(c, open)))
  {
    if InPhase(s, c, Pending) {
      if open {
        OpenKept(s, c);
      } else {
        GivingUpKept(s, c, SendFailed);
      }
    }
  }

  lemma ReceiveStepKept(s: System, c: CmdId)
    requires Inv(s)
    ensures Inv(Step(s, CmdReceive(c)))
  {
    if InPhase(s, c, Waiting) && c in s.hub.sent {
      ReceiveKept(s, c);
    }
  }

  lemma TimeoutStepKept(s: System, c: CmdId)
    requires Inv(s)
    ensures Inv(Step(s, CmdTimeout(c)))
  {
    if InPhase(s, c, Waiting) {
      GivingUpKept(s, c, TimedOut);
    }
  }

  lemma RemoveStepKept(s: System, c: CmdId)
    requires Inv(s)
    ensures Inv(Step(s, CmdRemove(c)))
  {
    if IsGivingUp(s, c) {
      assert IdOk(s, c);
      GiveUpKept(s, c);
    }
  }

  lemma EndStepKept(s: System, e: Event)
    requires Inv(s) && (e.CmdSend? || e.CmdReceive? || e.CmdTimeout? || e.CmdRemove?)
    ensures Inv(Step(s, e))
  {
    match e
    case CmdSend(c, open) => SendStepKept(s, c, open);
    case CmdReceive(c) => ReceiveStepKept(s, c);
    case CmdTimeout(c) => TimeoutStepKept(s, c);
    case CmdRemove(c) => RemoveStepKept(s, c);
  }

  lemma StepKept(s: System, e: Event)
    requires Inv(s)
    ensures Inv(Step(s, e))
  {
    if e.AckLookup? || e.AckTake? || e.Send? {
      AckStepKept(s, e);
    } else if e.CmdLookup? || e.CmdFetchId? || e.CmdInsert? {
      StartStepKept(s, e);
    } else if e.CmdSend? || e.CmdReceive? || e.CmdTimeout? || e.CmdRemove? {
      EndStepKept(s, e);
    } else {
      ConnectionStepKept(s, e);
    }
  }

  // ---- the hub's calls are runs of these sections ----------------------------------------------

  lemma WaitersNotHeld(s: System, g: Gen)
    requires Inv(s)
    ensures forall c :: c in Acks(s.hub, g) ==> c !in s.held
  {
    forall c | c in Acks(s.hub, g)
      ensures c !in s.held
    {
      assert IdOk(s, c) && PendingIn(s.hub, g, c);
    }
  }

  lemma LeavesIsRun(s: System, dev: Device, cs: seq<CmdId>)
    requires Inv(s) && dev in s.hub.conns && Those(cs) == Acks(s.hub, s.hub.conns[dev])
    ensures UsedAll(Leaves(s, dev), cs) == s.(hub := Removed(s.hub, dev))
  {
    WaitersNotHeld(s, s.hub.conns[dev]);
    DrainedOneByOne(s.(hub := s.hub.(conns := s.hub.conns - {dev})), s.hub.conns[dev], Disconnected, cs);
  }

  /** A connection taken down, and then each of its waiters told, in any order. */
  lemma UnregisterIsRun(s: System, dev: Device, g: Gen, cs: seq<CmdId>)
    requires Inv(s) && Those(cs) == if Current(s.hub, dev) == Some(g) then Acks(s.hub, g) else {}
    ensures UsedAll(Step(s, Unregister(dev, g)), cs) == s.(hub := Unregistered(s.hub, dev, g))
  {
    if Current(s.hub, dev) == Some(g) {
      LeavesIsRun(s, dev, cs);
    } else {
      NoneOf(cs);
    }
  }

  lemma NoneOf(cs: seq<CmdId>)
    requires Those(cs) == {}
    ensures cs == []
  {
    if cs != [] {
      ThoseSnoc(cs);
      assert false;
    }
  }

  lemma DropIsRun(s: System, dev: Device, cs: seq<CmdId>)
    requires Inv(s) && Those(cs) == if dev in s.hub.conns then Acks(s.hub, s.hub.conns[dev]) else {}
    ensures UsedAll(Step(s, DropDevice(dev)), cs) == s.(hub := Dropped(s.hub, dev))
  {
    if dev in s.hub.conns {
      LeavesIsRun(s, dev, cs);
    } else {
      NoneOf(cs);
    }
  }

  /** A generation fetched, the new connection put in the map, and then the waiters of the old one told. */
  lemma RegisterIsRun(s: System, dev: Device, cs: seq<CmdId>)
    requires Inv(s) && Those(cs) == if dev in s.hub.conns then Acks(s.hub, s.hub.conns[dev]) else {}
    ensures var entered := Step(Step(s, RegFetch(dev)), RegInsert(s.hub.connGen));
      s.(hub := Superseding(s.hub, dev)) ==
      if dev in s.hub.conns then UsedAll(Step(entered, RegDrain(s.hub.conns[dev])), cs) else entered
  {
    var entered := Step(Step(s, RegFetch(dev)), RegInsert(s.hub.connGen));
    assert s.fetched[s.hub.connGen := dev] - {s.hub.connGen} == s.fetched;
    if dev in s.hub.conns {
      var prev := s.hub.conns[dev];
      var inserted := s.(hub := Inserted(s.hub.(connGen := s.hub.connGen + 1), dev, s.hub.connGen));
      assert entered == inserted.(draining := s.draining + {prev});
      assert prev in s.hub.conns.Values && prev !in s.draining;
      assert s.draining + {prev} - {prev} == s.draining;
      assert Step(entered, RegDrain(prev)) == Grabbed(inserted, prev, Superseded);
      assert Acks(inserted.hub, prev) == Acks(s.hub, prev);
      WaitersNotHeld(s, prev);
      DrainedOneByOne(inserted, prev, Superseded, cs);
    }
  }

  /** An ack that looks up the device's connection, takes its own waiter there and sends it the phone's word;
      one that nobody awaits takes nothing. */
  lemma ResolveIsRun(s: System, t: nat, dev: Device, c: CmdId, r: PhoneResult)
    requires Inv(s) && t !in s.looked
    ensures var taken := Step(Step(s, AckLookup(t, dev, c, r)), AckTake(t));
      s.(hub := Resolved(s.hub, dev, c, r)) == if Awaited(s.hub, dev, c) then Step(taken, Send(c)) else taken
  {
    if dev in s.hub.conns {
      var g := s.hub.conns[dev];
      var looked := Step(s, AckLookup(t, dev, c, r));
      assert looked.looked - {t} == s.looked;
      assert Step(looked, AckTake(t)) == Taken(looked, t);
      if c in Acks(s.hub, g) {
        WaitersNotHeld(s, g);
        assert s.held[c := FromPhone(r)] - {c} == s.held;
      } else {
        assert Acks(s.hub, g) - {c} == Acks(s.hub, g);
        assert s.hub.acks[g := Acks(s.hub, g)] == s.hub.acks;
      }
    }
  }

  lemma NumberedStart(s: System, t: nat, dev: Device)
    requires t !in s.starting && dev in s.hub.conns
    ensures Step(Step(s, CmdLookup(t, dev)), CmdFetchId(t)) ==
      s.(hub := s.hub.(seq_ := s.hub.seq_ + 1), cmds := s.cmds[s.hub.seq_ := Command(s.hub.conns[dev], Fresh)])
  {
    assert s.starting[t := s.hub.conns[dev]] - {t} == s.starting;
  }

  lemma InsertedStart(s: System, c: CmdId, g: Gen, h: Shared)
    ensures Step(s.(hub := h, cmds := s.cmds[c := Command(g, Fresh)]), CmdInsert(c)) ==
      s.(hub := With(h, g, c), cmds := s.cmds[c := Command(g, Pending)])
  {
    assert s.cmds[c := Command(g, Fresh)][c := Command(g, Pending)] == s.cmds[c := Command(g, Pending)];
  }

  /** A command that looks up the device's connection, gets an id, and leaves its waiter there. */
  lemma StartIsRun(s: System, t: nat, dev: Device)
    requires t !in s.starting && dev in s.hub.conns
    ensures var c := s.hub.seq_;
      Step(Step(Step(s, CmdLookup(t, dev)), CmdFetchId(t)), CmdInsert(c)) ==
      s.(hub := Started(s.hub, dev), cmds := s.cmds[c := Command(s.hub.conns[dev], Pending)])
  {
    NumberedStart(s, t, dev);
    InsertedStart(s, s.hub.seq_, s.hub.conns[dev], s.hub.(seq_ := s.hub.seq_ + 1));
  }

  // ---- what holds of every run -----------------------------------------------------------------

  /** One interleaving: the sections taken and the states they lead through. */
  ghost predicate Took(states: seq<System>, events: seq<Event>, i: nat)
    requires i < |events| && |states| == |events| + 1
  {
    states[i + 1] == Step(states[i], events[i])
  }

  ghost predicate Behaviour(states: seq<System>, events: seq<Event>) {
    && |states| == |events| + 1 && states[0] == Boot()
    && forall i :: 0 <= i < |events| ==> Took(states, events, i)
  }

  lemma {:induction false} AlwaysInv(states: seq<System>, events: seq<Event>, i: nat)
    requires Behaviour(states, events) && i < |states|
    ensures Inv(states[i])
  {
    if i == 0 {
      assert forall c :: IdOk(Boot(), c);
    } else {
      AlwaysInv(states, events, i - 1);
      StepKept(states[i - 1], events[i - 1]);
      assert Took(states, events, i - 1);
    }
  }

  // What most sections leave alone.

  predicate MovesCommand(e: Event) {
    e.CmdFetchId? || e.CmdInsert? || e.CmdSend? || e.CmdReceive? || e.CmdTimeout? || e.CmdRemove?
  }

  lemma CmdsSame(s: System, e: Event)
    requires !MovesCommand(e)
    ensures Step(s, e).cmds == s.cmds
  {
  }

  predicate MovesConnection(e: Event) { e.RegFetch? || e.RegInsert? || e.Unregister? || e.DropDevice? }

  lemma ConnsSame(s: System, e: Event)
    requires !MovesConnection(e)
    ensures Step(s, e).hub.conns == s.hub.conns && Step(s, e).hub.connGen == s.hub.connGen
    ensures Step(s, e).fetched == s.fetched
  {
  }

  lemma SentSame(s: System, e: Event)
    requires !e.Send?
    ensures Step(s, e).hub.sent == s.hub.sent
  {
  }

  /** Only a command's own insertion adds a waiter. */
  lemma NoNewWaiter(s: System, e: Event, g: Gen, c: CmdId)
    requires PendingIn(Step(s, e).hub, g, c)
    ensures PendingIn(s.hub, g, c) || (e == CmdInsert(c) && InPhase(s, c, Fresh))
  {
    if !MovesCommand(e) && !MovesConnection(e) {
      match e
      case RegDrain(_) =>
      case AckTake(_) =>
      case Free(_) =>
      case _ =>
    }
  }

  /** A step never takes a command off the record, or changes what one returned. */
  lemma CommandStays(s: System, e: Event, c: CmdId)
    requires IdOk(s, c) && c in s.cmds
    ensures c in Step(s, e).cmds && Step(s, e).cmds[c].gen == s.cmds[c].gen
    ensures s.cmds[c].phase.Returned? ==> Step(s, e).cmds[c] == s.cmds[c]
  {
    if !MovesCommand(e) {
      CmdsSame(s, e);
    }
  }

  /** A verdict is sent once: no later section sends another for the same command. */
  lemma VerdictStays(s: System, e: Event, c: CmdId)
    requires IdOk(s, c) && c in s.hub.sent
    ensures c in Step(s, e).hub.sent && Step(s, e).hub.sent[c] == s.hub.sent[c]
  {
    if !e.Send? {
      SentSame(s, e);
    }
  }

  /** A verdict once sent is the command's verdict for the rest of the run. */
  lemma {:induction false} OneVerdict(states: seq<System>, events: seq<Event>, i: nat, j: nat, c: CmdId)
    requires Behaviour(states, events) && i <= j < |states| && c in states[i].hub.sent
    ensures c in states[j].hub.sent && states[j].hub.sent[c] == states[i].hub.sent[c]
  {
    if i < j {
      OneVerdict(states, events, i, j - 1, c);
      AlwaysInv(states, events, j - 1);
      assert IdOk(states[j - 1], c);
      VerdictStays(states[j - 1], events[j - 1], c);
      assert Took(states, events, j - 1);
    }
  }

  /** The command has had its sender put into an ack map, and it is there no more. */
  ghost predicate SenderOut(s: System, c: CmdId) {
    c in s.cmds && s.cmds[c].phase != Fresh && !PendingIn(s.hub, s.cmds[c].gen, c)
  }

  lemma StaysStarted(s: System, e: Event, c: CmdId)
    requires IdOk(s, c) && c in s.cmds && s.cmds[c].phase != Fresh
    ensures c in Step(s, e).cmds && Step(s, e).cmds[c].phase != Fresh
  {
    if !MovesCommand(e) {
      CmdsSame(s, e);
    }
  }

  lemma SenderStaysOut(s: System, e: Event, c: CmdId)
    requires IdOk(s, c) && SenderOut(s, c)
    ensures SenderOut(Step(s, e), c)
  {
    CommandStays(s, e, c);
    if PendingIn(Step(s, e).hub, s.cmds[c].gen, c) {
      NoNewWaiter(s, e, s.cmds[c].gen, c);
    }
    StaysStarted(s, e, c);
  }

  /** A command's sender leaves the ack maps once: of the acks, the drains and the command's own giving up
      only the first one finds it. */
  lemma {:induction false} SenderLeavesOnce(states: seq<System>, events: seq<Event>, i: nat, j: nat, c: CmdId)
    requires Behaviour(states, events) && i <= j < |states| && SenderOut(states[i], c)
    ensures SenderOut(states[j], c)
  {
    if i < j {
      SenderLeavesOnce(states, events, i, j - 1, c);
      AlwaysInv(states, events, j - 1);
      assert IdOk(states[j - 1], c);
      SenderStaysOut(states[j - 1], events[j - 1], c);
      assert Took(states, events, j - 1);
    }
  }

  /** A command gets at most one verdict: what it returned it has returned for ever. */
  lemma {:induction false} AtMostOneVerdict(states: seq<System>, events: seq<Event>, i: nat, j: nat, c: CmdId)
    requires Behaviour(states, events) && i <= j < |states|
    requires c in states[i].cmds && states[i].cmds[c].phase.Returned?
    ensures c in states[j].cmds && states[j].cmds[c] == states[i].cmds[c]
  {
    if i < j {
      AtMostOneVerdict(states, events, i, j - 1, c);
      AlwaysInv(states, events, j - 1);
      assert IdOk(states[j - 1], c);
      CommandStays(states[j - 1], events[j - 1], c);
      assert Took(states, events, j - 1);
    }
  }

  /** An id given to a command was never given before, and is on record for ever after. */
  lemma IdsNeverReused(states: seq<System>, events: seq<Event>, i: nat, j: nat, t: nat)
    requires Behaviour(states, events) && i < j < |states|
    requires events[i] == CmdFetchId(t) && t in states[i].starting
    ensures states[i].hub.seq_ !in states[i].cmds && states[i].hub.seq_ in states[j].cmds
  {
    AlwaysInv(states, events, i);
    assert IdOk(states[i], states[i].hub.seq_) && Took(states, events, i);
    CommandsStay(states, events, i + 1, j, states[i].hub.seq_);
  }

  lemma {:induction false} CommandsStay(states: seq<System>, events: seq<Event>, i: nat, j: nat, c: CmdId)
    requires Behaviour(states, events) && i <= j < |states| && c in states[i].cmds
    ensures c in states[j].cmds
  {
    if i < j {
      CommandsStay(states, events, i, j - 1, c);
      AlwaysInv(states, events, j - 1);
      assert IdOk(states[j - 1], c);
      CommandStays(states[j - 1], events[j - 1], c);
      assert Took(states, events, j - 1);
    }
  }

  /** When a command returns, its id is in no pending map. */
  lemma ReturnedIsNowhere(states: seq<System>, events: seq<Event>, i: nat, c: CmdId, g: Gen)
    requires Behaviour(states, events) && i < |states|
    requires c in states[i].cmds && states[i].cmds[c].phase.Returned?
    ensures g in states[i].hub.acks ==> c !in states[i].hub.acks[g]
  {
    AlwaysInv(states, events, i);
    assert IdOk(states[i], c);
    assert !PendingIn(states[i].hub, g, c);
  }

  /** A waiting command without a verdict has a live sender, so its channel is never found dropped: an
      ack or a drain holds it, or it is in the ack map of the connection the command went out on, and the command
      itself keeps that connection from being freed. */
  lemma SenderIsAlive(states: seq<System>, events: seq<Event>, i: nat, c: CmdId)
    requires Behaviour(states, events) && i < |states|
    requires InPhase(states[i], c, Waiting) && c !in states[i].hub.sent
    ensures c in states[i].held ||
      (states[i].cmds[c].gen in states[i].hub.acks && c in states[i].hub.acks[states[i].cmds[c].gen] &&
       Step(states[i], Free(states[i].cmds[c].gen)) == states[i])
  {
    AlwaysInv(states, events, i);
    assert IdOk(states[i], c);
  }

  /** Freeing a connection never drops a waiter, whenever it happens. */
  lemma FreeDropsNobody(states: seq<System>, events: seq<Event>, i: nat, g: Gen)
    requires Behaviour(states, events) && i < |states| && g in states[i].hub.acks && !InUse(states[i], g)
    ensures states[i].hub.acks[g] == {}
  {
    AlwaysInv(states, events, i);
    forall c | c in states[i].hub.acks[g]
      ensures false
    {
      assert IdOk(states[i], c) && PendingIn(states[i].hub, g, c);
    }
  }

  // ---- where a phone's verdict comes from --------------------------------------------------------

  /** Some ack before step n named c with result r, and came in while connection g was its device's. */
  ghost predicate AckSeen(states: seq<System>, events: seq<Event>, n: nat, g: Gen, c: CmdId, r: PhoneResult)
    requires n <= |events| < |states|
  {
    exists i, t, dev :: 0 <= i < n && events[i] == AckLookup(t, dev, c, r) && Current(states[i].hub, dev) == Some(g)
  }

  ghost predicate Sourced(states: seq<System>, events: seq<Event>, n: nat)
    requires n <= |events| < |states|
  {
    var s := states[n];
    && (forall t :: t in s.looked ==> AckSeen(states, events, n, s.looked[t].gen, s.looked[t].id, s.looked[t].result))
    && (forall c :: c in s.held && s.held[c].FromPhone? ==>
          c in s.cmds && AckSeen(states, events, n, s.cmds[c].gen, c, s.held[c].result))
    && (forall c :: c in s.hub.sent && s.hub.sent[c].FromPhone? ==>
          c in s.cmds && AckSeen(states, events, n, s.cmds[c].gen, c, s.hub.sent[c].result))
  }

  lemma AckSeenStays(states: seq<System>, events: seq<Event>, n: nat, g: Gen, c: CmdId, r: PhoneResult)
    requires n < |events| < |states| && AckSeen(states, events, n, g, c, r)
    ensures AckSeen(states, events, n + 1, g, c, r)
  {
  }

  lemma AckSeenNow(states: seq<System>, events: seq<Event>, n: nat, t: nat, dev: Device, g: Gen, c: CmdId,
                   r: PhoneResult)
    requires n < |events| < |states| && events[n] == AckLookup(t, dev, c, r) && Current(states[n].hub, dev) == Some(g)
    ensures AckSeen(states, events, n + 1, g, c, r)
  {
  }

  lemma LookedOrigin(s: System, e: Event, t: nat)
    requires t in Step(s, e).looked
    ensures (t in s.looked && Step(s, e).looked[t] == s.looked[t]) ||
      (e.AckLookup? && e.task == t && e.dev in s.hub.conns &&
       Step(s, e).looked[t] == Lookup(s.hub.conns[e.dev], e.id, e.result))
  {
  }

  lemma HeldOrigin(s: System, e: Event, c: CmdId)
    requires IdOk(s, c) && c in Step(s, e).held && Step(s, e).held[c].FromPhone?
    ensures c in s.cmds
    ensures (c in s.held && Step(s, e).held[c] == s.held[c]) ||
      (e.AckTake? && e.task in s.looked && s.looked[e.task] == Lookup(s.cmds[c].gen, c, Step(s, e).held[c].result))
  {
    if e.AckTake? && e.task in s.looked && c == s.looked[e.task].id && c in Acks(s.hub, s.looked[e.task].gen) {
      assert PendingIn(s.hub, s.looked[e.task].gen, c);
    }
  }

  lemma SentOrigin(s: System, e: Event, c: CmdId)
    requires IdOk(s, c) && c in Step(s, e).hub.sent && Step(s, e).hub.sent[c].FromPhone?
    ensures c in s.cmds
    ensures (c in s.hub.sent && Step(s, e).hub.sent[c] == s.hub.sent[c]) ||
      (c in s.held && Step(s, e).hub.sent[c] == s.held[c])
  {
    if c in s.hub.sent {
      VerdictStays(s, e, c);
    }
  }

  lemma SourcedStep(states: seq<System>, events: seq<Event>, n: nat)
    requires Behaviour(states, events) && n < |events| && Sourced(states, events, n)
    ensures Sourced(states, events, n + 1)
  {
    var s, s', e := states[n], states[n + 1], events[n];
    AlwaysInv(states, events, n);
    assert Took(states, events, n);
    forall t | t in s'.looked
      ensures AckSeen(states, events, n + 1, s'.looked[t].gen, s'.looked[t].id, s'.looked[t].result)
    {
      LookedOrigin(s, e, t);
      var l := s'.looked[t];
      if t in s.looked && l == s.looked[t] {
        AckSeenStays(states, events, n, l.gen, l.id, l.result);
      } else {
        AckSeenNow(states, events, n, t, e.dev, l.gen, l.id, l.result);
      }
    }
    forall c | c in s'.held && s'.held[c].FromPhone?
      ensures c in s'.cmds && AckSeen(states, events, n + 1, s'.cmds[c].gen, c, s'.held[c].result)
    {
      assert IdOk(s, c);
      HeldOrigin(s, e, c);
      CommandStays(s, e, c);
      AckSeenStays(states, events, n, s.cmds[c].gen, c, s'.held[c].result);
    }
    forall c | c in s'.hub.sent && s'.hub.sent[c].FromPhone?
      ensures c in s'.cmds && AckSeen(states, events, n + 1, s'.cmds[c].gen, c, s'.hub.sent[c].result)
    {
      assert IdOk(s, c);
      SentOrigin(s, e, c);
      CommandStays(s, e, c);
      AckSeenStays(states, events, n, s.cmds[c].gen, c, s'.hub.sent[c].result);
    }
  }

  lemma {:induction false} AlwaysSourced(states: seq<System>, events: seq<Event>, n: nat)
    requires Behaviour(states, events) && n <= |events|
    ensures Sourced(states, events, n)
  {
    if n > 0 {
      AlwaysSourced(states, events, n - 1);
      SourcedStep(states, events, n - 1);
    }
  }

  /** A command that returns the phone's word got it from an ack that carried its own id and came in
      while the connection the command went out on was its device's. */
  lemma PhoneVerdictIsOwn(states: seq<System>, events: seq<Event>, n: nat, c: CmdId, r: PhoneResult)
    requires Behaviour(states, events) && n <= |events|
    requires InPhase(states[n], c, Returned(Got(FromPhone(r))))
    ensures AckSeen(states, events, n, states[n].cmds[c].gen, c, r)
  {
    AlwaysInv(states, events, n);
    assert IdOk(states[n], c);
    AlwaysSourced(states, events, n);
  }

  // ---- where every other verdict and failure comes from -------------------------------------------

  /** The section fails the waiters of connection g: the one that superseded it drains it, or it leaves the map. */
  predicate Drains(s: System, e: Event, g: Gen, v: Verdict) {
    match e
    case RegDrain(h) => v == Superseded && h == g && g in s.draining
    case Unregister(dev, h) => v == Disconnected && h == g && Current(s.hub, dev) == Some(g)
    case DropDevice(dev) => v == Disconnected && Current(s.hub, dev) == Some(g)
    case _ => false
  }

  ghost predicate DrainSeen(states: seq<System>, events: seq<Event>, n: nat, g: Gen, v: Verdict)
    requires n <= |events| < |states|
  {
    exists i :: 0 <= i < n && Drains(states[i], events[i], g, v)
  }

  ghost predicate DrainSourced(states: seq<System>, events: seq<Event>, n: nat)
    requires n <= |events| < |states|
  {
    var s := states[n];
    && (forall c :: c in s.held && !s.held[c].FromPhone? ==>
          c in s.cmds && DrainSeen(states, events, n, s.cmds[c].gen, s.held[c]))
    && (forall c :: c in s.hub.sent && !s.hub.sent[c].FromPhone? ==>
          c in s.cmds && DrainSeen(states, events, n, s.cmds[c].gen, s.hub.sent[c]))
  }

  lemma HeldByDrain(s: System, e: Event, c: CmdId)
    requires IdOk(s, c) && c in Step(s, e).held && !Step(s, e).held[c].FromPhone?
    ensures c in s.cmds
    ensures (c in s.held && Step(s, e).held[c] == s.held[c]) || Drains(s, e, s.cmds[c].gen, Step(s, e).held[c])
  {
    match e
    case RegDrain(g) => GrabbedOrHeld(s, s, g, Superseded, c);
    case Unregister(dev, g) =>
      if Current(s.hub, dev) == Some(g) {
        GrabbedOrHeld(s, s.(hub := s.hub.(conns := s.hub.conns - {dev})), g, Disconnected, c);
      }
    case DropDevice(dev) =>
      if dev in s.hub.conns {
        GrabbedOrHeld(s, s.(hub := s.hub.(conns := s.hub.conns - {dev})), s.hub.conns[dev], Disconnected, c);
      }
    case _ =>
  }

  lemma GrabbedOrHeld(s: System, s': System, g: Gen, v: Verdict, c: CmdId)
    requires IdOk(s, c) && s'.hub.acks == s.hub.acks && s'.held == s.held && c in Grabbed(s', g, v).held
    ensures c in s.cmds
    ensures (c in s.held && Grabbed(s', g, v).held[c] == s.held[c]) ||
      (s.cmds[c].gen == g && Grabbed(s', g, v).held[c] == v)
  {
    assert c in Acks(s.hub, g) ==> PendingIn(s.hub, g, c);
  }

  lemma SentFromHand(s: System, e: Event, c: CmdId)
    requires IdOk(s, c) && c in Step(s, e).hub.sent
    ensures c in s.cmds
    ensures (c in s.hub.sent && Step(s, e).hub.sent[c] == s.hub.sent[c]) ||
      (c in s.held && Step(s, e).hub.sent[c] == s.held[c])
  {
    if c in s.hub.sent {
      VerdictStays(s, e, c);
    } else if !e.Send? {
      SentSame(s, e);
    }
  }

  lemma DrainSeenStays(states: seq<System>, events: seq<Event>, n: nat, g: Gen, v: Verdict)
    requires n < |events| < |states|
    requires DrainSeen(states, events, n, g, v) || Drains(states[n], events[n], g, v)
    ensures DrainSeen(states, events, n + 1, g, v)
  {
  }

  lemma {:induction false} AlwaysDrainSourced(states: seq<System>, events: seq<Event>, n: nat)
    requires Behaviour(states, events) && n <= |events|
    ensures DrainSourced(states, events, n)
  {
    if n > 0 {
      AlwaysDrainSourced(states, events, n - 1);
      AlwaysInv(states, events, n - 1);
      var s, s', e := states[n - 1], states[n], events[n - 1];
      assert Took(states, events, n - 1);
      forall c | c in s'.held && !s'.held[c].FromPhone?
        ensures c in s'.cmds && DrainSeen(states, events, n, s'.cmds[c].gen, s'.held[c])
      {
        assert IdOk(s, c);
        HeldByDrain(s, e, c);
        CommandStays(s, e, c);
        DrainSeenStays(states, events, n - 1, s.cmds[c].gen, s'.held[c]);
      }
      forall c | c in s'.hub.sent && !s'.hub.sent[c].FromPhone?
        ensures c in s'.cmds && DrainSeen(states, events, n, s'.cmds[c].gen, s'.hub.sent[c])
      {
        assert IdOk(s, c);
        SentFromHand(s, e, c);
        CommandStays(s, e, c);
        DrainSeenStays(states, events, n - 1, s.cmds[c].gen, s'.hub.sent[c]);
      }
    }
  }

  /** A command is told that its connection was superseded, or that its device disconnected, only when that
      happened to the connection the command went out on. */
  lemma LostVerdictIsOwn(states: seq<System>, events: seq<Event>, n: nat, c: CmdId, v: Verdict)
    requires Behaviour(states, events) && n <= |events| && !v.FromPhone?
    requires InPhase(states[n], c, Returned(Got(v)))
    ensures DrainSeen(states, events, n, states[n].cmds[c].gen, v)
  {
    AlwaysInv(states, events, n);
    assert IdOk(states[n], c);
    AlwaysDrainSourced(states, events, n);
  }

  /** Why a command gives up: its send found the channel closed, or its timer fired before any verdict. */
  ghost predicate GaveUpAt(states: seq<System>, events: seq<Event>, i: nat, c: CmdId, reply: Reply)
    requires i < |events| < |states|
  {
    match reply
    case SendFailed => events[i] == CmdSend(c, false) && InPhase(states[i], c, Pending)
    case TimedOut => events[i] == CmdTimeout(c) && InPhase(states[i], c, Waiting) && c !in states[i].hub.sent
    case Got(_) => false
  }

  ghost predicate GivesUpWith(s: System, c: CmdId, reply: Reply) {
    InPhase(s, c, GivingUp(reply)) || InPhase(s, c, Returned(reply))
  }

  lemma GivingUpStep(s: System, e: Event, c: CmdId, reply: Reply)
    requires !reply.Got? && IdOk(s, c) && GivesUpWith(Step(s, e), c, reply) && !GivesUpWith(s, c, reply)
    ensures match reply
      case SendFailed => e == CmdSend(c, false) && InPhase(s, c, Pending)
      case TimedOut => e == CmdTimeout(c) && InPhase(s, c, Waiting) && c !in s.hub.sent
  {
    if !MovesCommand(e) {
      CmdsSame(s, e);
    }
  }

  /** A command that returns without a verdict had a closed channel, or a timer that fired while it had none. */
  lemma {:induction false} GaveUpBecause(states: seq<System>, events: seq<Event>, n: nat, c: CmdId, reply: Reply)
      returns (i: nat)
    requires Behaviour(states, events) && n <= |events| && !reply.Got? && GivesUpWith(states[n], c, reply)
    ensures i < n && GaveUpAt(states, events, i, c, reply)
  {
    if GivesUpWith(states[n - 1], c, reply) {
      i := GaveUpBecause(states, events, n - 1, c, reply);
    } else {
      i := n - 1;
      AlwaysInv(states, events, i);
      assert IdOk(states[i], c) && Took(states, events, i);
      GivingUpStep(states[i], events[i], c, reply);
    }
  }

  // ---- generations -------------------------------------------------------------------------------

  /** The generation was handed out and its registration has got past the map. */
  ghost predicate Entered(s: System, g: Gen) { g < s.hub.connGen && g !in s.fetched }

  /** The generation was handed out, and is neither on its way into the map nor in it. */
  ghost predicate Gone(s: System, g: Gen) {
    Entered(s, g) && forall d :: d in s.hub.conns ==> s.hub.conns[d] != g
  }

  /** A generation past the map can only be the given device's. */
  ghost predicate OnlyOf(s: System, g: Gen, dev: Device) {
    Entered(s, g) && forall d :: d in s.hub.conns && s.hub.conns[d] == g ==> d == dev
  }

  lemma OnlyOfStays(s: System, e: Event, g: Gen, dev: Device)
    requires OnlyOf(s, g, dev)
    ensures OnlyOf(Step(s, e), g, dev)
  {
    if !MovesConnection(e) {
      ConnsSame(s, e);
    }
  }

  lemma {:induction false} StaysWithDevice(states: seq<System>, events: seq<Event>, i: nat, j: nat, g: Gen, dev: Device)
    requires Behaviour(states, events) && i <= j < |states| && OnlyOf(states[i], g, dev)
    ensures OnlyOf(states[j], g, dev)
  {
    if i < j {
      StaysWithDevice(states, events, i, j - 1, g, dev);
      OnlyOfStays(states[j - 1], events[j - 1], g, dev);
      assert Took(states, events, j - 1);
    }
  }

  /** A generation that was in the map and is there no more is gone, however it left. */
  lemma LeftIsGone(states: seq<System>, events: seq<Event>, i: nat, j: nat, g: Gen, dev: Device)
    requires Behaviour(states, events) && i <= j < |states|
    requires Current(states[i].hub, dev) == Some(g) && Current(states[j].hub, dev) != Some(g)
    ensures Gone(states[j], g)
  {
    AlwaysInv(states, events, i);
    assert OnlyOf(states[i], g, dev);
    StaysWithDevice(states, events, i, j, g, dev);
  }

  lemma GoneStays(s: System, e: Event, g: Gen)
    requires Gone(s, g)
    ensures Gone(Step(s, e), g)
  {
    if !MovesConnection(e) {
      ConnsSame(s, e);
    }
  }

  /** A generation that has left the map never comes back, so it leaves at most once; and taking it
      down again changes nothing. */
  lemma {:induction false} LeavesOnce(states: seq<System>, events: seq<Event>, i: nat, j: nat, g: Gen, dev: Device)
    requires Behaviour(states, events) && i <= j < |states| && Gone(states[i], g)
    ensures Gone(states[j], g) && Step(states[j], Unregister(dev, g)) == states[j]
  {
    if i < j {
      LeavesOnce(states, events, i, j - 1, g, dev);
      GoneStays(states[j - 1], events[j - 1], g);
      assert Took(states, events, j - 1);
    }
  }

  /** A newer connection of the same device makes the older generation a leaver. */
  lemma SupersededIsGone(s: System, g: Gen, dev: Device)
    requires Inv(s) && g in s.fetched && s.fetched[g] == dev && dev in s.hub.conns
    ensures Gone(Step(s, RegInsert(g)), s.hub.conns[dev])
  {
  }
}
