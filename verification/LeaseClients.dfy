/** What the backend sends, its clients accept: no run makes one of them report a broken protocol. */
module LeaseClients {
  import opened Wrappers
  import opened Protocol
  import opened OperationLease

  /** The client once everything on its way has arrived; None where it would give up on the way. */
  function Replay(c: Client, frames: seq<Frame>): Option<Client> {
    if frames == [] then Some(c)
    else
      match Replay(c, frames[..|frames| - 1])
      case None => None
      case Some(later) => Deliver(later, frames[|frames| - 1])
  }

  /** The session fits the request it waits for. */
  predicate Coherent(c: Client) {
    c.asked.Some? ==>
      var p := c.asked.value;
      && (p.kind == Hello <==> !c.session.greeted)
      && (p.kind in {Begin, End} ==> c.session.lease.None?)
      && (p.kind in {KeepAlive, Write} ==> c.session.lease == Some(p.token))
  }

  /** What the backend's state and a connection's future have in common while the connection stands. */
  predicate Agrees(c: Conn, i: nat, owner: Option<nat>, generation: nat, observation: nat, future: Client) {
    && Coherent(future) && future.session.last <= observation
    && future.asked == (if c.uplink == [] then None else c.client.asked)
    && (c.role.Some? ==> future.session.greeted && future.session.generation == generation && future.session.held == owner.Some?)
    && (c.role.None? ==> c.downlink == [] && !c.client.session.greeted && c.client.session.lease.None?)
    && (future.session.lease.Some? ==> owner == Some(i) && future.session.lease.value == generation)
    && (c.uplink != [] && c.uplink[0].kind == End ==> owner == Some(i) && c.uplink[0].token == generation)
    && c.handled + |c.uplink| == |c.log|
  }

  predicate ConnOk(c: Conn, i: nat, owner: Option<nat>, generation: nat, observation: nat) {
    c.wants != GuiRole ==>
      && !c.violated
      && (c.role.Some? ==> c.role.value == c.wants)
      && (c.uplink != [] ==> c.alive && c.client.asked.Some? && c.uplink == [c.client.asked.value])
      && (c.client.asked.Some? ==> c.client.asked.value.request == |c.log|)
      && Coherent(c.client)
      && var future := Replay(c.client, c.downlink);
      && future.Some?
      && (c.alive ==> Agrees(c, i, owner, generation, observation, future.value))
  }

  // Replaying

  lemma ReplaySay(c: Client, frames: seq<Frame>, f: Frame)
    requires Replay(c, frames).Some?
    ensures Replay(c, frames + [f]) == Deliver(Replay(c, frames).value, f)
  {
    assert (frames + [f])[..|frames|] == frames;
  }

  lemma {:induction false} ReplayPrefix(c: Client, frames: seq<Frame>, k: nat)
    requires k <= |frames| && Replay(c, frames).Some?
    ensures Replay(c, frames[..k]).Some?
  {
    if k == |frames| {
      assert frames[..k] == frames;
    } else {
      var shorter := frames[..|frames| - 1];
      ReplayPrefix(c, shorter, k);
      assert shorter[..k] == frames[..k];
    }
  }

  lemma {:induction false} ReplayHead(c: Client, frames: seq<Frame>)
    requires frames != [] && Replay(c, frames).Some?
    ensures Deliver(c, frames[0]).Some?
    ensures Replay(Deliver(c, frames[0]).value, frames[1..]) == Replay(c, frames)
  {
    hide Deliver;
    var shorter := frames[..|frames| - 1];
    if |frames| == 1 {
      assert Replay(c, shorter) == Some(c);
    } else {
      ReplayHead(c, shorter);
      assert frames[1..][..|frames| - 2] == shorter[1..];
    }
  }

  lemma DeliverKeeps(c: Client, f: Frame)
    requires Deliver(c, f).Some?
    ensures var r := Deliver(c, f).value;
      && (f.Event? ==> r.asked == c.asked && r.session.lease == c.session.lease && r.session.greeted == c.session.greeted)
      && (f.Reply? ==> r.asked.None? && c.asked.Some?)
      && r.session.sources == c.session.sources
  {
  }

  /** Replies only ever take the question away; events leave lease, greeting and question alone. */
  lemma {:induction false} ReplayKeeps(c: Client, frames: seq<Frame>)
    requires Replay(c, frames).Some?
    ensures var r := Replay(c, frames).value;
      && (r.asked.Some? ==> r.asked == c.asked)
      && (r.asked == c.asked ==> r.session.lease == c.session.lease && r.session.greeted == c.session.greeted
                                 && forall f :: f in frames ==> f.Event?)
      && r.session.sources == c.session.sources
  {
    hide Deliver;
    if frames != [] {
      var shorter, f := frames[..|frames| - 1], frames[|frames| - 1];
      ReplayKeeps(c, shorter);
      DeliverKeeps(Replay(c, shorter).value, f);
      assert frames == shorter + [f];
    }
  }

  /** Asking changes nothing about the events under way; giving the lease back cannot make one wrong. */
  lemma {:induction false} ReplayAsking(c: Client, frames: seq<Frame>, p: Packet)
    requires c.asked.None? && Replay(c, frames).Some?
    ensures var r := Replay(c, frames).value;
      && Replay(c.(asked := Some(p)), frames) == Some(r.(asked := Some(p)))
      && var freed := c.session.(lease := None);
      && Replay(Client(freed, Some(p)), frames) == Some(Client(r.session.(lease := None), Some(p)))
  {
    if frames != [] {
      ReplayAsking(c, frames[..|frames| - 1], p);
      ReplayKeeps(c, frames);
      ReplayKeeps(c, frames[..|frames| - 1]);
    }
  }

  // What other connections hear

  /** A connection that owns nothing, before or after, hears of a new generation. */
  lemma HearsChange(c: Conn, i: nat, owner: Option<nat>, generation: nat, observation: nat, owner': Option<nat>)
    requires ConnOk(c, i, owner, generation, observation) && (c.alive ==> owner != Some(i)) && owner' != Some(i)
    ensures ConnOk(Told(c, LeaseEvent(owner', generation + 1)), i, owner', generation + 1, observation)
  {
    if c.wants != GuiRole && c.alive && c.role.Some? {
      ReplaySay(c.client, c.downlink, LeaseEvent(owner', generation + 1));
    }
  }

  lemma HearsWindow(c: Conn, i: nat, owner: Option<nat>, generation: nat, observation: nat, code: nat)
    requires ConnOk(c, i, owner, generation, observation) && code in {OK, BUSY}
    ensures ConnOk(Told(c, Event(WINDOW, 0, code, 0, [])), i, owner, generation, observation)
  {
    if c.wants != GuiRole && c.alive && c.role.Some? {
      ReplaySay(c.client, c.downlink, Event(WINDOW, 0, code, 0, []));
    }
  }

  lemma HearsObservation(c: Conn, i: nat, owner: Option<nat>, generation: nat, observation: nat, source: nat, payload: seq<byte>)
    requires ConnOk(c, i, owner, generation, observation)
    requires payload != [] && |payload| % 4 == 0 && source in {DEVICE, DERIVED, METERS}
    ensures ConnOk(Told(c, Event(OBSERVATION, 0, source, observation + 1, payload)), i, owner, generation, observation + 1)
  {
    if c.wants != GuiRole && c.alive && c.role.Some? && source in c.client.session.sources {
      ReplayKeeps(c.client, c.downlink);
      ReplaySay(c.client, c.downlink, Event(OBSERVATION, 0, source, observation + 1, payload));
    }
  }

  // What one connection does

  lemma SendsOk(c: Conn, i: nat, owner: Option<nat>, generation: nat, observation: nat, p: Packet)
    requires ConnOk(c, i, owner, generation, observation) && c.wants != GuiRole && MaySend(c, p)
    ensures ConnOk(Sent(c, p), i, owner, generation, observation)
  {
    ReplayAsking(c.client, c.downlink, p);
    ReplayKeeps(c.client, c.downlink);
    assert c.uplink == [];
    assert [] + [p] == [p];
  }

  lemma ReceivesOk(c: Conn, i: nat, owner: Option<nat>, generation: nat, observation: nat)
    requires ConnOk(c, i, owner, generation, observation) && c.downlink != []
    ensures ConnOk(Received(c), i, owner, generation, observation)
  {
    hide Hear, Answer;
    if c.wants != GuiRole {
      ReplayHead(c.client, c.downlink);
      ReplayKeeps(c.client, c.downlink);
      DeliverKeeps(c.client, c.downlink[0]);
      assert c.downlink[0] in c.downlink;
    }
  }

  /** A connection that is gone no longer depends on the backend's state. */
  ghost predicate GoneOk(c: Conn, i: nat, observation: nat, kept: nat) {
    forall owner, generation :: ConnOk(Gone(c, kept), i, owner, generation, observation)
  }

  lemma DropsOk(c: Conn, i: nat, owner: Option<nat>, generation: nat, observation: nat, kept: nat)
    requires ConnOk(c, i, owner, generation, observation)
    ensures GoneOk(c, i, observation, kept) && (c.uplink != [] ==> GoneOk(Taken(c), i, observation, kept))
  {
    if c.wants != GuiRole {
      ReplayPrefix(c.client, c.downlink, if kept < |c.downlink| then kept else |c.downlink|);
    }
  }

  // What the backend does with a request

  function Taken(c: Conn): Conn
    requires c.uplink != []
  {
    c.(uplink := c.uplink[1..], handled := c.uplink[0].request)
  }

  function ReplyTo(p: Packet, code: nat, generation: nat): Frame {
    Reply(Some(p.kind), p.request, code, generation, [])
  }

  /** A reply that moves no lease only takes the question away. */
  lemma PlainDeliver(c: Client, p: Packet, code: nat, generation: nat)
    requires c.asked == Some(p) && p.kind !in {Hello, End} && code in {OK, BUSY, INVALID, NOT_OWNER}
    requires (p.kind == Begin ==> code != OK) && (p.kind == KeepAlive ==> code == OK)
    requires p.kind in {KeepAlive, Write} ==> c.session.lease == Some(generation)
    ensures Deliver(c, ReplyTo(p, code, generation)) == Some(Client(c.session, None))
  {
  }

  /** A connection with a packet at the backend waits for the reply to it, under the lease it believes in. */
  lemma Waiting(c: Conn, i: nat, owner: Option<nat>, generation: nat, observation: nat)
    requires ConnOk(c, i, owner, generation, observation) && c.alive && c.uplink != [] && c.wants != GuiRole
    ensures Replay(c.client, c.downlink).Some?
    ensures var future := Replay(c.client, c.downlink).value;
      && future.asked == Some(c.uplink[0]) && Agrees(c, i, owner, generation, observation, future) && |c.uplink| == 1
      && (c.uplink[0].kind in {KeepAlive, Write} ==>
            future.session.lease == Some(generation) && owner == Some(i) && c.uplink[0].token == generation)
  {
    hide Replay;
  }

  /** Once the reply has arrived that leaves the session as it was, everything agrees as before. */
  lemma StillOk(c: Conn, i: nat, owner: Option<nat>, generation: nat, observation: nat, f: Frame)
    requires ConnOk(c, i, owner, generation, observation) && c.alive && |c.uplink| == 1 && c.role.Some? && c.wants != GuiRole
    requires Replay(c.client, c.downlink).Some? && Agrees(c, i, owner, generation, observation, Replay(c.client, c.downlink).value)
    requires Replay(c.client, c.downlink + [f]) == Some(Client(Replay(c.client, c.downlink).value.session, None))
    ensures ConnOk(Say(Taken(c), f), i, owner, generation, observation)
  {
    hide Replay;
  }

  lemma RepliesOk(c: Conn, i: nat, owner: Option<nat>, generation: nat, observation: nat, code: nat)
    requires ConnOk(c, i, owner, generation, observation) && c.alive && c.uplink != [] && c.role.Some?
    requires c.uplink[0].kind !in {Hello, End} && code in {OK, BUSY, INVALID, NOT_OWNER}
    requires c.uplink[0].kind == Begin ==> code != OK
    requires c.uplink[0].kind == KeepAlive && owner == Some(i) && c.uplink[0].token == generation ==> code == OK
    ensures ConnOk(Say(Taken(c), ReplyTo(c.uplink[0], code, generation)), i, owner, generation, observation)
  {
    if c.wants != GuiRole {
      hide Replay, Deliver, ConnOk, Agrees;
      Waiting(c, i, owner, generation, observation);
      PlainDeliver(Replay(c.client, c.downlink).value, c.uplink[0], code, generation);
      ReplaySay(c.client, c.downlink, ReplyTo(c.uplink[0], code, generation));
      StillOk(c, i, owner, generation, observation, ReplyTo(c.uplink[0], code, generation));
    }
  }

  /** The lease comes free, and END is acknowledged. */
  lemma DeliverEnd(c: Client, p: Packet, generation: nat)
    requires c.asked == Some(p) && p.kind == End && p.token == generation && c.session.lease.None? && c.session.generation == generation
    ensures var freed := c.session.(generation := generation + 1, held := false);
      && Deliver(c, LeaseEvent(None, generation + 1)) == Some(Client(freed, Some(p)))
      && Deliver(Client(freed, Some(p)), ReplyTo(p, OK, generation + 1)) == Some(Client(freed, None))
  {
  }

  lemma EndsOk(c: Conn, i: nat, generation: nat, observation: nat)
    requires ConnOk(c, i, Some(i), generation, observation) && c.alive && c.uplink != [] && c.role.Some?
    requires c.uplink[0].kind == End && c.uplink[0].token == generation
    ensures ConnOk(Say(Told(Taken(c), LeaseEvent(None, generation + 1)), ReplyTo(c.uplink[0], OK, generation + 1)), i, None, generation + 1, observation)
  {
    if c.wants != GuiRole {
      hide Replay;
      var event := LeaseEvent(None, generation + 1);
      var future := Replay(c.client, c.downlink).value;
      DeliverEnd(future, c.uplink[0], generation);
      ReplaySay(c.client, c.downlink, event);
      ReplaySay(c.client, c.downlink + [event], ReplyTo(c.uplink[0], OK, generation + 1));
      assert Taken(c).uplink == [];
    }
  }

  lemma BeginsOk(c: Conn, i: nat, generation: nat, observation: nat)
    requires ConnOk(c, i, None, generation, observation) && c.alive && c.uplink != [] && c.role.Some?
    requires c.uplink[0].kind == Begin
    ensures ConnOk(Told(Say(Taken(c), ReplyTo(c.uplink[0], OK, generation + 1)), LeaseEvent(Some(i), generation + 1)), i, Some(i), generation + 1, observation)
  {
    if c.wants != GuiRole {
      var reply := ReplyTo(c.uplink[0], OK, generation + 1);
      ReplaySay(c.client, c.downlink, reply);
      ReplaySay(c.client, c.downlink + [reply], LeaseEvent(Some(i), generation + 1));
    }
  }

  lemma GreetsOk(c: Conn, i: nat, owner: Option<nat>, generation: nat, observation: nat)
    requires ConnOk(c, i, owner, generation, observation) && c.alive && c.uplink != [] && c.role.None?
    requires c.uplink[0].kind == Hello && owner != Some(i)
    ensures ConnOk(Say(Say(Taken(c).(role := Some(c.wants)), ReplyTo(c.uplink[0], OK, generation)), LeaseEvent(owner, generation)), i, owner, generation, observation)
  {
    if c.wants != GuiRole {
      var reply := ReplyTo(c.uplink[0], OK, generation);
      ReplaySay(c.client, c.downlink, reply);
      ReplaySay(c.client, c.downlink + [reply], LeaseEvent(owner, generation));
    }
  }

  // The whole system

  ghost predicate AllOk(s: System) {
    forall i :: 0 <= i < |s.conns| ==> ConnOk(s.conns[i], i, s.owner, s.generation, s.observation)
  }

  ghost predicate OthersOk(s: System, i: nat) {
    forall k :: 0 <= k < |s.conns| && k != i ==> ConnOk(s.conns[k], k, s.owner, s.generation, s.observation)
  }

  lemma DroppedOk(s: System, i: nat, kept: nat)
    requires OwnerStands(s) && OthersOk(s, i) && i < |s.conns| && GoneOk(s.conns[i], i, s.observation, kept)
    ensures AllOk(Dropped(s, i, kept))
  {
    hide ConnOk, LeaseEvent;
    var c := s.conns[i];
    var s' := Dropped(s, i, kept);
    forall k | 0 <= k < |s.conns| ensures ConnOk(s'.conns[k], k, s'.owner, s'.generation, s'.observation) {
      if c.alive && s.owner == Some(i) && k != i {
        HearsChange(s.conns[k], k, s.owner, s.generation, s.observation, None);
      }
    }
  }

  lemma ServedOk(s: System, i: nat, valid: bool, refreshable: bool)
    requires OwnerStands(s) && AllOk(s) && i < |s.conns|
    requires s.conns[i].alive && s.conns[i].uplink != [] && s.conns[i].role.Some?
    ensures AllOk(Serve(s.(conns := s.conns[i := Taken(s.conns[i])]), i, s.conns[i].uplink[0], valid, refreshable))
  {
    hide ConnOk, LeaseEvent, Told, GoneOk;
    var c := s.conns[i];
    var p := c.uplink[0];
    var s0 := s.(conns := s.conns[i := Taken(c)]);
    var s' := Serve(s0, i, p, valid, refreshable);
    if p.kind == Hello {
      DropsOk(c, i, s.owner, s.generation, s.observation, |c.downlink|);
      DroppedOk(s0, i, |c.downlink|);
    } else if p.kind == Begin && s.owner.None? && c.role == Some(DeskRole) {
      BeginsOk(c, i, s.generation, s.observation);
      forall k | 0 <= k < |s.conns| ensures ConnOk(s'.conns[k], k, s'.owner, s'.generation, s'.observation) {
        if k != i {
          HearsChange(s.conns[k], k, s.owner, s.generation, s.observation, Some(i));
        }
      }
    } else if p.kind == End && HasLease(s, i, p.token) {
      EndsOk(c, i, s.generation, s.observation);
      forall k | 0 <= k < |s.conns| ensures ConnOk(s'.conns[k], k, s'.owner, s'.generation, s'.observation) {
        if k != i {
          HearsChange(s.conns[k], k, s.owner, s.generation, s.observation, None);
        }
      }
    } else if p.kind == Refresh && !(s.owner.Some? && !HasLease(s, i, p.token)) && refreshable {
      RepliesOk(c, i, s.owner, s.generation, s.observation, OK);
      forall k | 0 <= k < |s.conns| ensures ConnOk(s'.conns[k], k, s'.owner, s'.generation, s'.observation) {
        HearsWindow(if k == i then Say(Taken(c), ReplyTo(p, OK, s.generation)) else s.conns[k], k, s.owner, s.generation, s.observation, BUSY);
      }
    } else {
      PlainlyServed(s, i, valid, refreshable);
    }
  }

  /** The code of a reply that changes no lease. */
  function PlainCode(s: System, i: nat, p: Packet, valid: bool): nat
    requires i < |s.conns|
  {
    match p.kind
    case Begin => if s.conns[i].role != Some(DeskRole) then NOT_OWNER else BUSY
    case End => NOT_OWNER
    case KeepAlive => if HasLease(s, i, p.token) then OK else NOT_OWNER
    case Write => if !MayWrite(s, i, p.token) then BUSY else if !valid then INVALID else OK
    case _ => BUSY
  }

  lemma PlainlyServed(s: System, i: nat, valid: bool, refreshable: bool)
    requires OwnerStands(s) && AllOk(s) && i < |s.conns|
    requires s.conns[i].alive && s.conns[i].uplink != [] && s.conns[i].role.Some? && s.conns[i].uplink[0].kind != Hello
    requires var p := s.conns[i].uplink[0];
      && !(p.kind == Begin && s.owner.None? && s.conns[i].role == Some(DeskRole)) && !(p.kind == End && HasLease(s, i, p.token))
      && !(p.kind == Refresh && !(s.owner.Some? && !HasLease(s, i, p.token)) && refreshable)
    ensures AllOk(Serve(s.(conns := s.conns[i := Taken(s.conns[i])]), i, s.conns[i].uplink[0], valid, refreshable))
  {
    hide ConnOk, LeaseEvent, Told, GoneOk, MayWrite;
    var c := s.conns[i];
    var p := c.uplink[0];
    var s0 := s.(conns := s.conns[i := Taken(c)]);
    var s' := Serve(s0, i, p, valid, refreshable);
    var code := PlainCode(s, i, p, valid);
    MayWriteAlike(s, s0, i, p.token);
    assert s'.conns == s.conns[i := Say(Taken(c), ReplyTo(p, code, s.generation))];
    if p.kind == End {
      EndHolds(c, i, s.owner, s.generation, s.observation);
      MixersAreFree(Say(Taken(c), ReplyTo(p, code, s.generation)), i, s.owner, s.generation, s.observation);
    } else {
      RepliesOk(c, i, s.owner, s.generation, s.observation, code);
    }
  }

  lemma MayWriteAlike(s: System, t: System, i: nat, token: nat)
    requires i < |s.conns| && |t.conns| == |s.conns| && t.conns[i].role == s.conns[i].role
    requires t.owner == s.owner && t.generation == s.generation
    ensures MayWrite(t, i, token) == MayWrite(s, i, token)
  {
  }

  /** An END under way holds the lease it gives back. */
  lemma EndHolds(c: Conn, i: nat, owner: Option<nat>, generation: nat, observation: nat)
    requires ConnOk(c, i, owner, generation, observation) && c.alive && c.uplink != [] && c.uplink[0].kind == End
    ensures c.wants != GuiRole ==> owner == Some(i) && c.uplink[0].token == generation
  {
  }

  lemma MixersAreFree(c: Conn, i: nat, owner: Option<nat>, generation: nat, observation: nat)
    ensures c.wants == GuiRole ==> ConnOk(c, i, owner, generation, observation)
  {
  }

  lemma DispatchedOk(s: System, i: nat, valid: bool, refreshable: bool)
    requires OwnerStands(s) && AllOk(s) && i < |s.conns| && s.conns[i].alive && s.conns[i].uplink != []
    ensures AllOk(Dispatch(s, i, valid, refreshable))
  {
    hide ConnOk, LeaseEvent, Told, GoneOk, Serve, Dropped;
    var c := s.conns[i];
    var p := c.uplink[0];
    var s0 := s.(conns := s.conns[i := Taken(c)]);
    DropsOk(c, i, s.owner, s.generation, s.observation, |c.downlink|);
    if p.request != c.handled + 1 {
      DroppedOk(s, i, |c.downlink|);
    } else if c.role.Some? {
      ServedOk(s, i, valid, refreshable);
    } else if p.kind == Hello {
      GreetsOk(c, i, s.owner, s.generation, s.observation);
    } else {
      DroppedOk(s0, i, |c.downlink|);
    }
  }

  lemma StepOk(s: System, step: Step)
    requires OwnerStands(s) && AllOk(s)
    ensures AllOk(Next(s, step))
  {
    hide ConnOk, LeaseEvent, Told, GoneOk, Dispatch, Dropped, MaySend, Sent, Received;
    var s' := Next(s, step);
    match step
    case Accept(wants, sources) =>
      FreshOk(wants, sources, |s.conns|, s.owner, s.generation, s.observation);
    case Send(i, p) =>
      if i < |s.conns| && s.conns[i].open {
        if s.conns[i].wants == GuiRole {
          MixersAreFree(s.conns[i].(uplink := s.conns[i].uplink + [p]), i, s.owner, s.generation, s.observation);
        } else if MaySend(s.conns[i], p) {
          SendsOk(s.conns[i], i, s.owner, s.generation, s.observation, p);
        }
      }
    case Handle(i, valid, refreshable) =>
      if i < |s.conns| && s.conns[i].alive && s.conns[i].uplink != [] {
        DispatchedOk(s, i, valid, refreshable);
      }
    case Receive(i) =>
      if i < |s.conns| && s.conns[i].open && s.conns[i].downlink != [] {
        ReceivesOk(s.conns[i], i, s.owner, s.generation, s.observation);
      }
    case Close(i) =>
      if i < |s.conns| {
        ClosesOk(s.conns[i], i, s.owner, s.generation, s.observation);
      }
    case Drop(i, kept) =>
      if i < |s.conns| {
        DropsOk(s.conns[i], i, s.owner, s.generation, s.observation, kept);
        DroppedOk(s, i, kept);
      }
    case Observe(source, payload) =>
      if payload != [] && |payload| % 4 == 0 && source in {DEVICE, DERIVED, METERS} {
        forall k | 0 <= k < |s.conns| ensures ConnOk(s'.conns[k], k, s'.owner, s'.generation, s'.observation) {
          HearsObservation(s.conns[k], k, s.owner, s.generation, s.observation, source, payload);
        }
      }
    case WindowChange(code) =>
      if code in {OK, BUSY} {
        forall k | 0 <= k < |s.conns| ensures ConnOk(s'.conns[k], k, s'.owner, s'.generation, s'.observation) {
          HearsWindow(s.conns[k], k, s.owner, s.generation, s.observation, code);
        }
      }
  }

  lemma FreshOk(wants: Role, sources: set<nat>, i: nat, owner: Option<nat>, generation: nat, observation: nat)
    ensures ConnOk(Fresh(wants, sources), i, owner, generation, observation)
  {
  }

  lemma ClosesOk(c: Conn, i: nat, owner: Option<nat>, generation: nat, observation: nat)
    requires ConnOk(c, i, owner, generation, observation)
    ensures ConnOk(c.(open := false), i, owner, generation, observation)
  {
  }

  lemma {:induction false} RunOk(steps: seq<Step>)
    ensures AllOk(Run(steps))
  {
    hide Next, ConnOk;
    if steps != [] {
      var before := steps[..|steps| - 1];
      RunOk(before);
      OneOwnerWrites(before);
      OwnedStands(Run(before));
      StepOk(Run(before), steps[|steps| - 1]);
    }
  }

  /**
   * However replies are lost, connections break and leases expire, no desk or reader connection
   * ever meets a packet it has to report as a broken protocol: neither one it has read, nor one
   * still on its way.
   */
  lemma NoRunBreaksTheProtocol(steps: seq<Step>, i: nat)
    requires i < |Run(steps).conns| && Run(steps).conns[i].wants != GuiRole
    ensures var c := Run(steps).conns[i]; !c.violated && Replay(c.client, c.downlink).Some?
  {
    RunOk(steps);
    assert ConnOk(Run(steps).conns[i], i, Run(steps).owner, Run(steps).generation, Run(steps).observation);
  }

  /** While the backend keeps a connection, the lease its client believes in is the one in force. */
  lemma BelievedLeaseIsHeld(steps: seq<Step>, i: nat)
    requires i < |Run(steps).conns|
    ensures var s := Run(steps); var c := s.conns[i];
      c.alive && c.wants != GuiRole && c.client.session.lease.Some? ==>
        s.owner == Some(i) && c.client.session.lease.value == s.generation
  {
    hide ConnOk;
    var s := Run(steps);
    RunOk(steps);
    Believed(s.conns[i], i, s.owner, s.generation, s.observation);
  }

  lemma Believed(c: Conn, i: nat, owner: Option<nat>, generation: nat, observation: nat)
    requires ConnOk(c, i, owner, generation, observation)
    ensures c.alive && c.wants != GuiRole && c.client.session.lease.Some? ==> owner == Some(i) && c.client.session.lease.value == generation
  {
    if c.alive && c.wants != GuiRole && c.client.session.lease.Some? {
      ReplayKeeps(c.client, c.downlink);
      AnswerKeepsLease(c.client, c.downlink);
    }
  }

  /** Only the answer to BEGIN sets a lease, and nothing but giving it back takes one away. */
  lemma {:induction false} AnswerKeepsLease(c: Client, frames: seq<Frame>)
    requires Replay(c, frames).Some? && (c.asked.Some? && c.asked.value.kind == Begin ==> c.session.lease.None?)
    ensures var r := Replay(c, frames).value;
      c.session.lease.Some? ==> r.session.lease == c.session.lease && (r.asked.Some? ==> r.asked == c.asked)
  {
    hide Hear;
    if frames != [] {
      AnswerKeepsLease(c, frames[..|frames| - 1]);
      HearKeepsLease(Replay(c, frames[..|frames| - 1]).value.session, frames[|frames| - 1]);
    }
  }

  lemma HearKeepsLease(s: Session, f: Frame)
    ensures f.Event? && Hear(s, f).Some? ==> Hear(s, f).value.lease == s.lease
  {
  }
}
