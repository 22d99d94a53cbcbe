/** What a client knows of its writes from the replies it got, against what the backend carried out. */
module WriteAccounts {
  import opened Wrappers
  import opened Protocol
  import opened OperationLease
  import opened LeaseClients

  /** The backend carried out request r of connection i. */
  ghost predicate Done(trace: seq<Processed>, i: nat, r: nat) {
    exists k :: 0 <= k < |trace| && trace[k].writer == i && trace[k].request == r
  }

  /** An entry of a client's log states the truth: OK means carried out, any other answer means not. */
  ghost predicate EntryTrue(e: Entry, r: nat, i: nat, trace: seq<Processed>) {
    && e.packet.request == r
    && (e.answer.Some? && e.packet.kind == Write ==> (e.answer.value == OK <==> Done(trace, i, r)))
  }

  /** A write carried out is one the client sent, and one the backend has read. */
  ghost predicate Accounted(e: Processed, c: Conn) {
    && 1 <= e.request <= c.handled <= |c.log|
    && c.log[e.request - 1].packet.kind == Write && c.log[e.request - 1].packet.path == e.path
  }

  /** A reply still on its way answers the last request, and says whether that was carried out. */
  ghost predicate ReplyTrue(f: Frame, c: Conn, i: nat, trace: seq<Processed>) {
    f.Reply? ==>
      && c.client.asked.Some? && f.request == |c.log| == c.handled
      && (c.client.asked.value.kind == Write ==> (f.code == OK <==> Done(trace, i, |c.log|)))
  }

  ghost predicate LogOk(c: Conn, i: nat, trace: seq<Processed>) {
    c.wants != GuiRole ==>
      && c.handled <= |c.log|
      && (forall k :: 0 <= k < |c.log| ==> EntryTrue(c.log[k], k + 1, i, trace))
      && (c.client.asked.Some? ==> |c.log| > 0 && c.log[|c.log| - 1] == Entry(c.client.asked.value, None))
      && (forall k :: 0 <= k < |trace| && trace[k].writer == i ==> Accounted(trace[k], c))
      && (forall k :: 0 <= k < |c.downlink| ==> ReplyTrue(c.downlink[k], c, i, trace))
      && (forall j, k :: 0 <= j < k < |trace| && trace[j].writer == i && trace[k].writer == i ==> trace[j].request < trace[k].request)
  }

  lemma DoneAfter(trace: seq<Processed>, e: Processed)
    ensures forall i, r :: Done(trace + [e], i, r) <==> Done(trace, i, r) || (e.writer == i && e.request == r)
  {
    forall i, r ensures Done(trace + [e], i, r) <==> Done(trace, i, r) || (e.writer == i && e.request == r) {
      var longer := trace + [e];
      assert longer[|trace|] == e;
      if Done(trace, i, r) {
        var k :| 0 <= k < |trace| && trace[k].writer == i && trace[k].request == r;
        assert longer[k] == trace[k];
      }
    }
  }

  /** Somebody else's write. */
  lemma OthersWrite(c: Conn, i: nat, trace: seq<Processed>, e: Processed)
    requires LogOk(c, i, trace) && e.writer != i
    ensures LogOk(c, i, trace + [e])
  {
    hide Done;
    DoneAfter(trace, e);
    if c.wants != GuiRole {
      forall k | 0 <= k < |c.log| ensures EntryTrue(c.log[k], k + 1, i, trace + [e]) {
        assert EntryTrue(c.log[k], k + 1, i, trace);
      }
    }
  }

  /** Nothing but events and what was already on its way. */
  lemma OnlyEvents(c: Conn, c': Conn, i: nat, trace: seq<Processed>)
    requires LogOk(c, i, trace) && c'.wants == c.wants && c'.log == c.log && c'.client.asked == c.client.asked
    requires c.handled <= c'.handled <= |c'.log|
    requires forall f :: f in c'.downlink && f.Reply? ==> f in c.downlink
    ensures LogOk(c', i, trace)
  {
    hide Done;
    if c.wants != GuiRole {
      forall k | 0 <= k < |c'.downlink| ensures ReplyTrue(c'.downlink[k], c', i, trace) {
        if c'.downlink[k].Reply? {
          assert c'.downlink[k] in c.downlink;
          var j :| 0 <= j < |c.downlink| && c.downlink[j] == c'.downlink[k];
          assert ReplyTrue(c.downlink[j], c, i, trace);
        }
      }
      forall k | 0 <= k < |trace| && trace[k].writer == i ensures Accounted(trace[k], c') {
        assert Accounted(trace[k], c);
      }
    }
  }

  /** The pending request is read and answered; it is carried out exactly when a write is answered OK. */
  lemma Replied(c: Conn, c': Conn, i: nat, trace: seq<Processed>, trace': seq<Processed>, code: nat, generation: nat)
    requires LogOk(c, i, trace) && c.wants != GuiRole && c.client.asked.Some? && c.handled + 1 == |c.log| == c'.handled
    requires c'.wants == c.wants && c'.log == c.log && c'.client.asked == c.client.asked
    requires forall f :: f in c'.downlink && f.Reply? ==> f in c.downlink || (f.request == |c.log| && f.code == code)
    requires var p := c.client.asked.value;
      trace' == if p.kind == Write && code == OK then trace + [Processed(i, |c.log|, p.path, generation)] else trace
    ensures LogOk(c', i, trace')
  {
    hide Done;
    var p := c.client.asked.value;
    var e := Processed(i, |c.log|, p.path, generation);
    DoneAfter(trace, e);
    NotYetDone(c, i, trace);
    forall k | 0 <= k < |c'.log| ensures EntryTrue(c'.log[k], k + 1, i, trace') {
      assert EntryTrue(c.log[k], k + 1, i, trace);
    }
    forall k | 0 <= k < |c.downlink| ensures c.downlink[k].Event? {
      assert ReplyTrue(c.downlink[k], c, i, trace);
    }
    forall k | 0 <= k < |c'.downlink| ensures ReplyTrue(c'.downlink[k], c', i, trace') {
      assert c'.downlink[k] in c'.downlink;
    }
    forall k | 0 <= k < |trace'| && trace'[k].writer == i ensures Accounted(trace'[k], c') {
      if k < |trace| {
        assert trace'[k] == trace[k] && Accounted(trace[k], c);
      }
    }
    forall j, k | 0 <= j < k < |trace'| && trace'[j].writer == i && trace'[k].writer == i ensures trace'[j].request < trace'[k].request {
      assert trace'[j] == trace[j] && Accounted(trace[j], c);
      assert k < |trace| ==> trace'[k] == trace[k];
    }
  }

  lemma NotYetDone(c: Conn, i: nat, trace: seq<Processed>)
    requires LogOk(c, i, trace) && c.wants != GuiRole
    ensures forall r :: r > c.handled ==> !Done(trace, i, r)
  {
    forall r | r > c.handled ensures !Done(trace, i, r) {
      forall k | 0 <= k < |trace| && trace[k].writer == i ensures trace[k].request != r {
        assert Accounted(trace[k], c);
      }
    }
  }

  lemma SentLogged(c: Conn, i: nat, trace: seq<Processed>, p: Packet)
    requires LogOk(c, i, trace) && c.wants != GuiRole && MaySend(c, p)
    ensures LogOk(Sent(c, p), i, trace)
  {
    hide Done;
    var c' := Sent(c, p);
    forall k | 0 <= k < |c'.log| ensures EntryTrue(c'.log[k], k + 1, i, trace) {
      assert k < |c.log| ==> c'.log[k] == c.log[k] && EntryTrue(c.log[k], k + 1, i, trace);
    }
    forall k | 0 <= k < |trace| && trace[k].writer == i ensures Accounted(trace[k], c') {
      assert Accounted(trace[k], c);
    }
    forall k | 0 <= k < |c'.downlink| ensures ReplyTrue(c'.downlink[k], c', i, trace) {
      assert ReplyTrue(c.downlink[k], c, i, trace);
    }
  }

  lemma ReceivedLogged(c: Conn, i: nat, trace: seq<Processed>)
    requires LogOk(c, i, trace) && c.downlink != [] && (c.wants != GuiRole ==> Replay(c.client, c.downlink).Some?)
    ensures LogOk(Received(c), i, trace)
  {
    hide Done, Hear, Answer;
    var f, rest := c.downlink[0], c.downlink[1..];
    if c.wants == GuiRole {
    } else if f.Event? {
      assert forall g :: g in rest ==> g in c.downlink;
      OnlyEvents(c, Received(c), i, trace);
    } else {
      ReplayHead(c.client, c.downlink);
      DeliverKeeps(c.client, f);
      ReplayKeeps(Deliver(c.client, f).value, rest);
      assert ReplyTrue(c.downlink[0], c, i, trace);
      var c' := Received(c);
      forall k | 0 <= k < |c'.downlink| ensures ReplyTrue(c'.downlink[k], c', i, trace) {
        assert c'.downlink[k] in rest;
      }
      forall k | 0 <= k < |c'.log| ensures EntryTrue(c'.log[k], k + 1, i, trace) {
        assert EntryTrue(c.log[k], k + 1, i, trace);
      }
      forall k | 0 <= k < |trace| && trace[k].writer == i ensures Accounted(trace[k], c') {
        assert Accounted(trace[k], c);
      }
    }
  }

  // The whole system

  ghost predicate LogsOk(s: System) {
    forall i :: 0 <= i < |s.conns| ==> LogOk(s.conns[i], i, s.trace)
  }

  /** A step that carries nothing out and lets one connection, or none, change otherwise than by events. */
  lemma Quietly(s: System, s': System, i: nat)
    requires LogsOk(s) && |s'.conns| == |s.conns| && s'.trace == s.trace
    requires i < |s.conns| ==> LogOk(s'.conns[i], i, s.trace)
    requires forall k :: 0 <= k < |s.conns| && k != i ==> Overheard(s.conns[k], s'.conns[k])
    ensures LogsOk(s')
  {
    hide LogOk, Overheard;
    forall k | 0 <= k < |s'.conns| ensures LogOk(s'.conns[k], k, s'.trace) {
      if k != i {
        OverheardLogged(s.conns[k], s'.conns[k], k, s.trace);
      }
    }
  }

  /** A connection to which nothing but events happened. */
  ghost predicate Overheard(c: Conn, c': Conn) {
    && c'.wants == c.wants && c'.log == c.log && c'.client == c.client && c'.handled == c.handled
    && forall f :: f in c'.downlink && f.Reply? ==> f in c.downlink
  }

  lemma OverheardLogged(c: Conn, c': Conn, i: nat, trace: seq<Processed>)
    requires LogOk(c, i, trace) && Overheard(c, c')
    ensures LogOk(c', i, trace)
  {
    if c.wants != GuiRole {
      OnlyEvents(c, c', i, trace);
    }
  }

  /** What a request does to the logs' side of the connection it came from. */
  ghost predicate Handled(c: Conn, c': Conn, i: nat, trace: seq<Processed>, trace': seq<Processed>, code: nat, generation: nat)
    requires c.uplink != []
  {
    var p := c.uplink[0];
    && c'.wants == c.wants && c'.log == c.log && c'.client == c.client && c'.handled == p.request
    && (forall f :: f in c'.downlink && f.Reply? ==> f in c.downlink || (f.request == p.request && f.code == code))
    && trace' == if p.kind == Write && code == OK then trace + [Processed(i, p.request, p.path, generation)] else trace
  }

  /** The code a request is answered with; irrelevant where it ends the connection. */
  function CodeOf(s: System, i: nat, p: Packet, valid: bool, refreshable: bool): nat
    requires i < |s.conns|
  {
    match p.kind
    case Hello => OK
    case Begin => if s.conns[i].role != Some(DeskRole) then NOT_OWNER else if s.owner.Some? then BUSY else OK
    case End => if HasLease(s, i, p.token) then OK else NOT_OWNER
    case KeepAlive => if HasLease(s, i, p.token) then OK else NOT_OWNER
    case Write => if !MayWrite(s, i, p.token) then BUSY else if !valid then INVALID else OK
    case Refresh => if (s.owner.Some? && !HasLease(s, i, p.token)) || !refreshable then BUSY else OK
  }

  lemma ToldOverheard(c: Conn, f: Frame)
    requires f.Event?
    ensures Overheard(c, Told(c, f)) && Overheard(c, c)
  {
  }

  /** The others at most hear an event. */
  lemma ServeOverheard(s: System, i: nat, p: Packet, valid: bool, refreshable: bool, k: nat)
    requires i < |s.conns| && s.conns[i].alive && k < |s.conns| && k != i
    ensures |Serve(s, i, p, valid, refreshable).conns| == |s.conns|
    ensures Overheard(s.conns[k], Serve(s, i, p, valid, refreshable).conns[k])
  {
    hide MayWrite, HasLease, Overheard, Told;
    match p.kind
    case Hello =>
      ToldOverheard(s.conns[k], LeaseEvent(None, s.generation + 1));
    case Begin =>
      ToldOverheard(s.conns[k], LeaseEvent(Some(i), s.generation + 1));
    case End =>
      ToldOverheard(s.conns[k], LeaseEvent(None, s.generation + 1));
    case Refresh =>
      ToldOverheard(s.conns[k], Event(WINDOW, 0, BUSY, 0, []));
    case _ =>
      ToldOverheard(s.conns[k], Event(WINDOW, 0, BUSY, 0, []));
  }

  /** At most one reply was added, with this number and code. */
  ghost predicate Answering(c: Conn, c': Conn, request: nat, code: nat) {
    && c'.wants == c.wants && c'.log == c.log && c'.client == c.client && c'.handled == c.handled
    && forall f :: f in c'.downlink && f.Reply? ==> f in c.downlink || (f.request == request && f.code == code)
  }

  lemma AnsweringToo(c: Conn, c': Conn, f: Frame, request: nat, code: nat)
    requires Answering(c, c', request, code) && (f.Reply? ==> f.request == request && f.code == code)
    ensures Answering(c, Say(c', f), request, code) && (f.Event? ==> Answering(c, Told(c', f), request, code))
  {
  }

  lemma AnsweringNone(c: Conn, request: nat, code: nat)
    ensures Answering(c, c, request, code) && Answering(c, Gone(c, |c.downlink|), request, code)
  {
  }

  /** What the answer adds to a connection's packets: one reply with this code, or nothing at all. */
  lemma ServeReplies(s: System, i: nat, p: Packet, valid: bool, refreshable: bool)
    requires i < |s.conns| && s.conns[i].alive && s.conns[i].role.Some?
    ensures Answering(s.conns[i], Serve(s, i, p, valid, refreshable).conns[i], p.request, CodeOf(s, i, p, valid, refreshable))
  {
    hide MayWrite, HasLease, Answering, Told, Say;
    var c, r, code := s.conns[i], p.request, CodeOf(s, i, p, valid, refreshable);
    AnsweringNone(c, r, code);
    var g := s.generation + 1;
    match p.kind
    case Hello =>
      AnsweringToo(c, Gone(c, |c.downlink|), LeaseEvent(None, g), r, code);
    case Begin =>
      var reply := Reply(Some(p.kind), r, code, g, []);
      AnsweringToo(c, c, reply, r, code);
      AnsweringToo(c, Say(c, reply), LeaseEvent(Some(i), g), r, code);
      AnsweringToo(c, c, Reply(Some(p.kind), r, code, s.generation, []), r, code);
    case End =>
      AnsweringToo(c, c, LeaseEvent(None, g), r, code);
      AnsweringToo(c, Told(c, LeaseEvent(None, g)), Reply(Some(p.kind), r, code, g, []), r, code);
      AnsweringToo(c, c, Reply(Some(p.kind), r, code, s.generation, []), r, code);
    case Refresh =>
      var reply := Reply(Some(p.kind), r, code, s.generation, []);
      AnsweringToo(c, c, reply, r, code);
      AnsweringToo(c, Say(c, reply), Event(WINDOW, 0, BUSY, 0, []), r, code);
    case _ =>
      AnsweringToo(c, c, Reply(Some(p.kind), r, code, s.generation, []), r, code);
  }

  lemma ServeHandled(s: System, i: nat, valid: bool, refreshable: bool)
    requires i < |s.conns| && s.conns[i].alive && s.conns[i].uplink != [] && s.conns[i].role.Some?
    ensures var s0 := s.(conns := s.conns[i := Taken(s.conns[i])]);
      var p := s.conns[i].uplink[0];
      var s' := Serve(s0, i, p, valid, refreshable);
      && |s'.conns| == |s.conns|
      && Handled(s.conns[i], s'.conns[i], i, s.trace, s'.trace, CodeOf(s0, i, p, valid, refreshable), s.generation)
      && forall k :: 0 <= k < |s.conns| && k != i ==> Overheard(s.conns[k], s'.conns[k])
  {
    hide MayWrite, HasLease, LeaseEvent, Serve, Overheard;
    var s0 := s.(conns := s.conns[i := Taken(s.conns[i])]);
    var p := s.conns[i].uplink[0];
    var s' := Serve(s0, i, p, valid, refreshable);
    forall k | 0 <= k < |s.conns| && k != i ensures |s'.conns| == |s.conns| && Overheard(s.conns[k], s'.conns[k]) {
      ServeOverheard(s0, i, p, valid, refreshable, k);
    }
    ServeCount(s0, i, p, valid, refreshable);
    ServeReplies(s0, i, p, valid, refreshable);
    ServeTrace(s0, i, p, valid, refreshable);
  }

  lemma ServeCount(s: System, i: nat, p: Packet, valid: bool, refreshable: bool)
    requires i < |s.conns|
    ensures |Serve(s, i, p, valid, refreshable).conns| == |s.conns|
  {
    hide MayWrite, HasLease, LeaseEvent;
  }

  lemma ServeTrace(s: System, i: nat, p: Packet, valid: bool, refreshable: bool)
    requires i < |s.conns|
    ensures Serve(s, i, p, valid, refreshable).trace ==
      if p.kind == Write && CodeOf(s, i, p, valid, refreshable) == OK then s.trace + [Processed(i, p.request, p.path, s.generation)] else s.trace
  {
    hide MayWrite, HasLease;
    if !(p.kind == Write && MayWrite(s, i, p.token) && valid) {
      OtherwiseUnwritten(s, i, p, valid, refreshable);
    }
  }

  // Each step

  lemma HandledLogged(c: Conn, c': Conn, i: nat, owner: Option<nat>, generation: nat, observation: nat, trace: seq<Processed>, trace': seq<Processed>, code: nat)
    requires LogOk(c, i, trace) && ConnOk(c, i, owner, generation, observation) && c.alive && c.uplink != [] && c.handled + 1 == c.uplink[0].request
    requires Handled(c, c', i, trace, trace', code, generation)
    ensures LogOk(c', i, trace')
  {
    hide LogOk, Replay, Coherent;
    if c.wants != GuiRole {
      Replied(c, c', i, trace, trace', code, generation);
    } else {
      MixersLogNothing(c', i, trace');
    }
  }

  lemma MixersLogNothing(c: Conn, i: nat, trace: seq<Processed>)
    ensures c.wants == GuiRole ==> LogOk(c, i, trace)
  {
  }

  lemma ServedLogged(s: System, i: nat, valid: bool, refreshable: bool)
    requires AllOk(s) && LogsOk(s) && i < |s.conns| && s.conns[i].alive && s.conns[i].uplink != [] && s.conns[i].role.Some?
    requires s.conns[i].handled + 1 == s.conns[i].uplink[0].request
    ensures LogsOk(Serve(s.(conns := s.conns[i := Taken(s.conns[i])]), i, s.conns[i].uplink[0], valid, refreshable))
  {
    hide LogOk, ConnOk, Serve, CodeOf, Overheard, Handled;
    ServeHandled(s, i, valid, refreshable);
    var s0 := s.(conns := s.conns[i := Taken(s.conns[i])]);
    var p := s.conns[i].uplink[0];
    var s' := Serve(s0, i, p, valid, refreshable);
    HandledLogged(s.conns[i], s'.conns[i], i, s.owner, s.generation, s.observation, s.trace, s'.trace, CodeOf(s0, i, p, valid, refreshable));
    forall k | 0 <= k < |s.conns| && k != i ensures LogOk(s'.conns[k], k, s'.trace) {
      OverheardLogged(s.conns[k], s'.conns[k], k, s.trace);
      ServeTrace(s0, i, p, valid, refreshable);
      if s'.trace != s.trace {
        OthersWrite(s'.conns[k], k, s.trace, Processed(i, p.request, p.path, s.generation));
      }
    }
  }

  lemma GoneOverheard(c: Conn, kept: nat)
    ensures Overheard(c, Gone(c, kept))
  {
  }

  lemma DroppedLogged(s: System, i: nat, kept: nat)
    requires LogsOk(s) && i < |s.conns|
    ensures LogsOk(Dropped(s, i, kept))
  {
    hide LogOk, Overheard;
    var s' := Dropped(s, i, kept);
    GoneOverheard(s.conns[i], kept);
    forall k | 0 <= k < |s.conns| ensures Overheard(s.conns[k], s'.conns[k]) {
      ToldOverheard(s.conns[k], LeaseEvent(None, s.generation + 1));
    }
    OverheardLogged(s.conns[i], s'.conns[i], i, s.trace);
    Quietly(s, s', i);
  }

  lemma DispatchLogged(s: System, i: nat, valid: bool, refreshable: bool)
    requires AllOk(s) && LogsOk(s) && i < |s.conns| && s.conns[i].alive && s.conns[i].uplink != []
    ensures LogsOk(Dispatch(s, i, valid, refreshable))
  {
    hide LogOk, ConnOk, Serve, Dropped, LeaseEvent;
    var c := s.conns[i];
    var p := c.uplink[0];
    var s0 := s.(conns := s.conns[i := Taken(c)]);
    if p.request != c.handled + 1 {
      DroppedLogged(s, i, |c.downlink|);
    } else if c.role.Some? {
      ServedLogged(s, i, valid, refreshable);
    } else if p.kind == Hello {
      var s' := Dispatch(s, i, valid, refreshable);
      assert Handled(c, s'.conns[i], i, s.trace, s'.trace, OK, s.generation) by { GreetHandled(s, i); }
      HandledLogged(c, s'.conns[i], i, s.owner, s.generation, s.observation, s.trace, s'.trace, OK);
      forall k | 0 <= k < |s.conns| && k != i ensures Overheard(s.conns[k], s'.conns[k]) {
      }
      Quietly(s, s', i);
    } else {
      TakenLogged(c, i, s.owner, s.generation, s.observation, s.trace);
      DroppedLogged(s0, i, |c.downlink|);
    }
  }

  lemma GreetHandled(s: System, i: nat)
    requires i < |s.conns| && s.conns[i].uplink != [] && s.conns[i].uplink[0].kind == Hello
    ensures var s' := Greet(s.(conns := s.conns[i := Taken(s.conns[i])]), i, s.conns[i].uplink[0]);
      Handled(s.conns[i], s'.conns[i], i, s.trace, s'.trace, OK, s.generation)
  {
  }

  /** Reading a request that is not answered tells nothing. */
  lemma TakenLogged(c: Conn, i: nat, owner: Option<nat>, generation: nat, observation: nat, trace: seq<Processed>)
    requires LogOk(c, i, trace) && ConnOk(c, i, owner, generation, observation) && c.alive && c.uplink != [] && c.handled + 1 == c.uplink[0].request
    requires c.role.None?
    ensures LogOk(Taken(c), i, trace)
  {
    hide Replay, Coherent, ReplyTrue, EntryTrue;
    if c.wants != GuiRole {
      forall k | 0 <= k < |trace| && trace[k].writer == i ensures Accounted(trace[k], Taken(c)) {
        assert Accounted(trace[k], c);
      }
    }
  }

  lemma StepLogged(s: System, step: Step)
    requires Owned(s) && AllOk(s) && LogsOk(s)
    ensures LogsOk(Next(s, step))
  {
    hide LogOk, ConnOk, LeaseEvent, Dispatch, Dropped, MaySend, Sent, Received, Overheard, Told, Owned;
    var s' := Next(s, step);
    match step
    case Accept(wants, sources) =>
      FreshLogged(s, wants, sources);
    case Send(i, p) =>
      if i < |s.conns| && s.conns[i].open {
        if s.conns[i].wants == GuiRole {
          MixersLogNothing(s.conns[i].(uplink := s.conns[i].uplink + [p]), i, s.trace);
        } else if MaySend(s.conns[i], p) {
          SentLogged(s.conns[i], i, s.trace, p);
        }
      }
    case Handle(i, valid, refreshable) =>
      if i < |s.conns| && s.conns[i].alive && s.conns[i].uplink != [] {
        DispatchLogged(s, i, valid, refreshable);
      }
    case Receive(i) =>
      if i < |s.conns| && s.conns[i].open && s.conns[i].downlink != [] {
        ReplaySome(s.conns[i], i, s.owner, s.generation, s.observation);
        ReceivedLogged(s.conns[i], i, s.trace);
      }
    case Close(i) =>
      if i < |s.conns| {
        ClosedOverheard(s.conns[i]);
        OverheardLogged(s.conns[i], s.conns[i].(open := false), i, s.trace);
      }
    case Drop(i, kept) =>
      if i < |s.conns| {
        DroppedLogged(s, i, kept);
      }
    case Observe(source, payload) =>
      if payload != [] && |payload| % 4 == 0 && source in {DEVICE, DERIVED, METERS} {
        forall k | 0 <= k < |s.conns| ensures LogOk(s'.conns[k], k, s'.trace) {
          ToldOverheard(s.conns[k], Event(OBSERVATION, 0, source, s.observation + 1, payload));
          OverheardLogged(s.conns[k], s'.conns[k], k, s.trace);
        }
      }
    case WindowChange(code) =>
      forall k | 0 <= k < |s.conns| ensures LogOk(s'.conns[k], k, s'.trace) {
        ToldOverheard(s.conns[k], Event(WINDOW, 0, code, 0, []));
        OverheardLogged(s.conns[k], s'.conns[k], k, s.trace);
      }
  }

  lemma ClosedOverheard(c: Conn)
    ensures Overheard(c, c.(open := false))
  {
  }

  lemma ReplaySome(c: Conn, i: nat, owner: Option<nat>, generation: nat, observation: nat)
    requires ConnOk(c, i, owner, generation, observation)
    ensures c.wants != GuiRole ==> Replay(c.client, c.downlink).Some?
  {
  }

  /** A connection that never was wrote nothing. */
  lemma FreshLogged(s: System, wants: Role, sources: set<nat>)
    requires Owned(s) && LogsOk(s)
    ensures LogsOk(s.(conns := s.conns + [Fresh(wants, sources)]))
  {
    hide LogOk;
    forall k | 0 <= k < |s.trace| ensures s.trace[k].writer < |s.conns| {
      assert CurrentWriter(s, s.trace[k]);
    }
    NothingLogged(wants, sources, |s.conns|, s.trace);
  }

  lemma NothingLogged(wants: Role, sources: set<nat>, i: nat, trace: seq<Processed>)
    requires forall k :: 0 <= k < |trace| ==> trace[k].writer != i
    ensures LogOk(Fresh(wants, sources), i, trace)
  {
  }

  lemma {:induction false} RunLogged(steps: seq<Step>)
    ensures LogsOk(Run(steps))
  {
    hide Next, LogOk, Owned, AllOk;
    if steps != [] {
      var before := steps[..|steps| - 1];
      RunLogged(before);
      RunOk(before);
      OneOwnerWrites(before);
      StepLogged(Run(before), steps[|steps| - 1]);
    }
  }
}
