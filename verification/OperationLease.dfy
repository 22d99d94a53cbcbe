/**
 * The backend's operation lease and its clients, as steps. Every connection is its own entry and
 * never returns; replies may be lost, connections may break on either side, the lease may expire.
 */
module OperationLease {
  import opened Wrappers
  import opened Protocol

  datatype Role = DeskRole | GuiRole | ReaderRole

  datatype Packet = Packet(request: nat, kind: Request, token: nat, path: string)

  /** A request sent and the code that answered it. */
  datatype Entry = Entry(packet: Packet, answer: Option<nat>)

  datatype Client = Client(session: Session, asked: Option<Packet>)

  /**
   * One connection. `alive` and `role` are the backend's, `open` and `client` the peer's.
   * The mixer's own connections (GuiRole) may send anything; the others follow `Control`.
   */
  datatype Conn = Conn(
    wants: Role,
    role: Option<Role>,
    alive: bool,
    handled: nat,
    uplink: seq<Packet>,
    downlink: seq<Frame>,
    open: bool,
    violated: bool,
    client: Client,
    log: seq<Entry>
  )

  /** A write the backend carried out. */
  datatype Processed = Processed(writer: nat, request: nat, path: string, generation: nat)

  datatype System = System(
    owner: Option<nat>,
    generation: nat,
    observation: nat,
    conns: seq<Conn>,
    trace: seq<Processed>
  )

  datatype Step =
    | Accept(wants: Role, sources: set<nat>)
    | Send(i: nat, packet: Packet)
    | Handle(i: nat, valid: bool, refreshable: bool)
    | Receive(i: nat)
    | Close(i: nat)
    | Drop(i: nat, kept: nat)
    | Observe(source: nat, payload: seq<byte>)
    | WindowChange(code: nat)

  // The backend

  function LeaseEvent(owner: Option<nat>, generation: nat): Frame {
    Event(LEASE, 0, if owner.Some? then BUSY else OK, generation, [])
  }

  function Say(c: Conn, f: Frame): Conn {
    c.(downlink := c.downlink + [f])
  }

  /** One event to a connection that is still up and has said HELLO. */
  function Told(c: Conn, f: Frame): (told: Conn)
    ensures told == c.(downlink := told.downlink)
  {
    if c.alive && c.role.Some? && (f.Event? && f.kind == OBSERVATION ==> f.code in c.client.session.sources) then Say(c, f)
    else c
  }

  function Tell(conns: seq<Conn>, f: Frame): seq<Conn>
    ensures |Tell(conns, f)| == |conns|
    ensures forall i :: 0 <= i < |conns| ==> Tell(conns, f)[i] == Told(conns[i], f)
  {
    seq(|conns|, i requires 0 <= i < |conns| => Told(conns[i], f))
  }

  /** A new owner, or none, under the next generation; everybody is told. */
  function Change(s: System, owner: Option<nat>): System {
    var generation := s.generation + 1;
    s.(owner := owner, generation := generation, conns := Tell(s.conns, LeaseEvent(owner, generation)))
  }

  function Gone(c: Conn, kept: nat): Conn {
    c.(alive := false, uplink := [], downlink := c.downlink[..if kept < |c.downlink| then kept else |c.downlink|])
  }

  /** The backend gives one connection up; only the first `kept` packets on their way still arrive. */
  function Dropped(s: System, i: nat, kept: nat): System
    requires i < |s.conns|
  {
    var c := s.conns[i];
    var s' := s.(conns := s.conns[i := Gone(c, kept)]);
    if c.alive && s.owner == Some(i) then Change(s', None) else s'
  }

  predicate HasLease(s: System, i: nat, token: nat) {
    s.owner == Some(i) && token == s.generation
  }

  function Reply0(s: System, i: nat, p: Packet, code: nat): System
    requires i < |s.conns|
  {
    s.(conns := s.conns[i := Say(s.conns[i], Reply(Some(p.kind), p.request, code, s.generation, []))])
  }

  predicate MayWrite(s: System, i: nat, token: nat)
    requires i < |s.conns|
  {
    HasLease(s, i, token) || (s.conns[i].role == Some(GuiRole) && s.owner.None? && token == s.generation)
  }

  /** One request of an established connection, already taken off its queue. */
  function Serve(s: System, i: nat, p: Packet, valid: bool, refreshable: bool): System
    requires i < |s.conns|
  {
    match p.kind
    case Hello => Dropped(s, i, |s.conns[i].downlink|)
    case Begin =>
      if s.conns[i].role != Some(DeskRole) then Reply0(s, i, p, NOT_OWNER)
      else if s.owner.Some? then Reply0(s, i, p, BUSY)
      else
        var g := s.generation + 1;
        var s' := Reply0(s.(owner := Some(i), generation := g), i, p, OK);
        s'.(conns := Tell(s'.conns, LeaseEvent(Some(i), g)))
    case End =>
      if !HasLease(s, i, p.token) then Reply0(s, i, p, NOT_OWNER) else Reply0(Change(s, None), i, p, OK)
    case KeepAlive =>
      Reply0(s, i, p, if HasLease(s, i, p.token) then OK else NOT_OWNER)
    case Write =>
      if !MayWrite(s, i, p.token) then Reply0(s, i, p, BUSY)
      else if !valid then Reply0(s, i, p, INVALID)
      else Reply0(s, i, p, OK).(trace := s.trace + [Processed(i, p.request, p.path, s.generation)])
    case Refresh =>
      if (s.owner.Some? && !HasLease(s, i, p.token)) || !refreshable then Reply0(s, i, p, BUSY)
      else
        var s' := Reply0(s, i, p, OK);
        s'.(conns := Tell(s'.conns, Event(WINDOW, 0, BUSY, 0, [])))
  }

  function Greet(s: System, i: nat, p: Packet): System
    requires i < |s.conns|
  {
    var c := s.conns[i].(role := Some(s.conns[i].wants));
    var c' := Say(c, Reply(Some(Hello), p.request, OK, s.generation, []));
    s.(conns := s.conns[i := Say(c', LeaseEvent(s.owner, s.generation))])
  }

  function Dispatch(s: System, i: nat, valid: bool, refreshable: bool): System
    requires i < |s.conns| && s.conns[i].uplink != []
  {
    var c := s.conns[i];
    var p := c.uplink[0];
    if p.request != c.handled + 1 then Dropped(s, i, |c.downlink|)
    else
      var s' := s.(conns := s.conns[i := c.(uplink := c.uplink[1..], handled := p.request)]);
      if c.role.Some? then Serve(s', i, p, valid, refreshable)
      else if p.kind == Hello then Greet(s', i, p)
      else Dropped(s', i, |c.downlink|)
  }

  // The clients

  /** The token `Control` puts on a request. */
  function TokenOf(s: Session): nat {
    if s.lease.Some? then s.lease.value else s.generation
  }

  /** What `Control` may ask next: one request at a time, HELLO first, writes only under its lease. */
  predicate MayAsk(c: Client, log: seq<Entry>, p: Packet) {
    && c.asked.None?
    && |log| < LAST_REQUEST && p.request == |log| + 1 && p.token == TokenOf(c.session)
    && (p.kind == Hello <==> !c.session.greeted)
    && (p.kind == Begin ==> c.session.lease.None?)
    && (p.kind in {End, KeepAlive, Write} ==> c.session.lease.Some?)
  }

  /** The client that has asked; END gives its lease back before it is sent. */
  function Asking(s: Session, p: Packet): Client {
    Client(if p.kind == End then s.(lease := None) else s, Some(p))
  }

  predicate MaySend(c: Conn, p: Packet) {
    MayAsk(c.client, c.log, p)
  }

  function Sent(c: Conn, p: Packet): Conn {
    c.(uplink := if c.alive then c.uplink + [p] else c.uplink,
       client := Asking(c.client.session, p),
       log := c.log + [Entry(p, None)])
  }

  /** One packet as the client takes it; None where it gives the connection up as broken. */
  function Deliver(c: Client, f: Frame): Option<Client> {
    if f.Event? then
      match Hear(c.session, f)
      case None => None
      case Some(s) => Some(c.(session := s))
    else if c.asked.None? then None
    else
      var p := c.asked.value;
      match Answer(c.session, p.kind, p.request, p.token, f)
      case None => None
      case Some(s) => Some(Client(s, None))
  }

  function Answered(log: seq<Entry>, f: Frame): seq<Entry> {
    if f.Reply? && 1 <= f.request <= |log| then log[f.request - 1 := log[f.request - 1].(answer := Some(f.code))] else log
  }

  function Received(c: Conn): Conn
    requires c.downlink != []
  {
    var f := c.downlink[0];
    var c' := c.(downlink := c.downlink[1..]);
    if c.wants == GuiRole then c'
    else
      match Deliver(c.client, f)
      case None => c'.(open := false, violated := true)
      case Some(client) => c'.(client := client, log := Answered(c.log, f))
  }

  // Runs

  const INITIAL := System(None, 0, 0, [], [])

  function Fresh(wants: Role, sources: set<nat>): Conn {
    Conn(wants, None, true, 0, [], [], true, false,
         Client(Session(false, sources, None, 0, false, 0), None), [])
  }

  function Next(s: System, step: Step): System {
    match step
    case Accept(wants, sources) => s.(conns := s.conns + [Fresh(wants, sources)])
    case Send(i, p) =>
      if i < |s.conns| && s.conns[i].open then
        if s.conns[i].wants == GuiRole then
          (if s.conns[i].alive then s.(conns := s.conns[i := s.conns[i].(uplink := s.conns[i].uplink + [p])]) else s)
        else if MaySend(s.conns[i], p) then s.(conns := s.conns[i := Sent(s.conns[i], p)])
        else s
      else s
    case Handle(i, valid, refreshable) =>
      if i < |s.conns| && s.conns[i].alive && s.conns[i].uplink != [] then Dispatch(s, i, valid, refreshable) else s
    case Receive(i) =>
      if i < |s.conns| && s.conns[i].open && s.conns[i].downlink != [] then
        s.(conns := s.conns[i := Received(s.conns[i])])
      else s
    case Close(i) => if i < |s.conns| then s.(conns := s.conns[i := s.conns[i].(open := false)]) else s
    case Drop(i, kept) => if i < |s.conns| then Dropped(s, i, kept) else s
    case Observe(source, payload) =>
      if payload != [] && |payload| % 4 == 0 && source in {DEVICE, DERIVED, METERS} then
        var n := s.observation + 1;
        s.(observation := n, conns := Tell(s.conns, Event(OBSERVATION, 0, source, n, payload)))
      else s
    case WindowChange(code) =>
      if code in {OK, BUSY} then s.(conns := Tell(s.conns, Event(WINDOW, 0, code, 0, []))) else s
  }

  function Run(steps: seq<Step>): System {
    if steps == [] then INITIAL else Next(Run(steps[..|steps| - 1]), steps[|steps| - 1])
  }

  // Who wrote

  ghost predicate IsGui(conns: seq<Conn>, k: nat) {
    k < |conns| && conns[k].role == Some(GuiRole)
  }

  /** The owner is connected and of the only role that may own. */
  ghost predicate OwnerStands(s: System) {
    s.owner.Some? ==>
      s.owner.value < |s.conns| && s.conns[s.owner.value].alive && s.conns[s.owner.value].role == Some(DeskRole)
  }

  /** A write of the current generation came from its owner, or from a mixer where there is none. */
  ghost predicate CurrentWriter(s: System, e: Processed) {
    && e.writer < |s.conns| && s.conns[e.writer].role.Some? && e.generation <= s.generation
    && (e.generation == s.generation ==> if s.owner.Some? then e.writer == s.owner.value else IsGui(s.conns, e.writer))
  }

  ghost predicate GenerationsAscend(trace: seq<Processed>) {
    forall i, j :: 0 <= i < j < |trace| ==> trace[i].generation <= trace[j].generation
  }

  /** Two writes of one generation came from one connection, unless both came from mixers. */
  ghost predicate OneWriter(conns: seq<Conn>, trace: seq<Processed>) {
    forall i, j :: 0 <= i < j < |trace| && trace[i].generation == trace[j].generation ==>
      trace[i].writer == trace[j].writer || (IsGui(conns, trace[i].writer) && IsGui(conns, trace[j].writer))
  }

  ghost predicate Owned(s: System) {
    && OwnerStands(s)
    && (forall k :: 0 <= k < |s.trace| ==> CurrentWriter(s, s.trace[k]))
    && GenerationsAscend(s.trace) && OneWriter(s.conns, s.trace)
  }

  /** No connection disappears and a role once taken stays. */
  ghost predicate Continues(before: seq<Conn>, after: seq<Conn>) {
    && |before| <= |after|
    && forall k :: 0 <= k < |before| && before[k].role.Some? ==> after[k].role == before[k].role
  }

  /** Nothing written, and either nobody's ownership changed or a new generation began. */
  lemma Unwritten(s: System, s': System)
    requires Owned(s) && Continues(s.conns, s'.conns) && s'.trace == s.trace && OwnerStands(s')
    requires (s'.generation == s.generation && s'.owner == s.owner) || s'.generation == s.generation + 1
    ensures Owned(s')
  {
    hide GenerationsAscend;
    forall k | 0 <= k < |s'.trace| ensures CurrentWriter(s', s'.trace[k]) {
      assert CurrentWriter(s, s.trace[k]);
    }
    assert forall e :: IsGui(s.conns, e) ==> IsGui(s'.conns, e);
  }

  lemma WrittenBy(s: System, s': System, e: Processed)
    requires Owned(s) && Continues(s.conns, s'.conns) && |s'.conns| == |s.conns| && s'.trace == s.trace + [e]
    requires s'.generation == s.generation && s'.owner == s.owner && OwnerStands(s')
    requires e.generation == s.generation && CurrentWriter(s, e)
    ensures Owned(s')
  {
    forall k | 0 <= k < |s'.trace| ensures CurrentWriter(s', s'.trace[k]) {
      assert k < |s.trace| ==> CurrentWriter(s, s.trace[k]) && s'.trace[k] == s.trace[k];
    }
    assert forall k :: IsGui(s.conns, k) ==> IsGui(s'.conns, k);
  }

  lemma ServeContinues(s: System, i: nat, p: Packet, valid: bool, refreshable: bool)
    requires OwnerStands(s) && i < |s.conns| && s.conns[i].alive && s.conns[i].role.Some?
    ensures var s' := Serve(s, i, p, valid, refreshable);
      && Continues(s.conns, s'.conns) && OwnerStands(s') && |s'.conns| == |s.conns|
      && ((s'.generation == s.generation && s'.owner == s.owner) || s'.generation == s.generation + 1)
  {
    hide LeaseEvent, MayWrite, HasLease, Told;
    match p.kind
    case Hello => {}
    case Begin => {}
    case End =>
      ChangeContinues(s);
    case KeepAlive => {}
    case Write => {}
    case Refresh => {}
  }

  lemma ChangeContinues(s: System)
    ensures Continues(s.conns, Change(s, None).conns) && |Change(s, None).conns| == |s.conns|
  {
    hide LeaseEvent, Told;
  }

  lemma ServeKeepsOwned(s: System, i: nat, p: Packet, valid: bool, refreshable: bool)
    requires Owned(s) && i < |s.conns| && s.conns[i].alive && s.conns[i].role.Some?
    ensures Owned(Serve(s, i, p, valid, refreshable))
  {
    hide Owned, Continues, Reply0, Change, Dropped, LeaseEvent;
    var s' := Serve(s, i, p, valid, refreshable);
    assert OwnerStands(s) by { OwnedStands(s); }
    ServeContinues(s, i, p, valid, refreshable);
    if p.kind == Write && MayWrite(s, i, p.token) && valid {
      WrittenBy(s, s', Processed(i, p.request, p.path, s.generation)) by {
        assert s'.owner == s.owner && s'.generation == s.generation && s'.trace == s.trace + [Processed(i, p.request, p.path, s.generation)] by {
          hide *;
          WriteEffect(s, i, p, refreshable);
        }
      }
    } else {
      assert s'.trace == s.trace by { OtherwiseUnwritten(s, i, p, valid, refreshable); }
      Unwritten(s, s');
    }
  }

  lemma OwnedStands(s: System)
    requires Owned(s)
    ensures OwnerStands(s)
  {
  }

  lemma WriteEffect(s: System, i: nat, p: Packet, refreshable: bool)
    requires i < |s.conns| && p.kind == Write && MayWrite(s, i, p.token)
    ensures var s' := Serve(s, i, p, true, refreshable);
      && s'.owner == s.owner && s'.generation == s.generation
      && s'.trace == s.trace + [Processed(i, p.request, p.path, s.generation)]
  {
    hide MayWrite;
  }

  lemma OtherwiseUnwritten(s: System, i: nat, p: Packet, valid: bool, refreshable: bool)
    requires i < |s.conns| && !(p.kind == Write && MayWrite(s, i, p.token) && valid)
    ensures Serve(s, i, p, valid, refreshable).trace == s.trace
  {
    hide MayWrite, HasLease, LeaseEvent;
  }

  lemma DispatchKeepsOwned(s: System, i: nat, valid: bool, refreshable: bool)
    requires Owned(s) && i < |s.conns| && s.conns[i].alive && s.conns[i].uplink != []
    ensures Owned(Dispatch(s, i, valid, refreshable))
  {
    hide LeaseEvent, Serve, Owned;
    var c := s.conns[i];
    var p := c.uplink[0];
    OwnedStands(s);
    if p.request == c.handled + 1 {
      var s' := s.(conns := s.conns[i := c.(uplink := c.uplink[1..], handled := p.request)]);
      Unwritten(s, s');
      if c.role.Some? {
        ServeKeepsOwned(s', i, p, valid, refreshable);
      } else {
        Unwritten(s', Dispatch(s, i, valid, refreshable));
      }
    } else {
      Unwritten(s, Dispatch(s, i, valid, refreshable));
    }
  }

  lemma StepKeepsOwned(s: System, step: Step)
    requires Owned(s)
    ensures Owned(Next(s, step))
  {
    hide LeaseEvent, Dispatch, MaySend, Deliver, Answered, Owned;
    OwnedStands(s);
    if step.Handle? {
      if step.i < |s.conns| && s.conns[step.i].alive && s.conns[step.i].uplink != [] {
        DispatchKeepsOwned(s, step.i, step.valid, step.refreshable);
      }
    } else {
      Unwritten(s, Next(s, step));
    }
  }

  /**
   * In every run the writes carried out between two lease changes come from one owner: two writes
   * of one generation have one writer, or neither comes from a connection that can own a lease.
   */
  lemma {:induction false} OneOwnerWrites(steps: seq<Step>)
    ensures var s := Run(steps);
      GenerationsAscend(s.trace) && OneWriter(s.conns, s.trace) && Owned(s)
  {
    hide Next;
    if steps != [] {
      OneOwnerWrites(steps[..|steps| - 1]);
      StepKeepsOwned(Run(steps[..|steps| - 1]), steps[|steps| - 1]);
    }
  }
}
