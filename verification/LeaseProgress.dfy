/** A desk that finds the backend free gets through: greeted, it takes the lease, writes its burst, and gives the lease back. */
module LeaseProgress {
  import opened Wrappers
  import opened Protocol
  import opened OperationLease
  import opened LeaseClients

  // What a request comes to

  /** What the backend grants, and to whom. */
  predicate Grants(s: System, i: nat, p: Packet, valid: bool, refreshable: bool)
    requires i < |s.conns|
  {
    match p.kind
    case Hello => false
    case Begin => s.conns[i].role == Some(DeskRole) && s.owner.None?
    case End => s.owner == Some(i) && p.token == s.generation
    case KeepAlive => s.owner == Some(i) && p.token == s.generation
    case Write => valid && p.token == s.generation && (s.owner == Some(i) || (s.owner.None? && s.conns[i].role == Some(GuiRole)))
    case Refresh => refreshable && (s.owner.None? || (s.owner == Some(i) && p.token == s.generation))
  }

  /** The code of a refusal: an invalid command is told from one out of turn. */
  function Refusal(s: System, i: nat, p: Packet): nat
    requires i < |s.conns|
  {
    match p.kind
    case Begin => if s.conns[i].role == Some(DeskRole) then BUSY else NOT_OWNER
    case Write => if Grants(s, i, p, true, true) then INVALID else BUSY
    case Refresh => BUSY
    case _ => NOT_OWNER
  }

  predicate ChangesHands(p: Packet) {
    p.kind.Begin? || p.kind.End?
  }

  /** What everybody is told of a granted request. */
  function News(p: Packet, generation: nat): seq<Frame> {
    match p.kind
    case Begin => [Event(LEASE, 0, BUSY, generation, [])]
    case End => [Event(LEASE, 0, OK, generation, [])]
    case Refresh => [Event(WINDOW, 0, BUSY, 0, [])]
    case _ => []
  }

  predicate Established(c: Conn) {
    c.alive && c.role.Some?
  }

  ghost predicate ServedOne(s: System, s': System, i: nat, p: Packet, granted: bool)
    requires i < |s.conns|
  {
    && s'.owner == (if granted && p.kind == Begin then Some(i) else if granted && p.kind == End then None else s.owner)
    && s'.generation == (if granted && ChangesHands(p) then s.generation + 1 else s.generation)
    && s'.trace == (if granted && p.kind == Write then s.trace + [Processed(i, p.request, p.path, s.generation)] else s.trace)
    && s'.observation == s.observation && |s'.conns| == |s.conns|
  }

  /** The answer follows the news of an END and precedes any other; everybody established hears the news. */
  ghost predicate SentAround(s: System, s': System, i: nat, p: Packet, granted: bool)
    requires i < |s.conns| == |s'.conns|
  {
    var answer := Reply(Some(p.kind), p.request, if granted then OK else Refusal(s, i, p), s'.generation, []);
    var news := if granted then News(p, s'.generation) else [];
    && s'.conns[i] == Got(s.conns[i], if p.kind == End then news + [answer] else [answer] + news)
    && forall k :: 0 <= k < |s.conns| && k != i ==> s'.conns[k] == if Established(s.conns[k]) then Got(s.conns[k], news) else s.conns[k]
  }

  function Got(c: Conn, frames: seq<Frame>): Conn {
    c.(downlink := c.downlink + frames)
  }

  lemma GotNothing(c: Conn)
    ensures Got(c, []) == c
  {
    assert c.downlink + [] == c.downlink;
  }

  lemma ToldNews(c: Conn, f: Frame)
    requires f.Event? && f.kind != OBSERVATION
    ensures Told(c, f) == if Established(c) then Got(c, [f]) else c
  {
  }

  /**
   * One request of an established connection: granted or refused, who owns the backend then and under
   * which generation, what was carried out, and what each connection is sent.
   */
  lemma ServedExactly(s: System, i: nat, p: Packet, valid: bool, refreshable: bool)
    requires i < |s.conns| && Established(s.conns[i]) && p.kind != Hello
    ensures var s', granted := Serve(s, i, p, valid, refreshable), Grants(s, i, p, valid, refreshable);
      ServedOne(s, s', i, p, granted) && SentAround(s, s', i, p, granted)
  {
    hide Serve, Grants, ServedOne, SentAround;
    match p.kind {
      case Begin =>
        BeginServed(s, i, p, valid, refreshable);
      case End =>
        EndServed(s, i, p, valid, refreshable);
      case Refresh =>
        RefreshServed(s, i, p, valid, refreshable);
      case _ =>
        PlainlyServed(s, i, p, valid, refreshable);
    }
  }

  lemma Answer1(s: System, i: nat, p: Packet, code: nat)
    requires i < |s.conns|
    ensures var s' := Reply0(s, i, p, code); var answer := Reply(Some(p.kind), p.request, code, s.generation, []);
      s' == s.(conns := s'.conns) && |s'.conns| == |s.conns| && s'.conns[i] == Got(s.conns[i], [answer])
      && forall k :: 0 <= k < |s.conns| && k != i ==> s'.conns[k] == s.conns[k]
  {
  }

  lemma Unheard(s: System, s': System, i: nat)
    requires i < |s.conns| == |s'.conns| && forall k :: 0 <= k < |s.conns| && k != i ==> s'.conns[k] == s.conns[k]
    ensures forall k :: 0 <= k < |s.conns| && k != i ==> s'.conns[k] == if Established(s.conns[k]) then Got(s.conns[k], []) else s.conns[k]
  {
    forall k | 0 <= k < |s.conns| && k != i ensures s'.conns[k] == if Established(s.conns[k]) then Got(s.conns[k], []) else s.conns[k] {
      GotNothing(s.conns[k]);
    }
  }

  lemma PlainlyServed(s: System, i: nat, p: Packet, valid: bool, refreshable: bool)
    requires i < |s.conns| && Established(s.conns[i]) && p.kind in {KeepAlive, Write}
    ensures var s', granted := Serve(s, i, p, valid, refreshable), Grants(s, i, p, valid, refreshable);
      ServedOne(s, s', i, p, granted) && SentAround(s, s', i, p, granted)
  {
    var granted, s' := Grants(s, i, p, valid, refreshable), Serve(s, i, p, valid, refreshable);
    var code := if granted then OK else Refusal(s, i, p);
    assert s'.conns == Reply0(s, i, p, code).conns;
    hide Reply0, Got, Established;
    Answer1(s, i, p, code);
    Unheard(s, s', i);
    var answer := Reply(Some(p.kind), p.request, code, s'.generation, []);
    assert [answer] + [] == [answer];
  }

  lemma BeginServed(s: System, i: nat, p: Packet, valid: bool, refreshable: bool)
    requires i < |s.conns| && Established(s.conns[i]) && p.kind == Begin
    ensures var s', granted := Serve(s, i, p, valid, refreshable), Grants(s, i, p, valid, refreshable);
      ServedOne(s, s', i, p, granted) && SentAround(s, s', i, p, granted)
  {
    var granted, s' := Grants(s, i, p, valid, refreshable), Serve(s, i, p, valid, refreshable);
    var answer := Reply(Some(p.kind), p.request, if granted then OK else Refusal(s, i, p), s'.generation, []);
    if granted {
      var g := s.generation + 1;
      var news := Event(LEASE, 0, BUSY, g, []);
      var s1 := s.(owner := Some(i), generation := g);
      Answer1(s1, i, p, OK);
      hide Reply0, Told, Got;
      forall c: Conn ensures Told(c, news) == if Established(c) then Got(c, [news]) else c {
        ToldNews(c, news);
      }
      GotGot(s.conns[i], [answer], [news]);
    } else {
      assert s' == Reply0(s, i, p, Refusal(s, i, p));
      Answer1(s, i, p, Refusal(s, i, p));
      hide Reply0, Got, Established;
      Unheard(s, s', i);
      assert [answer] + [] == [answer];
    }
  }

  lemma GotGot(c: Conn, a: seq<Frame>, b: seq<Frame>)
    ensures Got(Got(c, a), b) == Got(c, a + b) && (Established(Got(c, a)) <==> Established(c))
  {
    assert (c.downlink + a) + b == c.downlink + (a + b);
  }

  lemma EndServed(s: System, i: nat, p: Packet, valid: bool, refreshable: bool)
    requires i < |s.conns| && Established(s.conns[i]) && p.kind == End
    ensures var s', granted := Serve(s, i, p, valid, refreshable), Grants(s, i, p, valid, refreshable);
      ServedOne(s, s', i, p, granted) && SentAround(s, s', i, p, granted)
  {
    var granted, s' := Grants(s, i, p, valid, refreshable), Serve(s, i, p, valid, refreshable);
    var answer := Reply(Some(p.kind), p.request, if granted then OK else Refusal(s, i, p), s'.generation, []);
    if granted {
      var news := Event(LEASE, 0, OK, s.generation + 1, []);
      var s1 := Change(s, None);
      assert LeaseEvent(None, s.generation + 1) == news;
      Answer1(s1, i, p, OK);
      hide Reply0, Told, Got;
      forall c: Conn ensures Told(c, news) == if Established(c) then Got(c, [news]) else c {
        ToldNews(c, news);
      }
      GotGot(s.conns[i], [news], [answer]);
    } else {
      assert s' == Reply0(s, i, p, Refusal(s, i, p));
      Answer1(s, i, p, Refusal(s, i, p));
      hide Reply0, Got, Established;
      Unheard(s, s', i);
      assert [] + [answer] == [answer];
    }
  }

  lemma RefreshServed(s: System, i: nat, p: Packet, valid: bool, refreshable: bool)
    requires i < |s.conns| && Established(s.conns[i]) && p.kind == Refresh
    ensures var s', granted := Serve(s, i, p, valid, refreshable), Grants(s, i, p, valid, refreshable);
      ServedOne(s, s', i, p, granted) && SentAround(s, s', i, p, granted)
  {
    var granted, s' := Grants(s, i, p, valid, refreshable), Serve(s, i, p, valid, refreshable);
    var answer := Reply(Some(p.kind), p.request, if granted then OK else Refusal(s, i, p), s'.generation, []);
    if granted {
      var news := Event(WINDOW, 0, BUSY, 0, []);
      Answer1(s, i, p, OK);
      hide Reply0, Told, Got;
      forall c: Conn ensures Told(c, news) == if Established(c) then Got(c, [news]) else c {
        ToldNews(c, news);
      }
      GotGot(s.conns[i], [answer], [news]);
    } else {
      assert s' == Reply0(s, i, p, Refusal(s, i, p));
      Answer1(s, i, p, Refusal(s, i, p));
      hide Reply0, Got, Established;
      Unheard(s, s', i);
      assert [answer] + [] == [answer];
    }
  }

  /** A connection given up: what is still on its way to it is cut short, and its lease, if it had it, is anybody's. */
  ghost predicate GivenUp(s: System, s': System, i: nat, kept: nat)
    requires i < |s.conns|
  {
    var c, owned := s.conns[i], s.conns[i].alive && s.owner == Some(i);
    && s'.trace == s.trace && s'.observation == s.observation && |s'.conns| == |s.conns|
    && s'.owner == (if owned then None else s.owner) && s'.generation == (if owned then s.generation + 1 else s.generation)
    && !s'.conns[i].alive && s'.conns[i].uplink == [] && s'.conns[i].downlink == c.downlink[..if kept < |c.downlink| then kept else |c.downlink|]
    && s'.conns[i] == c.(alive := false, uplink := [], downlink := s'.conns[i].downlink)
    && forall k :: 0 <= k < |s.conns| && k != i ==>
         s'.conns[k] == if owned && Established(s.conns[k]) then Got(s.conns[k], [Event(LEASE, 0, OK, s.generation + 1, [])]) else s.conns[k]
  }

  lemma DroppedExactly(s: System, i: nat, kept: nat)
    requires i < |s.conns|
    ensures GivenUp(s, Dropped(s, i, kept), i, kept)
  {
    hide Told, Got;
    var news := Event(LEASE, 0, OK, s.generation + 1, []);
    assert LeaseEvent(None, s.generation + 1) == news;
    forall c: Conn ensures Told(c, news) == if Established(c) then Got(c, [news]) else c {
      ToldNews(c, news);
    }
  }

  /** A packet out of its turn, a second HELLO, or anything before the first: the backend gives the connection up. */
  predicate OutOfPlace(c: Conn, p: Packet) {
    p.request != c.handled + 1 || (p.kind == Hello <==> c.role.Some?)
  }

  /** What becomes of the next packet of a connection. */
  lemma DispatchedExactly(s: System, i: nat, valid: bool, refreshable: bool)
    requires i < |s.conns| && s.conns[i].alive && s.conns[i].uplink != []
    ensures var c, p, s' := s.conns[i], s.conns[i].uplink[0], Dispatch(s, i, valid, refreshable);
      var s0 := s.(conns := s.conns[i := Taken(c)]);
      if OutOfPlace(c, p) then GivenUp(if p.request == c.handled + 1 then s0 else s, s', i, |c.downlink|)
      else if p.kind == Hello then
        s' == s.(conns := s.conns[i := Got(Taken(c).(role := Some(c.wants)),
          [Reply(Some(Hello), p.request, OK, s.generation, []), Event(LEASE, 0, if s.owner.Some? then BUSY else OK, s.generation, [])])])
      else s' == Serve(s0, i, p, valid, refreshable)
  {
    var c, p := s.conns[i], s.conns[i].uplink[0];
    var s0 := s.(conns := s.conns[i := Taken(c)]);
    if OutOfPlace(c, p) {
      hide GivenUp, Serve, Dropped;
      DroppedExactly(s, i, |c.downlink|);
      DroppedExactly(s0, i, |c.downlink|);
      if p.kind == Hello && p.request == c.handled + 1 {
        HelloTwice(s0, i, p, valid, refreshable);
      }
    } else if p.kind == Hello {
      GotHello(s, i, p);
    }
  }

  lemma HelloTwice(s: System, i: nat, p: Packet, valid: bool, refreshable: bool)
    requires i < |s.conns| && p.kind == Hello
    ensures Serve(s, i, p, valid, refreshable) == Dropped(s, i, |s.conns[i].downlink|)
  {
  }

  lemma GotHello(s: System, i: nat, p: Packet)
    requires i < |s.conns| && s.conns[i].uplink != []
    ensures Greet(s.(conns := s.conns[i := Taken(s.conns[i])]), i, p) ==
      s.(conns := s.conns[i := Got(Taken(s.conns[i]).(role := Some(s.conns[i].wants)),
        [Reply(Some(Hello), p.request, OK, s.generation, []), Event(LEASE, 0, if s.owner.Some? then BUSY else OK, s.generation, [])])])
  {
    var f, g := Reply(Some(Hello), p.request, OK, s.generation, []), Event(LEASE, 0, if s.owner.Some? then BUSY else OK, s.generation, []);
    assert (s.conns[i].downlink + [f]) + [g] == s.conns[i].downlink + [f, g];
  }

  /** A new observation takes the next number and goes to everybody established who asked for its source. */
  lemma ObservedExactly(s: System, source: nat, payload: seq<byte>)
    ensures var s', n := Next(s, Step.Observe(source, payload)), s.observation + 1;
      if payload == [] || |payload| % 4 != 0 || source !in {DEVICE, DERIVED, METERS} then s' == s
      else
        && s' == s.(observation := n, conns := s'.conns) && |s'.conns| == |s.conns|
        && forall k :: 0 <= k < |s.conns| ==>
             s'.conns[k] == if Established(s.conns[k]) && source in s.conns[k].client.session.sources
                            then Got(s.conns[k], [Event(OBSERVATION, 0, source, n, payload)]) else s.conns[k]
  {
  }

  // A desk gets through

  /** A desk's connection with nothing on its way, whose client believes what is the case. */
  predicate AtRest(s: System, i: nat) {
    i < |s.conns|
    && var c := s.conns[i];
    && c.alive && c.open && c.wants == DeskRole && c.role == Some(DeskRole)
    && c.uplink == [] && c.downlink == [] && c.handled == |c.log| && c.client.asked.None?
    && c.client.session.greeted && c.client.session.generation == s.generation
    && c.client.session.lease == if s.owner == Some(i) then Some(s.generation) else None
  }

  /** In every run, a desk's connection that is up with nothing on its way is at rest, unless its lease is held up elsewhere. */
  lemma ReachedAtRest(steps: seq<Step>, i: nat)
    requires i < |Run(steps).conns| && Run(steps).owner != Some(i)
    requires var c := Run(steps).conns[i];
      Established(c) && c.open && c.wants == DeskRole && c.uplink == [] && c.downlink == []
    ensures AtRest(Run(steps), i)
  {
    hide Run;
    RunOk(steps);
    var s := Run(steps);
    assert ConnOk(s.conns[i], i, s.owner, s.generation, s.observation);
  }

  function Do(s: System, steps: seq<Step>): System {
    if steps == [] then s else Next(Do(s, steps[..|steps| - 1]), steps[|steps| - 1])
  }

  lemma DoOne(s: System, step: Step)
    ensures Do(s, [step]) == Next(s, step)
  {
    assert [step][..0] == [];
  }

  lemma {:induction false} DoBoth(s: System, a: seq<Step>, b: seq<Step>)
    ensures Do(s, a + b) == Do(Do(s, a), b)
  {
    hide Next;
    if b == [] {
      assert a + b == a;
    } else {
      DoBoth(s, a, b[..|b| - 1]);
      assert (a + b)[..|a + b| - 1] == a + b[..|b| - 1];
    }
  }

  lemma {:induction false} RunIsDo(steps: seq<Step>)
    ensures Run(steps) == Do(INITIAL, steps)
  {
    hide Next;
    if steps != [] {
      RunIsDo(steps[..|steps| - 1]);
    }
  }

  function Request(s: System, i: nat, kind: Protocol.Request, path: string): Packet
    requires i < |s.conns|
  {
    Packet(|s.conns[i].log| + 1, kind, s.generation, path)
  }

  /** A request handled as it arrives, and its answer with `news` beside it taken in. */
  function Exchange(s: System, i: nat, kind: Protocol.Request, path: string): seq<Step>
    requires i < |s.conns|
  {
    [Step.Send(i, Request(s, i, kind, path)), Step.Handle(i, true, true)]
    + if kind.Begin? || kind.End? then [Step.Receive(i), Step.Receive(i)] else [Step.Receive(i)]
  }

  /** Only this connection changed, by one more answered request, and it is at rest again. */
  ghost predicate Through(s: System, s': System, i: nat, p: Packet)
    requires i < |s.conns|
  {
    && AtRest(s', i) && |s'.conns| == |s.conns|
    && s'.conns[i].log == s.conns[i].log + [Entry(p, Some(OK))]
  }

  function Asked(c: Conn, p: Packet): Conn {
    c.(handled := p.request, client := Asking(c.client.session, p), log := c.log + [Entry(p, None)])
  }

  lemma SentAndHandled(s: System, i: nat, p: Packet)
    requires AtRest(s, i) && MaySend(s.conns[i], p) && p.kind != Hello
    ensures Do(s, [Step.Send(i, p), Step.Handle(i, true, true)]) == Serve(s.(conns := s.conns[i := Asked(s.conns[i], p)]), i, p, true, true)
  {
    hide Serve;
    var c := s.conns[i];
    DoBoth(s, [Step.Send(i, p)], [Step.Handle(i, true, true)]);
    DoOne(s, Step.Send(i, p));
    var s1 := s.(conns := s.conns[i := Sent(c, p)]);
    assert Next(s, Step.Send(i, p)) == s1;
    DoOne(s1, Step.Handle(i, true, true));
    assert s1.conns[i].uplink == [p] && [p][1..] == [];
    DispatchedExactly(s1, i, true, true);
    assert s1.conns[i := Taken(s1.conns[i])] == s.conns[i := Asked(c, p)];
  }

  lemma Took(s: System, i: nat, f: Frame, rest: seq<Frame>, client: Client)
    requires i < |s.conns| && s.conns[i].open && s.conns[i].wants == DeskRole && s.conns[i].downlink == [f] + rest
    requires Deliver(s.conns[i].client, f) == Some(client)
    ensures Do(s, [Step.Receive(i)]) ==
      s.(conns := s.conns[i := s.conns[i].(downlink := rest, client := client, log := Answered(s.conns[i].log, f))])
  {
    hide Deliver;
    DoOne(s, Step.Receive(i));
    assert ([f] + rest)[1..] == rest;
  }

  lemma AnsweredOnce(log: seq<Entry>, p: Packet, f: Frame)
    requires f.Reply? && f.request == p.request == |log| + 1
    ensures Answered(log + [Entry(p, None)], f) == log + [Entry(p, Some(f.code))]
  {
  }

  /** The lease is free: the desk asks for it and has it, under the next generation. */
  lemma BeginGetsThrough(s: System, i: nat)
    requires AtRest(s, i) && s.owner.None? && |s.conns[i].log| < LAST_REQUEST
    ensures var s' := Do(s, Exchange(s, i, Begin, ""));
      Through(s, s', i, Request(s, i, Begin, "")) && s'.owner == Some(i) && s'.generation == s.generation + 1 && s'.trace == s.trace
  {
    hide Do, Serve, MaySend;
    var c, p := s.conns[i], Request(s, i, Begin, "");
    Allowed(s, i, p);
    var s0 := s.(conns := s.conns[i := Asked(c, p)]);
    var s1 := Serve(s0, i, p, true, true);
    SentAndHandled(s, i, p);
    ServedExactly(s0, i, p, true, true);
    var answer, news := Reply(Some(Begin), p.request, OK, s.generation + 1, []), Event(LEASE, 0, BUSY, s.generation + 1, []);
    assert s1.conns[i].downlink == [answer] + [news];
    var session := c.client.session.(lease := Some(s.generation + 1), generation := s.generation + 1);
    Took(s1, i, answer, [news], Client(session, None));
    AnsweredOnce(c.log, p, answer);
    var s2 := Do(s1, [Step.Receive(i)]);
    Took(s2, i, news, [], Client(session.(held := true), None));
    Steps4(s, i, Step.Send(i, p), Step.Handle(i, true, true));
  }

  lemma Allowed(s: System, i: nat, p: Packet)
    requires AtRest(s, i) && |s.conns[i].log| < LAST_REQUEST && p == Packet(|s.conns[i].log| + 1, p.kind, s.generation, p.path)
    requires if p.kind == Begin then s.owner.None? else p.kind in {End, Write} && s.owner == Some(i)
    ensures MaySend(s.conns[i], p)
  {
  }

  lemma Steps4(s: System, i: nat, a: Step, b: Step)
    ensures Do(s, [a, b] + [Step.Receive(i), Step.Receive(i)]) == Do(Do(Do(s, [a, b]), [Step.Receive(i)]), [Step.Receive(i)])
    ensures Do(s, [a, b] + [Step.Receive(i)]) == Do(Do(s, [a, b]), [Step.Receive(i)])
  {
    hide Do;
    DoBoth(s, [a, b], [Step.Receive(i)] + [Step.Receive(i)]);
    DoBoth(Do(s, [a, b]), [Step.Receive(i)], [Step.Receive(i)]);
    assert [Step.Receive(i)] + [Step.Receive(i)] == [Step.Receive(i), Step.Receive(i)];
    DoBoth(s, [a, b], [Step.Receive(i)]);
  }

  /** Under its lease a valid write is carried out and acknowledged. */
  lemma WriteGetsThrough(s: System, i: nat, path: string)
    requires AtRest(s, i) && s.owner == Some(i) && |s.conns[i].log| < LAST_REQUEST
    ensures var s', p := Do(s, Exchange(s, i, Write, path)), Request(s, i, Write, path);
      && Through(s, s', i, p) && s'.owner == s.owner && s'.generation == s.generation
      && s'.trace == s.trace + [Processed(i, p.request, path, s.generation)]
  {
    hide Do, Serve, MaySend, Deliver, Answered;
    var c, p := s.conns[i], Request(s, i, Write, path);
    Allowed(s, i, p);
    var s0 := s.(conns := s.conns[i := Asked(c, p)]);
    var s1 := Serve(s0, i, p, true, true);
    SentAndHandled(s, i, p);
    ServedExactly(s0, i, p, true, true);
    var answer := Reply(Some(Write), p.request, OK, s.generation, []);
    assert s1.conns[i].downlink == [answer] + [];
    AcknowledgedWrite(c.client.session, p, answer);
    Took(s1, i, answer, [], Client(c.client.session, None));
    AnsweredOnce(c.log, p, answer);
    Steps4(s, i, Step.Send(i, p), Step.Handle(i, true, true));
  }

  lemma AcknowledgedWrite(session: Session, p: Packet, answer: Frame)
    requires p.kind == Write && session.lease.Some? && answer == Reply(Some(Write), p.request, OK, session.lease.value, [])
    ensures Deliver(Asking(session, p), answer) == Some(Client(session, None))
  {
  }

  /** The lease is given back, and free. */
  lemma EndGetsThrough(s: System, i: nat)
    requires AtRest(s, i) && s.owner == Some(i) && |s.conns[i].log| < LAST_REQUEST
    ensures var s' := Do(s, Exchange(s, i, End, ""));
      Through(s, s', i, Request(s, i, End, "")) && s'.owner.None? && s'.generation == s.generation + 1 && s'.trace == s.trace
  {
    hide Do, Serve, MaySend;
    var c, p := s.conns[i], Request(s, i, End, "");
    Allowed(s, i, p);
    var s0 := s.(conns := s.conns[i := Asked(c, p)]);
    var s1 := Serve(s0, i, p, true, true);
    SentAndHandled(s, i, p);
    ServedExactly(s0, i, p, true, true);
    var answer, news := Reply(Some(End), p.request, OK, s.generation + 1, []), Event(LEASE, 0, OK, s.generation + 1, []);
    assert s1.conns[i].downlink == [news] + [answer];
    var session := c.client.session.(lease := None, generation := s.generation + 1, held := false);
    Took(s1, i, news, [answer], Client(session, Some(p)));
    var s2 := Do(s1, [Step.Receive(i)]);
    Took(s2, i, answer, [], Client(session, None));
    AnsweredOnce(c.log, p, answer);
    Steps4(s, i, Step.Send(i, p), Step.Handle(i, true, true));
  }

  const HELLO := Packet(1, Hello, 0, "")

  function Greeting(i: nat, sources: set<nat>): seq<Step> {
    [Step.Accept(DeskRole, sources), Step.Send(i, HELLO), Step.Handle(i, true, true)] + [Step.Receive(i), Step.Receive(i)]
  }

  /** A new desk's connection once its HELLO was taken, with these packets on their way to it. */
  function Newcomer(sources: set<nat>, frames: seq<Frame>): Conn {
    Got(Asked(Fresh(DeskRole, sources), HELLO).(role := Some(DeskRole)), frames)
  }

  lemma GreetingSent(s: System, sources: set<nat>)
    ensures var i := |s.conns|;
      Do(s, [Step.Accept(DeskRole, sources), Step.Send(i, HELLO), Step.Handle(i, true, true)]) ==
      s.(conns := s.conns + [Newcomer(sources,
        [Reply(Some(Hello), 1, OK, s.generation, []), Event(LEASE, 0, if s.owner.Some? then BUSY else OK, s.generation, [])])])
  {
    hide Do, Dispatch, Fresh;
    var i, newcomer := |s.conns|, Fresh(DeskRole, sources);
    FreshIs(sources);
    var accept, send, handle := Step.Accept(DeskRole, sources), Step.Send(i, HELLO), Step.Handle(i, true, true);
    var s0 := s.(conns := s.conns + [newcomer]);
    DoOne(s, accept);
    var s1 := s.(conns := s.conns + [Sent(newcomer, HELLO)]);
    assert s0.conns[i := Sent(newcomer, HELLO)] == s1.conns;
    DoOne(s0, send);
    DoOne(s1, handle);
    DispatchedExactly(s1, i, true, true);
    var c1, frames := s1.conns[i],
      [Reply(Some(Hello), 1, OK, s.generation, []), Event(LEASE, 0, if s.owner.Some? then BUSY else OK, s.generation, [])];
    assert c1.uplink == [HELLO] && [HELLO][1..] == [];
    assert Got(Taken(c1).(role := Some(c1.wants)), frames) == Newcomer(sources, frames);
    assert s1.conns[i := Newcomer(sources, frames)] == s.conns + [Newcomer(sources, frames)];
    Steps3(s, accept, send, handle);
  }

  lemma FreshIs(sources: set<nat>)
    ensures var c := Fresh(DeskRole, sources);
      && c.alive && c.open && c.wants == DeskRole && c.role.None? && c.uplink == [] && c.downlink == [] && c.handled == 0 && c.log == []
      && c.client == Client(Session(false, sources, None, 0, false, 0), None)
      && MaySend(c, HELLO)
  {
  }

  /** A new desk is greeted at any time. */
  lemma GreetingGetsThrough(s: System, sources: set<nat>)
    requires s.owner != Some(|s.conns|)
    ensures var i := |s.conns|; var s' := Do(s, Greeting(i, sources));
      && AtRest(s', i) && s'.owner == s.owner && s'.generation == s.generation && s'.trace == s.trace && |s'.conns[i].log| == 1
  {
    hide Do, Fresh;
    FreshIs(sources);
    GreetingSent(s, sources);
    var i, receive := |s.conns|, Step.Receive(|s.conns|);
    var answer, news := Reply(Some(Hello), 1, OK, s.generation, []), Event(LEASE, 0, if s.owner.Some? then BUSY else OK, s.generation, []);
    var s2 := s.(conns := s.conns + [Newcomer(sources, [answer, news])]);
    assert s2.conns[i].downlink == [answer] + [news];
    var session := Fresh(DeskRole, sources).client.session.(greeted := true, generation := s.generation);
    Took(s2, i, answer, [news], Client(session, None));
    AnsweredOnce([], HELLO, answer);
    var s3 := Do(s2, [receive]);
    Took(s3, i, news, [], Client(session.(held := s.owner.Some?), None));
    DoBoth(s, [Step.Accept(DeskRole, sources), Step.Send(i, HELLO), Step.Handle(i, true, true)], [receive] + [receive]);
    DoBoth(s2, [receive], [receive]);
    assert [receive] + [receive] == [receive, receive];
  }

  lemma Steps3(s: System, a: Step, b: Step, c: Step)
    ensures Do(s, [a, b, c]) == Do(Do(Do(s, [a]), [b]), [c])
  {
    hide Do;
    DoBoth(s, [a], [b] + [c]);
    DoBoth(Do(s, [a]), [b], [c]);
    assert [a] + ([b] + [c]) == [a, b, c];
  }

  function BurstSteps(s: System, i: nat, paths: seq<string>): seq<Step>
    decreases |paths|
  {
    if paths == [] || i >= |s.conns| then []
    else
      var first := Exchange(s, i, Write, paths[0]);
      first + BurstSteps(Do(s, first), i, paths[1..])
  }

  /** The writes of these paths, numbered from here on. */
  function Numbered(i: nat, request: nat, paths: seq<string>, generation: nat): seq<Processed> {
    seq(|paths|, k requires 0 <= k < |paths| => Processed(i, request + k, paths[k], generation))
  }

  lemma {:induction false} BurstGetsThrough(s: System, i: nat, paths: seq<string>)
    requires AtRest(s, i) && s.owner == Some(i) && |s.conns[i].log| + |paths| <= LAST_REQUEST
    ensures var s' := Do(s, BurstSteps(s, i, paths));
      && AtRest(s', i) && s'.owner == Some(i) && s'.generation == s.generation && |s'.conns| == |s.conns|
      && |s'.conns[i].log| == |s.conns[i].log| + |paths|
      && s'.trace == s.trace + Numbered(i, |s.conns[i].log| + 1, paths, s.generation)
    decreases |paths|
  {
    hide Do, Exchange, AtRest;
    RestHas(s, i);
    if paths != [] {
      var first := Exchange(s, i, Write, paths[0]);
      var s1 := Do(s, first);
      WriteGetsThrough(s, i, paths[0]);
      BurstGetsThrough(s1, i, paths[1..]);
      DoBoth(s, first, BurstSteps(s1, i, paths[1..]));
      assert Numbered(i, |s.conns[i].log| + 1, paths, s.generation)
        == [Processed(i, |s.conns[i].log| + 1, paths[0], s.generation)] + Numbered(i, |s.conns[i].log| + 2, paths[1..], s.generation);
    } else {
      DoNothing(s);
    }
  }

  lemma RestHas(s: System, i: nat)
    ensures AtRest(s, i) ==> i < |s.conns|
  {
  }

  lemma DoNothing(s: System)
    ensures Do(s, []) == s
  {
  }

  /** One operation: the lease, a burst, and the lease given back. */
  function Operation(s: System, i: nat, paths: seq<string>): seq<Step>
    requires i < |s.conns|
  {
    var begin := Exchange(s, i, Begin, "");
    var s1 := Do(s, begin);
    var burst := BurstSteps(s1, i, paths);
    var s2 := Do(s1, burst);
    begin + burst + if i < |s2.conns| then Exchange(s2, i, End, "") else []
  }

  /**
   * From wherever a run has come to, a desk's connection that is up with nothing on its way, and the
   * lease free: one operation carries out exactly its burst, in order, under a generation of its own,
   * and leaves the lease free.
   */
  lemma OperationGetsThrough(steps: seq<Step>, i: nat, paths: seq<string>)
    requires i < |Run(steps).conns| && Run(steps).owner.None?
    requires var c := Run(steps).conns[i];
      Established(c) && c.open && c.wants == DeskRole && c.uplink == [] && c.downlink == [] && |c.log| + |paths| + 2 <= LAST_REQUEST
    ensures var s, s' := Run(steps), Run(steps + Operation(Run(steps), i, paths));
      && s'.trace == s.trace + Numbered(i, |s.conns[i].log| + 2, paths, s.generation + 1)
      && s'.owner.None? && s'.generation == s.generation + 2 && AtRest(s', i)
  {
    hide Run, Do, Exchange, BurstSteps, AtRest;
    var s := Run(steps);
    ReachedAtRest(steps, i);
    BeginGetsThrough(s, i);
    var begin := Exchange(s, i, Begin, "");
    var s1 := Do(s, begin);
    BurstGetsThrough(s1, i, paths);
    var burst := BurstSteps(s1, i, paths);
    var s2 := Do(s1, burst);
    EndGetsThrough(s2, i);
    var end := Exchange(s2, i, End, "");
    DoBoth(s, begin, burst);
    DoBoth(s, begin + burst, end);
    RunThen(steps, Operation(s, i, paths));
  }

  /** The same of a desk that connects only then. */
  lemma DeskGetsThrough(steps: seq<Step>, sources: set<nat>, paths: seq<string>)
    requires Run(steps).owner.None? && |paths| + 3 <= LAST_REQUEST
    ensures var s, i := Run(steps), |Run(steps).conns|;
      var greeted := steps + Greeting(i, sources);
      && i < |Run(greeted).conns|
      && var s' := Run(greeted + Operation(Run(greeted), i, paths));
      && s'.trace == s.trace + Numbered(i, 3, paths, s.generation + 1) && s'.owner.None? && AtRest(s', i)
  {
    hide Run, Do, Greeting, Operation;
    var i := |Run(steps).conns|;
    GreetingGetsThrough(Run(steps), sources);
    RunThen(steps, Greeting(i, sources));
    OperationGetsThrough(steps + Greeting(i, sources), i, paths);
  }

  lemma RunThen(steps: seq<Step>, more: seq<Step>)
    ensures Run(steps + more) == Do(Run(steps), more)
  {
    hide Run, Do;
    RunIsDo(steps + more);
    RunIsDo(steps);
    DoBoth(INITIAL, steps, more);
  }

  /** While nobody owns the lease, a mixer's valid write under the current generation is carried out at once. */
  lemma MixerGetsThrough(s: System, i: nat, path: string)
    requires i < |s.conns| && s.owner.None?
    requires var c := s.conns[i]; Established(c) && c.open && c.wants == GuiRole && c.role == Some(GuiRole) && c.uplink == []
    ensures var p := Packet(s.conns[i].handled + 1, Write, s.generation, path);
      var s' := Do(s, [Step.Send(i, p), Step.Handle(i, true, true)]);
      s'.trace == s.trace + [Processed(i, p.request, path, s.generation)] && s'.owner.None? && s'.generation == s.generation
  {
    hide Do, Dispatch, Serve;
    var c, p := s.conns[i], Packet(s.conns[i].handled + 1, Write, s.generation, path);
    var send, handle := Step.Send(i, p), Step.Handle(i, true, true);
    DoBoth(s, [send], [handle]);
    assert [send] + [handle] == [send, handle];
    DoOne(s, send);
    var s1 := s.(conns := s.conns[i := c.(uplink := [p])]);
    assert c.uplink + [p] == [p];
    assert Next(s, send) == s1;
    DoOne(s1, handle);
    DispatchedExactly(s1, i, true, true);
    ServedExactly(s1.(conns := s1.conns[i := Taken(s1.conns[i])]), i, p, true, true);
  }
}
