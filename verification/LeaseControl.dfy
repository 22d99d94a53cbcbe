/** The clients of a run and `Control`: a connection's past is a history of `Control`, and what `send` says is true of the run. */
module LeaseControl {
  import opened Wrappers
  import opened Protocol
  import opened OperationLease
  import opened LeaseClients
  import opened WriteAccounts
  import opened Bursts
  import opened Backend

  /** What one step has a desk or reader connection do. */
  function MoveOf(s: System, step: Step, i: nat): seq<Move> {
    if i >= |s.conns| || !s.conns[i].open || s.conns[i].wants == GuiRole then []
    else if step.Send? && step.i == i && MaySend(s.conns[i], step.packet) then [Asks(step.packet)]
    else if step.Receive? && step.i == i && s.conns[i].downlink != [] then [Hears(s.conns[i].downlink[0])]
    else []
  }

  /** Everything a run has it ask and hear, in order. */
  function MovesOf(steps: seq<Step>, i: nat): seq<Move> {
    if steps == [] then []
    else
      var before := steps[..|steps| - 1];
      MovesOf(before, i) + MoveOf(Run(before), steps[|steps| - 1], i)
  }

  /** These moves are a history `Control` allows, and lead to this client and log. */
  ghost predicate Lived(c: Conn, moves: seq<Move>) {
    History(c.client.session.sources, moves) == Some(Mind(c.client, c.log))
  }

  ghost predicate SameMind(c: Conn, c': Conn) {
    c'.client == c.client && c'.log == c.log && c'.wants == c.wants
  }

  lemma LivedOn(c: Conn, c': Conn, moves: seq<Move>)
    requires Lived(c, moves)
    ensures SameMind(c, c') ==> Lived(c', moves)
    ensures c.downlink != [] && c.wants != GuiRole && Deliver(c.client, c.downlink[0]).Some? && c' == Received(c) ==>
      Lived(c', moves + [Hears(c.downlink[0])])
  {
    hide Deliver;
    if c.downlink != [] && c.wants != GuiRole && Deliver(c.client, c.downlink[0]).Some? && c' == Received(c) {
      HistoryGrows(c.client.session.sources, moves, Hears(c.downlink[0]));
      DeliverKeeps(c.client, c.downlink[0]);
    }
  }

  lemma LivedAsking(c: Conn, moves: seq<Move>, p: Packet)
    requires Lived(c, moves) && MaySend(c, p)
    ensures Lived(Sent(c, p), moves + [Asks(p)])
  {
    hide MayAsk;
    AsksNext(c.client.session.sources, moves, c.client, c.log, p);
  }

  lemma DispatchKeepsMinds(s: System, i: nat, valid: bool, refreshable: bool, k: nat)
    requires i < |s.conns| && s.conns[i].alive && s.conns[i].uplink != [] && k < |s.conns|
    ensures |Dispatch(s, i, valid, refreshable).conns| == |s.conns|
    ensures SameMind(s.conns[k], Dispatch(s, i, valid, refreshable).conns[k])
  {
    hide Serve, LeaseEvent, Told;
    var c := s.conns[i];
    var p := c.uplink[0];
    if p.request == c.handled + 1 && c.role.Some? {
      var s0 := s.(conns := s.conns[i := Taken(c)]);
      ServeCount(s0, i, p, valid, refreshable);
      if k == i {
        ServeReplies(s0, i, p, valid, refreshable);
      } else {
        ServeOverheard(s0, i, p, valid, refreshable, k);
      }
    }
  }

  ghost predicate AllLived(steps: seq<Step>) {
    forall i :: 0 <= i < |Run(steps).conns| && Run(steps).conns[i].wants != GuiRole ==> Lived(Run(steps).conns[i], MovesOf(steps, i))
  }

  lemma NextCount(s: System, step: Step)
    ensures |Next(s, step).conns| == if step.Accept? then |s.conns| + 1 else |s.conns|
  {
    hide Dispatch, LeaseEvent, Told, Received, Sent, MaySend;
    if step.Handle? && step.i < |s.conns| && s.conns[step.i].alive && s.conns[step.i].uplink != [] {
      DispatchKeepsMinds(s, step.i, step.valid, step.refreshable, step.i);
    }
  }

  lemma Begun(wants: Role, sources: set<nat>)
    ensures Lived(Fresh(wants, sources), [])
  {
  }

  /** A connection that does not exist yet has done nothing. */
  lemma {:induction false} NothingBefore(steps: seq<Step>, i: nat)
    ensures i >= |Run(steps).conns| ==> MovesOf(steps, i) == []
  {
    hide Next;
    if steps != [] {
      var before := steps[..|steps| - 1];
      NothingBefore(before, i);
      NextCount(Run(before), steps[|steps| - 1]);
    }
  }

  lemma MindStep(s: System, step: Step, k: nat, moves: seq<Move>)
    requires AllOk(s) && k < |s.conns| && k < |Next(s, step).conns| && Next(s, step).conns[k].wants != GuiRole
    requires s.conns[k].wants != GuiRole ==> Lived(s.conns[k], moves)
    ensures Lived(Next(s, step).conns[k], moves + MoveOf(s, step, k))
  {
    hide Lived, ConnOk, Dispatch, LeaseEvent, MaySend;
    var c, c' := s.conns[k], Next(s, step).conns[k];
    if step.Handle? && step.i < |s.conns| && s.conns[step.i].alive && s.conns[step.i].uplink != [] {
      DispatchKeepsMinds(s, step.i, step.valid, step.refreshable, k);
    }
    assert c.wants == c'.wants;
    assert moves + [] == moves;
    LivedOn(c, c', moves);
    if step.Send? && step.i == k && c.open && MaySend(c, step.packet) {
      LivedAsking(c, moves, step.packet);
    } else if step.Receive? && step.i == k && c.open && c.downlink != [] {
      ReplaySome(c, k, s.owner, s.generation, s.observation);
      ReplayHead(c.client, c.downlink);
    } else {
      assert SameMind(c, c');
    }
  }

  /** In every run a desk or reader connection is where the history of what it asked and heard leads. */
  lemma {:induction false} EveryConnectionIsAControl(steps: seq<Step>)
    ensures AllLived(steps)
  {
    hide Next, Lived, MoveOf;
    if steps != [] {
      var before, step := steps[..|steps| - 1], steps[|steps| - 1];
      var s := Run(before);
      EveryConnectionIsAControl(before);
      RunOk(before);
      NextCount(s, step);
      forall k | 0 <= k < |Run(steps).conns| && Run(steps).conns[k].wants != GuiRole ensures Lived(Run(steps).conns[k], MovesOf(steps, k)) {
        if k < |s.conns| {
          SameWants(s, step, k);
          MindStep(s, step, k, MovesOf(before, k));
        } else {
          NewConnection(s, step);
          NothingBefore(before, k);
          Begun(step.wants, step.sources);
          assert MovesOf(steps, k) == [] + [];
        }
      }
    }
  }

  lemma NewConnection(s: System, step: Step)
    requires step.Accept?
    ensures var k := |s.conns|; Next(s, step).conns[k] == Fresh(step.wants, step.sources) && MoveOf(s, step, k) == []
  {
  }

  lemma SameWants(s: System, step: Step, k: nat)
    requires k < |s.conns| && k < |Next(s, step).conns|
    ensures Next(s, step).conns[k].wants == s.conns[k].wants
  {
    hide Dispatch, LeaseEvent, MaySend, Deliver;
    if step.Handle? && step.i < |s.conns| && s.conns[step.i].alive && s.conns[step.i].uplink != [] {
      DispatchKeepsMinds(s, step.i, step.valid, step.refreshable, k);
    }
  }

  // What `send` says, against the run

  function PathsOf(writes: seq<Processed>): (paths: seq<string>)
    ensures |paths| == |writes| && forall k :: 0 <= k < |writes| ==> paths[k] == writes[k].path
  {
    seq(|writes|, k requires 0 <= k < |writes| => writes[k].path)
  }

  /**
   * A `Control` that has asked and heard what a run has connection i ask and hear, and a burst it has
   * just sent: the backend carried out, in order, everything the burst calls written, but for at most
   * the last of it where that was not acknowledged, and nothing it calls unwritten.
   */
  lemma SendIsTrueOfTheRun(
      steps: seq<Step>, i: nat, moves: seq<Move>, client: Client, log: seq<Entry>,
      lo: nat, burst: seq<Message>, result: SendResult, acknowledged: seq<Message>, at: seq<nat>)
    requires i < |Run(steps).conns| && Run(steps).conns[i].wants != GuiRole && moves == MovesOf(steps, i)
    requires History(Run(steps).conns[i].client.session.sources, moves) == Some(Mind(client, log))
    requires Reported(result, burst, acknowledged, at, lo, log)
    ensures log == Run(steps).conns[i].log
    ensures var carried := PathsOf(WritesOf(Run(steps).trace, i, lo, |log|));
      && Paths(acknowledged) <= carried
      && (result.AllWritten? ==> carried == Paths(burst))
      && (result.WriteFailed? ==>
            || carried == result.written
            || (|result.written| == |acknowledged| + 1 && carried == result.written[..|acknowledged|]))
  {
    hide Run, WritesOf, History;
    EveryConnectionIsAControl(steps);
    ThisOneLived(steps, i);
    var written := if result.AllWritten? then |burst| else |result.written|;
    var paths := Paths(burst);
    ReportedLog(result, burst, acknowledged, at, lo, log);
    WrittenIsWhatWasCarriedOut(steps, i, lo, paths, at, written);
    var w := WritesOf(Run(steps).trace, i, lo, |log|);
    var carried := PathsOf(w);
    assert carried == paths[..|w|];
    assert paths[..written] == if result.AllWritten? then paths else result.written;
    assert Paths(acknowledged) == paths[..|acknowledged|];
  }

  lemma ThisOneLived(steps: seq<Step>, i: nat)
    requires AllLived(steps) && i < |Run(steps).conns| && Run(steps).conns[i].wants != GuiRole
    ensures History(Run(steps).conns[i].client.session.sources, MovesOf(steps, i)) == Some(Mind(Run(steps).conns[i].client, Run(steps).conns[i].log))
  {
    hide Run, History;
  }

  lemma ReportedLog(result: SendResult, burst: seq<Message>, acknowledged: seq<Message>, at: seq<nat>, lo: nat, log: seq<Entry>)
    requires Reported(result, burst, acknowledged, at, lo, log)
    ensures var written := if result.AllWritten? then |burst| else |result.written|;
      && BurstLog(log, lo, Paths(burst), at, written) && acknowledged == burst[..|acknowledged|]
      && |acknowledged| <= written <= |acknowledged| + 1 && |acknowledged| <= |at|
      && (result.WriteFailed? ==> result.written == Paths(burst)[..written])
      && (result.AllWritten? ==> acknowledged == burst)
      && (written == |acknowledged| && written > 0 ==> log[at[written - 1] - 1].answer == Some(OK))
  {
    if result.AllWritten? {
      assert burst[..|burst|] == burst;
    }
  }
}
