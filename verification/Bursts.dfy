/** One burst of writes: what `send` reports of it, and what the backend carried out. */
module Bursts {
  import opened Wrappers
  import opened Protocol
  import opened OperationLease
  import opened LeaseClients
  import opened WriteAccounts

  /**
   * How a burst left the log, from entry `lo` on: `at` numbers the requests that were its writes,
   * in order; all `written` ones but perhaps the last were acknowledged, and one more may have
   * been refused.
   */
  ghost predicate BurstLog(log: seq<Entry>, lo: nat, paths: seq<string>, at: seq<nat>, written: nat) {
    && written <= |paths| && |at| <= |paths| && written <= |at| <= written + 1
    && (forall j :: 0 <= j < |at| ==> lo < at[j] <= |log| && log[at[j] - 1].packet.kind == Write && log[at[j] - 1].packet.path == paths[j])
    && (forall j, k :: 0 <= j < k < |at| ==> at[j] < at[k])
    && (forall r :: lo < r <= |log| && log[r - 1].packet.kind == Write ==> r in at)
    && (forall j :: 0 <= j < written ==> log[at[j] - 1].answer == Some(OK) || (j == written - 1 && log[at[j] - 1].answer.None?))
    && (|at| > written ==> log[at[written] - 1].answer.Some? && log[at[written] - 1].answer.value != OK)
  }

  /** Every write so far was acknowledged. */
  ghost predicate Acknowledged(log: seq<Entry>, at: seq<nat>) {
    forall j :: 0 <= j < |at| ==> 1 <= at[j] <= |log| && log[at[j] - 1].answer == Some(OK)
  }

  lemma BurstStarts(log: seq<Entry>, paths: seq<string>)
    ensures BurstLog(log, |log|, paths, [], 0) && Acknowledged(log, [])
  {
  }

  /** Requests that write nothing do not belong to the burst. */
  lemma BurstWaits(log: seq<Entry>, longer: seq<Entry>, lo: nat, paths: seq<string>, at: seq<nat>, written: nat)
    requires BurstLog(log, lo, paths, at, written) && Acknowledged(log, at) && log <= longer
    requires forall k :: |log| <= k < |longer| ==> longer[k].packet.kind != Write
    ensures BurstLog(longer, lo, paths, at, written) && Acknowledged(longer, at)
  {
    forall r | lo < r <= |longer| && longer[r - 1].packet.kind == Write ensures r in at {
      assert r <= |log| && log[r - 1] == longer[r - 1];
    }
  }

  /** One more write was sent; its answer decides whether it is called written. */
  lemma BurstWrites(log: seq<Entry>, lo: nat, paths: seq<string>, at: seq<nat>, token: nat, answer: Option<nat>)
    requires BurstLog(log, lo, paths, at, |at|) && Acknowledged(log, at) && |at| < |paths| && lo <= |log|
    ensures var longer := log + [Entry(Packet(|log| + 1, Write, token, paths[|at|]), answer)];
      var more := at + [|log| + 1];
      && BurstLog(longer, lo, paths, more, if answer.None? || answer.value == OK then |at| + 1 else |at|)
      && (answer == Some(OK) ==> Acknowledged(longer, more)) && Acknowledged(longer, at)
  {
    var longer := log + [Entry(Packet(|log| + 1, Write, token, paths[|at|]), answer)];
    var more := at + [|log| + 1];
    forall r | lo < r <= |longer| && longer[r - 1].packet.kind == Write ensures r in more {
      if r <= |log| {
        assert longer[r - 1] == log[r - 1] && r in at;
      } else {
        assert more[|at|] == r;
      }
    }
  }

  /** The writes of connection i carried out for its requests after lo up to hi, in order. */
  function WritesOf(trace: seq<Processed>, i: nat, lo: nat, hi: nat): seq<Processed> {
    if trace == [] then []
    else
      var e := trace[|trace| - 1];
      WritesOf(trace[..|trace| - 1], i, lo, hi) + (if e.writer == i && lo < e.request <= hi then [e] else [])
  }

  ghost predicate InOrder(trace: seq<Processed>, i: nat) {
    forall j, k :: 0 <= j < k < |trace| && trace[j].writer == i && trace[k].writer == i ==> trace[j].request < trace[k].request
  }

  lemma {:induction false} WritesOfMembers(trace: seq<Processed>, i: nat, lo: nat, hi: nat)
    ensures forall e :: e in WritesOf(trace, i, lo, hi) <==> e in trace && e.writer == i && lo < e.request <= hi
  {
    if trace != [] {
      var shorter, e := trace[..|trace| - 1], trace[|trace| - 1];
      assert trace == shorter + [e];
      WritesOfMembers(shorter, i, lo, hi);
    }
  }

  ghost predicate RequestsAscend(w: seq<Processed>) {
    forall j, k :: 0 <= j < k < |w| ==> w[j].request < w[k].request
  }

  lemma {:induction false} WritesOfAscend(trace: seq<Processed>, i: nat, lo: nat, hi: nat)
    requires InOrder(trace, i)
    ensures RequestsAscend(WritesOf(trace, i, lo, hi))
  {
    if trace != [] {
      var shorter, e := trace[..|trace| - 1], trace[|trace| - 1];
      assert InOrder(shorter, i);
      WritesOfAscend(shorter, i, lo, hi);
      var w := WritesOf(shorter, i, lo, hi);
      if e.writer == i && lo < e.request <= hi {
        forall j | 0 <= j < |w| ensures w[j].request < e.request {
          WritesOfMembers(shorter, i, lo, hi);
          assert w[j] in w;
          var k :| 0 <= k < |shorter| && shorter[k] == w[j];
          assert trace[k] == w[j] && trace[|shorter|] == e;
        }
        AscendsLonger(w, e);
      } else {
        assert WritesOf(trace, i, lo, hi) == w;
      }
    }
  }

  lemma AscendsLonger(w: seq<Processed>, e: Processed)
    requires RequestsAscend(w) && forall j :: 0 <= j < |w| ==> w[j].request < e.request
    ensures RequestsAscend(w + [e])
  {
  }

  ghost predicate Ascending(a: seq<nat>) {
    forall j, k :: 0 <= j < k < |a| ==> a[j] < a[k]
  }

  /** Two ascending lists with the same elements are the same list. */
  lemma {:induction false} AscendingAgree(a: seq<nat>, b: seq<nat>)
    requires Ascending(a) && Ascending(b) && forall x :: x in a <==> x in b
    ensures a == b
  {
    LastIsIn(a);
    LastIsIn(b);
    if a != [] && b != [] {
      var m, n := |a| - 1, |b| - 1;
      LastIsGreatest(a, b[n]);
      LastIsGreatest(b, a[m]);
      assert a == a[..m] + [a[m]] && b == b[..n] + [b[n]];
      hide Ascending;
      forall x ensures x in a[..m] <==> x in b[..n] {
        BelowLast(a, x);
        BelowLast(b, x);
      }
      BelowLast(a, 0);
      BelowLast(b, 0);
      AscendingAgree(a[..m], b[..n]);
    }
  }

  lemma LastIsGreatest(a: seq<nat>, x: nat)
    requires x in a && Ascending(a)
    ensures x <= a[|a| - 1]
  {
  }

  lemma BelowLast(a: seq<nat>, x: nat)
    requires a != [] && Ascending(a)
    ensures Ascending(a[..|a| - 1])
    ensures x in a[..|a| - 1] <==> x in a && x != a[|a| - 1]
  {
    assert a == a[..|a| - 1] + [a[|a| - 1]];
    if x in a[..|a| - 1] {
      var j :| 0 <= j < |a| - 1 && a[j] == x;
    }
  }

  lemma LastIsIn(a: seq<nat>)
    ensures |a| > 0 ==> a[|a| - 1] in a
  {
  }

  function Numbers(w: seq<Processed>): (numbers: seq<nat>)
    ensures |numbers| == |w| && forall j :: 0 <= j < |w| ==> numbers[j] == w[j].request
  {
    seq(|w|, j requires 0 <= j < |w| => w[j].request)
  }

  /** How many writes of a burst were carried out: all it calls written, or all but an unanswered last one. */
  ghost function Carried(trace: seq<Processed>, i: nat, at: seq<nat>, written: nat): (count: nat)
    requires written <= |at|
    ensures count == written || (written > 0 && count == written - 1)
  {
    if written > 0 && !Done(trace, i, at[written - 1]) then written - 1 else written
  }

  lemma CarriedOnes(c: Conn, i: nat, trace: seq<Processed>, lo: nat, paths: seq<string>, at: seq<nat>, written: nat, r: nat)
    requires LogOk(c, i, trace) && c.wants != GuiRole && BurstLog(c.log, lo, paths, at, written)
    ensures r in at[..Carried(trace, i, at, written)] <==> lo < r <= |c.log| && Done(trace, i, r)
  {
    hide Done, ReplyTrue;
    if lo < r <= |c.log| && Done(trace, i, r) {
      DoneIsWrite(c, i, trace, r);
      assert r in at;
      var j :| 0 <= j < |at| && at[j] == r;
      assert EntryTrue(c.log[r - 1], r, i, trace);
      assert j < written;
      assert at[..Carried(trace, i, at, written)][j] == r;
    }
    if r in at[..Carried(trace, i, at, written)] {
      var j :| 0 <= j < Carried(trace, i, at, written) && at[j] == r;
      assert EntryTrue(c.log[r - 1], r, i, trace);
    }
  }

  lemma DoneIsWrite(c: Conn, i: nat, trace: seq<Processed>, r: nat)
    requires LogOk(c, i, trace) && c.wants != GuiRole && Done(trace, i, r)
    ensures 1 <= r <= |c.log| && c.log[r - 1].packet.kind == Write
  {
    var k :| 0 <= k < |trace| && trace[k].writer == i && trace[k].request == r;
    assert Accounted(trace[k], c);
  }

  /**
   * In every run, what the backend carried out of a burst is exactly its written paths in order,
   * less at most an unacknowledged last one: every write carried out is called written, and none
   * called unwritten was carried out.
   */
  lemma WrittenIsWhatWasCarriedOut(steps: seq<Step>, i: nat, lo: nat, paths: seq<string>, at: seq<nat>, written: nat)
    requires var s := Run(steps); i < |s.conns| && s.conns[i].wants != GuiRole && BurstLog(s.conns[i].log, lo, paths, at, written)
    ensures var s := Run(steps); var log := s.conns[i].log;
      var w := WritesOf(s.trace, i, lo, |log|);
      && (|w| == written || (written > 0 && |w| == written - 1 && log[at[written - 1] - 1].answer.None?))
      && forall j :: 0 <= j < |w| ==> w[j].request == at[j] && w[j].path == paths[j]
  {
    hide Run;
    var s := Run(steps);
    RunLogged(steps);
    LoggedBurst(s.conns[i], i, s.trace, lo, paths, at, written);
  }

  lemma LoggedBurst(c: Conn, i: nat, trace: seq<Processed>, lo: nat, paths: seq<string>, at: seq<nat>, written: nat)
    requires LogOk(c, i, trace) && c.wants != GuiRole && BurstLog(c.log, lo, paths, at, written)
    ensures var w := WritesOf(trace, i, lo, |c.log|);
      && (|w| == written || (written > 0 && |w| == written - 1 && c.log[at[written - 1] - 1].answer.None?))
      && forall j :: 0 <= j < |w| ==> w[j].request == at[j] && w[j].path == paths[j]
  {
    hide Done, ReplyTrue, WritesOf, EntryTrue, Accounted;
    var w := WritesOf(trace, i, lo, |c.log|);
    var count := Carried(trace, i, at, written);
    CarriedNumbers(c, i, trace, lo, paths, at, written);
    forall j | 0 <= j < |w| ensures w[j].request == at[j] && w[j].path == paths[j] {
      assert Numbers(w)[j] == at[..count][j];
      WritePath(c, i, trace, lo, w[j]);
    }
    if count < written {
      LastUnanswered(c, i, trace, at[written - 1]);
    }
  }

  lemma CarriedNumbers(c: Conn, i: nat, trace: seq<Processed>, lo: nat, paths: seq<string>, at: seq<nat>, written: nat)
    requires LogOk(c, i, trace) && c.wants != GuiRole && BurstLog(c.log, lo, paths, at, written)
    ensures Numbers(WritesOf(trace, i, lo, |c.log|)) == at[..Carried(trace, i, at, written)]
  {
    hide Done, LogOk, WritesOf;
    var w := WritesOf(trace, i, lo, |c.log|);
    assert InOrder(trace, i) by { Ordered(c, i, trace); }
    WritesOfMembers(trace, i, lo, |c.log|);
    WritesOfAscend(trace, i, lo, |c.log|);
    var numbers, first := Numbers(w), at[..Carried(trace, i, at, written)];
    NumbersAscend(w);
    forall r ensures r in numbers <==> r in first {
      CarriedOnes(c, i, trace, lo, paths, at, written, r);
      NumbersAreDone(w, i, trace, lo, |c.log|, r);
    }
    AscendingAgree(numbers, first);
  }

  lemma NumbersAscend(w: seq<Processed>)
    requires RequestsAscend(w)
    ensures Ascending(Numbers(w))
  {
  }

  lemma Ordered(c: Conn, i: nat, trace: seq<Processed>)
    requires LogOk(c, i, trace) && c.wants != GuiRole
    ensures InOrder(trace, i)
  {
  }

  lemma WritePath(c: Conn, i: nat, trace: seq<Processed>, lo: nat, e: Processed)
    requires LogOk(c, i, trace) && c.wants != GuiRole && e in WritesOf(trace, i, lo, |c.log|)
    ensures 1 <= e.request <= |c.log| && c.log[e.request - 1].packet.path == e.path
  {
    WritesOfMembers(trace, i, lo, |c.log|);
    var k :| 0 <= k < |trace| && trace[k] == e;
    assert Accounted(trace[k], c);
  }

  /** A write called written that was not carried out has no answer. */
  lemma LastUnanswered(c: Conn, i: nat, trace: seq<Processed>, r: nat)
    requires LogOk(c, i, trace) && c.wants != GuiRole && 1 <= r <= |c.log| && c.log[r - 1].packet.kind == Write
    requires !Done(trace, i, r)
    ensures c.log[r - 1].answer != Some(OK)
  {
    assert EntryTrue(c.log[r - 1], r, i, trace);
  }

  lemma NumbersAreDone(w: seq<Processed>, i: nat, trace: seq<Processed>, lo: nat, hi: nat, r: nat)
    requires forall e :: e in w <==> e in trace && e.writer == i && lo < e.request <= hi
    ensures r in Numbers(w) <==> lo < r <= hi && Done(trace, i, r)
  {
    if r in Numbers(w) {
      var j :| 0 <= j < |w| && w[j].request == r;
      assert w[j] in w;
      var k :| 0 <= k < |trace| && trace[k] == w[j];
    }
    if lo < r <= hi && Done(trace, i, r) {
      var k :| 0 <= k < |trace| && trace[k].writer == i && trace[k].request == r;
      assert trace[k] in trace;
      assert trace[k] in w;
      var j :| 0 <= j < |w| && w[j] == trace[k];
      assert Numbers(w)[j] == r;
    }
  }
}
