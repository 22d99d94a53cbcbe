/**
 * One desk operation: the device lock, the connection, one lease with one END, and the journal.
 * What the caller, the backend and the surroundings answer is scripted; every script is allowed.
 */
module DeskOperation {
  import opened Wrappers
  import opened WriteJournal

  /**
   * What an operation does, in order. `Fail` is the moment it counts as failed, `Abort` the moment
   * it may not be finished any more either. An END is `late` when the operation had been aborted.
   */
  datatype Effect = Lock | Connect | Begin | Write(path: string, value: Value) | End(late: bool) | Fail | Abort | Disconnect | Store | Release

  datatype Error = Misuse | NotUsable | Cancelled | NotPermitted | Raised

  datatype Raise = Nothing | WriteFailure | OtherFailure

  /** What the body of one apply or repair did: the writes it saw acknowledged, and how it came out. */
  datatype Work = Work(writes: seq<(string, Value)>, raises: Raise, complete: bool)

  /** Whether b may come anywhere after a. */
  predicate MayFollow(a: Effect, b: Effect) {
    match a
    case Lock => !b.Lock?
    case Connect => !b.Lock? && !b.Connect?
    case Begin => !b.Lock? && !b.Connect? && !b.Begin?
    case Write(_, _) => !b.Lock? && !b.Connect? && !b.Begin?
    case End(_) => b in {Fail, Abort, Disconnect, Store, Release}
    case Fail => !b.Begin? && !b.Write?
    case Abort => !b.Begin? && !b.Write? && (b.End? ==> b.late)
    case Disconnect => b in {Fail, Abort, Store, Release}
    case Store => !b.Lock? && !b.Connect?
    case Release => false
  }

  ghost predicate InOrder(trace: seq<Effect>) {
    forall i, j :: 0 <= i < j < |trace| ==> MayFollow(trace[i], trace[j])
  }

  ghost predicate Has(trace: seq<Effect>, e: Effect) {
    exists k :: 0 <= k < |trace| && trace[k] == e
  }

  ghost predicate HasWrite(trace: seq<Effect>) {
    exists k :: 0 <= k < |trace| && trace[k].Write?
  }

  /** Every write and the END follow the BEGIN that allowed them. */
  ghost predicate Licensed(trace: seq<Effect>) {
    forall k :: 0 <= k < |trace| && (trace[k].Write? || trace[k].End?) ==> Has(trace[..k], Begin)
  }

  /** The last write of each register in a trace. */
  function LastWrites(trace: seq<Effect>): map<string, Value> {
    if trace == [] then map[]
    else
      var e := trace[|trace| - 1];
      var before := LastWrites(trace[..|trace| - 1]);
      if e.Write? then before[e.path := e.value] else before
  }

  lemma LastWritesThen(trace: seq<Effect>, e: Effect)
    ensures LastWrites(trace + [e]) == if e.Write? then LastWrites(trace)[e.path := e.value] else LastWrites(trace)
  {
    assert (trace + [e])[..|trace|] == trace;
  }

  /** One more effect that may follow everything before it. */
  lemma InOrderThen(trace: seq<Effect>, e: Effect)
    requires InOrder(trace) && forall k :: 0 <= k < |trace| ==> MayFollow(trace[k], e)
    ensures InOrder(trace + [e])
  {
  }

  lemma LicensedThen(trace: seq<Effect>, e: Effect)
    requires Licensed(trace) && (e.Write? || e.End? ==> Has(trace, Begin))
    ensures Licensed(trace + [e])
  {
    var longer := trace + [e];
    forall k | 0 <= k < |longer| && (longer[k].Write? || longer[k].End?) ensures Has(longer[..k], Begin) {
      assert longer[..k] == trace[..k];
      assert trace[..|trace|] == trace;
    }
  }

  lemma HasThen(trace: seq<Effect>, e: Effect)
    ensures forall x :: Has(trace + [e], x) <==> Has(trace, x) || x == e
    ensures HasWrite(trace + [e]) <==> HasWrite(trace) || e.Write?
  {
    var longer := trace + [e];
    assert longer[|trace|] == e;
    forall x ensures Has(longer, x) <==> Has(trace, x) || x == e {
      if Has(trace, x) {
        var k :| 0 <= k < |trace| && trace[k] == x;
        assert longer[k] == x;
      }
    }
    if HasWrite(trace) {
      var k :| 0 <= k < |trace| && trace[k].Write?;
      assert longer[k].Write?;
    }
  }

  /** What a desk's own marks say about the trace behind it. */
  datatype Marks = MarksOf(
    locked: bool, connected: bool, ready: bool, closed: bool,
    lease: bool, finished: bool, failed: bool, aborted: bool)

  ghost predicate Tells(m: Marks, trace: seq<Effect>) {
    && InOrder(trace) && Licensed(trace)
    && (Has(trace, Lock) <==> m.locked)
    && (Has(trace, Connect) && !m.connected ==> Has(trace, Disconnect)) && (Has(trace, Disconnect) ==> !m.connected)
    && (Has(trace, Begin) <==> m.lease || m.finished) && (Has(trace, End(false)) || Has(trace, End(true)) ==> m.finished) && !(m.lease && m.finished)
    && (Has(trace, Begin) ==> m.ready) && (HasWrite(trace) ==> Has(trace, Begin))
    && (m.closed ==> !m.connected && (m.locked ==> |trace| >= 2 && trace[|trace| - 1] == Release && trace[|trace| - 2] == Store))
    && (Has(trace, Release) ==> m.closed && m.locked)
    && (Has(trace, Fail) ==> m.failed) && (Has(trace, Abort) ==> m.aborted) && (m.aborted ==> m.failed)
  }

  /** The marks just before an effect allow it. */
  predicate Allows(m: Marks, e: Effect) {
    match e
    case Lock => !m.locked && !m.ready && !m.closed
    case Connect => !m.connected && !m.ready && !m.closed
    case Begin => m.connected && m.ready && !m.closed && !m.lease && !m.finished && !m.failed
    case Write(_, _) => m.connected && m.lease && !m.closed && !m.failed
    case End(late) => m.connected && m.lease && late == m.aborted
    case Disconnect => m.connected
    case Store => !m.closed
    case Fail => !m.closed
    case Abort => !m.closed
    case Release => false
  }

  /** The marks just after it. */
  function Marked(m: Marks, e: Effect): Marks {
    match e
    case Lock => m.(locked := true)
    case Connect => m.(connected := true)
    case Begin => m.(lease := true)
    case End(_) => m.(lease := false, finished := true)
    case Disconnect => m.(connected := false)
    case Fail => m.(failed := true)
    case Abort => m.(failed := true, aborted := true)
    case _ => m
  }

  ghost predicate OnlyThese(trace: seq<Effect>, effects: set<Effect>) {
    forall k :: 0 <= k < |trace| ==> trace[k] in effects
  }

  lemma SoundThen(m: Marks, trace: seq<Effect>, e: Effect)
    requires Tells(m, trace) && !m.closed && Allows(m, e)
    requires e.Lock? ==> OnlyThese(trace, {Fail, Abort})
    requires e.Connect? ==> OnlyThese(trace, {Fail, Abort, Lock})
    ensures Tells(Marked(m, e), trace + [e])
  {
    hide MayFollow, InOrder, Licensed;
    MayComeNext(m, trace, e);
    HasThen(trace, e);
    LicensedThen(trace, e);
    InOrderThen(trace, e);
  }

  /** What the marks allow may follow everything before it. */
  lemma MayComeNext(m: Marks, trace: seq<Effect>, e: Effect)
    requires Tells(m, trace) && !m.closed && Allows(m, e)
    requires e.Lock? ==> OnlyThese(trace, {Fail, Abort})
    requires e.Connect? ==> OnlyThese(trace, {Fail, Abort, Lock})
    ensures forall k :: 0 <= k < |trace| ==> MayFollow(trace[k], e)
    ensures (e.Write? || e.End? ==> Has(trace, Effect.Begin))
  {
    hide InOrder, Licensed;
    forall k | 0 <= k < |trace| ensures MayFollow(trace[k], e) {
      Known(trace, k);
    }
  }

  lemma Known(trace: seq<Effect>, k: nat)
    requires k < |trace|
    ensures Has(trace, trace[k]) && (trace[k].Write? ==> HasWrite(trace))
  {
  }

  /** The end of it: the lock, where one was taken, goes last. */
  lemma SoundOver(m: Marks, trace: seq<Effect>)
    requires Tells(m, trace) && !m.closed && !m.connected && trace != [] && trace[|trace| - 1] == Store
    ensures Tells(m.(closed := true), if m.locked then trace + [Release] else trace)
  {
    if m.locked {
      HasThen(trace, Release);
      LicensedThen(trace, Release);
      forall k | 0 <= k < |trace| ensures MayFollow(trace[k], Release) {
        Known(trace, k);
      }
      InOrderThen(trace, Release);
    }
  }

  // A whole desk as a value

  /** `stored` are the journal's values, `total` those of the start overwritten by every acknowledged write. */
  datatype State = State(
    marks: Marks, trace: seq<Effect>, reader: bool,
    written: map<string, Value>, stored: map<string, Value>, total: map<string, Value>, kept: bool)

  ghost predicate Consistent(s: State, initial: map<string, Value>) {
    && Tells(s.marks, s.trace)
    && s.total == initial + LastWrites(s.trace)
    && (s.kept ==> s.stored + s.written == s.total)
    && (s.reader ==> !s.marks.lease) && (s.marks.lease ==> s.marks.locked) && (!s.marks.locked ==> s.written == map[])
    && (s.marks.lease || s.marks.finished ==> s.marks.ready) && (s.marks.ready && !s.reader ==> s.marks.locked)
  }

  /** Between two calls. */
  ghost predicate Settled(s: State) {
    && (s.marks.closed ==> s.written == map[])
    && (!s.marks.ready && !s.marks.closed ==> OnlyThese(s.trace, {Fail, Abort}) && !s.marks.locked)
  }

  function Did(s: State, e: Effect): State {
    s.(marks := Marked(s.marks, e), trace := s.trace + [e])
  }

  /** An operation that raised; once it is over, only its marks still change. */
  function FailedNow(s: State, abort: bool): State {
    var e := if abort then Abort else Fail;
    if s.marks.closed then s.(marks := Marked(s.marks, e)) else Did(s, e)
  }

  function WroteNow(s: State, path: string, value: Value): State {
    Did(s, Effect.Write(path, value)).(written := s.written[path := value], total := s.total[path := value])
  }

  /** `after` is what the journal reads as from now on, `ok` whether it took the pending writes. */
  function RecordedNow(s: State, after: map<string, Value>, ok: bool): State {
    Did(s, Store).(written := map[], stored := after, kept := s.kept && (s.written == map[] || ok))
  }

  predicate Stores(s: State, after: map<string, Value>, ok: bool) {
    (ok ==> after == s.stored + s.written) && (s.written == map[] ==> after == s.stored)
  }

  lemma DidStays(s: State, initial: map<string, Value>, e: Effect)
    requires Consistent(s, initial) && !s.marks.closed && Allows(s.marks, e) && !e.Write?
    requires (e.Lock? ==> OnlyThese(s.trace, {Fail, Abort})) && (e.Connect? ==> OnlyThese(s.trace, {Fail, Abort, Lock})) && (e.Begin? ==> !s.reader)
    ensures Consistent(Did(s, e), initial)
  {
    hide Tells, LastWrites;
    SoundThen(s.marks, s.trace, e);
    LastWritesThen(s.trace, e);
  }

  lemma FailedStays(s: State, initial: map<string, Value>, abort: bool)
    requires Consistent(s, initial)
    ensures Consistent(FailedNow(s, abort), initial)
  {
    if !s.marks.closed {
      DidStays(s, initial, if abort then Abort else Fail);
    }
  }

  lemma WroteStays(s: State, initial: map<string, Value>, path: string, value: Value)
    requires Consistent(s, initial) && !s.marks.closed && Allows(s.marks, Effect.Write(path, value))
    ensures Consistent(WroteNow(s, path, value), initial)
  {
    hide Tells, LastWrites;
    SoundThen(s.marks, s.trace, Effect.Write(path, value));
    LastWritesThen(s.trace, Effect.Write(path, value));
    assert s.stored + s.written[path := value] == (s.stored + s.written)[path := value];
    assert initial + LastWrites(s.trace)[path := value] == (initial + LastWrites(s.trace))[path := value];
  }

  lemma RecordedStays(s: State, initial: map<string, Value>, after: map<string, Value>, ok: bool)
    requires Consistent(s, initial) && !s.marks.closed && Stores(s, after, ok)
    ensures Consistent(RecordedNow(s, after, ok), initial)
  {
    hide Tells, LastWrites;
    SoundThen(s.marks, s.trace, Store);
    LastWritesThen(s.trace, Store);
    assert s.stored + map[] == s.stored && after + map[] == after;
  }

  function OverNow(s: State): State {
    s.(marks := s.marks.(closed := true), trace := if s.marks.locked then s.trace + [Release] else s.trace)
  }

  lemma OverStays(s: State, initial: map<string, Value>)
    requires Consistent(s, initial) && !s.marks.closed && !s.marks.connected && s.trace != [] && s.trace[|s.trace| - 1] == Store
    ensures Consistent(OverNow(s), initial)
  {
    hide Tells, LastWrites;
    SoundOver(s.marks, s.trace);
    LastWritesThen(s.trace, Release);
  }

  /** Whether a journal takes these writes and can be read again with them. */
  predicate StoresWell(file: Option<File>, written: map<string, Value>, now: int, bytes: Option<nat>) {
    file.Some? && bytes.Some? && bytes.value <= MAX_BYTES && |Recorded(Readable(file.value), written, now)| <= MAX_ENTRIES
  }

  function ValuesIn(file: Option<File>): map<string, Value> {
    if file.Some? then Values(Readable(file.value)) else map[]
  }

  /** Nothing hinders the operation. */
  ghost predicate Calm(answers: seq<bool>) {
    forall k :: 0 <= k < |answers| ==> !answers[k]
  }

  /** The lease is taken first, unless it is already held. */
  function Lead(held: bool): seq<Effect> {
    if held then [] else [Begin]
  }

  lemma LeadIs(held: bool)
    ensures Lead(held) == if held then [] else [Begin]
  {
  }

  /** The effects of these writes, in order. */
  function AsEffects(writes: seq<(string, Value)>): (effects: seq<Effect>)
    ensures |effects| == |writes| && forall k :: 0 <= k < |writes| ==> effects[k] == Effect.Write(writes[k].0, writes[k].1)
  {
    seq(|writes|, k requires 0 <= k < |writes| => Effect.Write(writes[k].0, writes[k].1))
  }

  /** Every path written, with the last value written to it. */
  function Table(writes: seq<(string, Value)>): map<string, Value> {
    if writes == [] then map[]
    else
      var w := writes[|writes| - 1];
      Table(writes[..|writes| - 1])[w.0 := w.1]
  }

  /** The table holds, per path, what the last write of it wrote. */
  lemma {:induction false} TableSays(writes: seq<(string, Value)>, path: string) returns (k: nat)
    requires path in Table(writes)
    ensures k < |writes| && writes[k] == (path, Table(writes)[path]) && forall j :: k < j < |writes| ==> writes[j].0 != path
  {
    var n := |writes| - 1;
    if writes[n].0 == path {
      k := n;
    } else {
      k := TableSays(writes[..n], path);
      assert forall j :: k <= j < n ==> writes[j] == writes[..n][j];
    }
  }

  lemma {:induction false} TableHas(writes: seq<(string, Value)>, k: nat)
    requires k < |writes|
    ensures writes[k].0 in Table(writes)
  {
    var n := |writes| - 1;
    if k < n {
      TableHas(writes[..n], k);
    }
  }

  lemma TableThen(writes: seq<(string, Value)>, i: nat)
    requires i < |writes|
    ensures Table(writes[..i + 1]) == Table(writes[..i])[writes[i].0 := writes[i].1]
    ensures AsEffects(writes[..i + 1]) == AsEffects(writes[..i]) + [Effect.Write(writes[i].0, writes[i].1)]
  {
    assert writes[..i + 1][..i] == writes[..i];
  }

  /** What writes nothing changes no register's last write. */
  lemma {:induction false} LastWritesStay(trace: seq<Effect>, more: seq<Effect>)
    requires forall k :: 0 <= k < |more| ==> !more[k].Write?
    ensures LastWrites(trace + more) == LastWrites(trace)
  {
    if more == [] {
      assert trace + more == trace;
    } else {
      var n := |more| - 1;
      LastWritesStay(trace, more[..n]);
      LastWritesThen(trace + more[..n], more[n]);
      assert trace + more == trace + more[..n] + [more[n]];
    }
  }

  lemma {:induction false} LastWritesGrow(trace: seq<Effect>, writes: seq<(string, Value)>)
    ensures LastWrites(trace + AsEffects(writes)) == LastWrites(trace) + Table(writes)
  {
    hide LastWrites, AsEffects, Table;
    if writes == [] {
      NoWrites(trace, LastWrites(trace));
    } else {
      var n := |writes| - 1;
      var e := Effect.Write(writes[n].0, writes[n].1);
      LastWritesGrow(trace, writes[..n]);
      TableThen(writes, n);
      assert writes[..n + 1] == writes;
      LastWritesThen(trace + AsEffects(writes[..n]), e);
      assert trace + AsEffects(writes) == trace + AsEffects(writes[..n]) + [e];
      OneMore(LastWrites(trace), Table(writes[..n]), writes[n].0, writes[n].1);
    }
  }

  lemma NoWrites(trace: seq<Effect>, written: map<string, Value>)
    ensures AsEffects([]) == [] && Table([]) == map[] && trace + AsEffects([]) == trace && written + Table([]) == written
  {
    assert written + map[] == written;
  }

  lemma OneMore(a: map<string, Value>, b: map<string, Value>, path: string, value: Value)
    ensures (a + b)[path := value] == a + b[path := value]
  {
  }

  /** Whatever else happened around them, the last writes of a trace are those before, overwritten by these. */
  lemma LastWritesAfter(trace: seq<Effect>, lead: seq<Effect>, writes: seq<(string, Value)>, rest: seq<Effect>)
    requires forall k :: 0 <= k < |lead| ==> !lead[k].Write?
    requires forall k :: 0 <= k < |rest| ==> !rest[k].Write?
    ensures LastWrites(trace + lead + AsEffects(writes) + rest) == LastWrites(trace) + Table(writes)
  {
    hide LastWrites, Table;
    LastWritesStay(trace, lead);
    LastWritesGrow(trace + lead, writes);
    LastWritesStay(trace + lead + AsEffects(writes), rest);
  }

  predicate Yes(answers: seq<bool>) {
    answers != [] && answers[0]
  }

  function Tail(answers: seq<bool>): seq<bool> {
    if answers == [] then [] else answers[1..]
  }

  /** One of the next n questions is answered yes. */
  predicate AnyYes(answers: seq<bool>, n: nat) {
    n > 0 && (Yes(answers) || AnyYes(Tail(answers), n - 1))
  }

  function After(answers: seq<bool>, n: nat): seq<bool> {
    if n == 0 then answers else After(Tail(answers), n - 1)
  }

  lemma NextAsked(answers: seq<bool>)
    ensures After(answers, 0) == answers && !AnyYes(answers, 0)
    ensures AnyYes(answers, 1) <==> Yes(answers)
    ensures After(answers, 1) == Tail(answers)
    ensures AnyYes(answers, 3) <==> Yes(answers) || Yes(Tail(answers)) || Yes(Tail(Tail(answers)))
    ensures After(answers, 3) == Tail(Tail(Tail(answers)))
  {
    assert After(Tail(Tail(Tail(answers))), 0) == Tail(Tail(Tail(answers)));
    assert After(Tail(Tail(answers)), 1) == After(Tail(Tail(Tail(answers))), 0);
    assert AnyYes(Tail(Tail(answers)), 1) <==> Yes(Tail(Tail(answers))) || AnyYes(Tail(Tail(Tail(answers))), 0);
  }

  lemma {:induction false} AskedBoth(answers: seq<bool>, m: nat, n: nat)
    ensures AnyYes(answers, m + n) <==> AnyYes(answers, m) || AnyYes(After(answers, m), n)
    ensures After(answers, m + n) == After(After(answers, m), n)
  {
    if m > 0 {
      AskedBoth(Tail(answers), m - 1, n);
    }
  }

  /** What stands between an operation and its start: the caller, its desk, the lock with a second look at both, the backend. */
  function Questions(reader: bool, connected: bool): nat {
    2 + (if reader then 0 else 3) + if connected then 0 else 1
  }

  lemma QuestionsAre(reader: bool, connected: bool)
    ensures Questions(reader, connected) == 2 + (if reader then 0 else 3) + if connected then 0 else 1
  {
  }

  lemma YesSays(answers: seq<bool>)
    ensures Yes(answers) <==> answers != [] && answers[0]
    ensures Calm(answers) ==> !Yes(answers) && Calm(Tail(answers))
  {
  }

  class Desk {
    var reader: bool
    var answers: seq<bool>
    var file: Option<File>

    var locked: bool
    var connected: bool
    var ready: bool
    var entered: bool
    var closed: bool
    var lease: bool
    var finished: bool
    var failed: bool
    var aborted: bool
    var written: map<string, Value>

    ghost var trace: seq<Effect>
    ghost var over: bool
    /** The journal's values, those at the start, those overwritten by all writes, and whether all could be stored and read again. */
    ghost var stored: map<string, Value>
    ghost const initial: map<string, Value>
    ghost var total: map<string, Value>
    ghost var kept: bool

    ghost function View(): State
      reads `locked, `connected, `ready, `over, `lease, `finished, `failed, `aborted
      reads `trace, `reader, `written, `stored, `total, `kept
    {
      State(MarksOf(locked, connected, ready, over, lease, finished, failed, aborted), trace, reader,
            written, stored, total, kept)
    }

    /** What holds even in the middle of a call. */
    ghost predicate Core()
      reads `locked, `connected, `ready, `over, `lease, `finished, `failed, `aborted
      reads `trace, `reader, `written, `stored, `total, `kept, `file
    {
      Consistent(View(), initial) && stored == ValuesIn(file)
    }

    ghost predicate Valid()
      reads `locked, `connected, `ready, `over, `lease, `finished, `failed, `aborted
      reads `trace, `reader, `written, `stored, `total, `kept, `file, `closed
    {
      Core() && Settled(View()) && over == closed
    }

    constructor (reader: bool, backend: bool, file: Option<File>, answers: seq<bool>)
      ensures Valid() && !closed && !ready && connected == backend && trace == [] && kept
      ensures !entered && !locked && !lease && !finished && !failed && !aborted && written == map[]
      ensures this.reader == reader && this.file == file && this.answers == answers
    {
      this.reader, this.answers, this.file := reader, answers, file;
      locked, connected, ready, entered, closed := false, backend, false, false, false;
      lease, finished, failed, aborted := false, false, false, false;
      written, trace, over, kept := map[], [], false, true;
      var values := ValuesIn(file);
      initial := values;
      stored := values;
      total := values;
      new;
      assert initial + map[] == initial;
    }

    /** One yes-or-no question to the caller, the backend or the surroundings; a yes is a hindrance. */
    method Ask() returns (yes: bool)
      modifies `answers
      ensures yes <==> old(answers) != [] && old(answers)[0]
      ensures answers == Tail(old(answers))
      ensures Calm(old(answers)) ==> !yes && Calm(answers)
      ensures View() == old(View()) && Valid() == old(Valid()) && Core() == old(Core())
    {
      yes := false;
      if answers != [] {
        yes := answers[0];
        answers := answers[1..];
      }
    }

    // Single changes

    /** From here on the operation counts as failed, and may no longer be finished where it is aborted. */
    method Mark(abort: bool)
      modifies `failed, `aborted, `trace
      ensures View() == FailedNow(old(View()), abort)
    {
      failed := true;
      if abort {
        aborted := true;
      }
      if !over {
        trace := trace + [if abort then Abort else Fail];
      }
    }

    /** Replace the journal beside the lock by one with the pending writes in it. */
    method StorePending(now: int, bytes: Option<nat>) returns (ok: bool)
      requires stored == ValuesIn(file)
      modifies `file, `stored
      ensures stored == ValuesIn(file) && (!ok ==> stored == old(stored))
      ensures ok ==> locked && written != map[] && (StoresWell(old(file), written, now, bytes) ==> stored == old(stored) + written)
      ensures locked && written != map[] && StoresWell(old(file), written, now, bytes) ==> ok
    {
      hide Recorded, Values;
      var path := if locked then file else None;
      var after;
      ok, after := RecordWritten(path, written, now, bytes);
      if ok {
        file := after;
        stored := ValuesIn(after);
      }
    }

    /** Move what is pending into the journal, or drop it where the journal does not take it. */
    method Record(now: int, bytes: Option<nat>) returns (ghost ok: bool)
      requires stored == ValuesIn(file)
      modifies `file, `stored, `trace, `written, `kept
      ensures stored == ValuesIn(file) && View() == RecordedNow(old(View()), stored, ok) && Stores(old(View()), stored, ok)
      ensures ok <==> locked && old(written) != map[] && StoresWell(old(file), old(written), now, bytes)
    {
      hide ValuesIn, StoresWell;
      ok := locked && written != map[] && StoresWell(file, written, now, bytes);
      var done := StorePending(now, bytes);
      Cleared(ok);
    }

    method Cleared(ghost ok: bool)
      modifies `trace, `written, `kept
      ensures trace == old(trace) + [Store] && written == map[] && kept == (old(kept) && (old(written) == map[] || ok))
    {
      kept := kept && (written == map[] || ok);
      written := map[];
      trace := trace + [Store];
    }

    /** Note an acknowledged write: pending for the journal, and the register's newest value. */
    method Wrote(path: string, value: Value)
      modifies `trace, `written, `total
      ensures View() == WroteNow(old(View()), path, value)
    {
      written := written[path := value];
      total := total[path := value];
      trace := trace + [Effect.Write(path, value)];
    }

    // The operation

    lemma MarksAre()
      ensures View().marks == MarksOf(locked, connected, ready, over, lease, finished, failed, aborted)
      ensures View().reader == reader && View().trace == trace && View().written == written && View().kept == kept && View().stored == stored
    {
    }

    lemma Opened()
      requires Valid()
      ensures Core() && Consistent(View(), initial) && Settled(View()) && over == closed && stored == ValuesIn(file)
    {
    }

    lemma Shut()
      requires Consistent(View(), initial) && Settled(View()) && over == closed && stored == ValuesIn(file)
      ensures Valid() && Core()
    {
    }

    /** An operation that raised. */
    method Raises(abort: bool)
      requires Core()
      modifies `failed, `aborted, `trace
      ensures Core() && failed && (aborted <==> old(aborted) || abort)
      ensures trace == old(trace) + if over then [] else [if abort then Abort else Fail]
      ensures old(Valid()) ==> Valid()
    {
      hide *;
      MiddleOf();
      MarksAre();
      ghost var before := View();
      FailedStays(before, initial, abort);
      FailedMarks(before, abort);
      if Settled(before) {
        FailedSettles(before, abort);
      }
      ghost var valid := Valid();
      ValidIs();
      Mark(abort);
      MarksAre();
      MiddleOf();
      ValidIs();
    }

    lemma ValidIs()
      ensures Valid() <==> Core() && Settled(View()) && over == closed
    {
    }

    method CheckStop() returns (stopped: bool)
      requires Core()
      modifies `answers, `failed, `aborted, `trace
      ensures Core() && (stopped ==> failed && aborted) && (old(Valid()) ==> Valid())
      ensures (stopped <==> Yes(old(answers))) && answers == Tail(old(answers))
      ensures Calm(old(answers)) ==> !stopped && Calm(answers)
      ensures trace == old(trace) + if stopped && !over then [Abort] else []
      ensures !stopped ==> failed == old(failed) && aborted == old(aborted) && trace == old(trace)
    {
      hide *;
      YesSays(answers);
      stopped := Ask();
      if stopped {
        Raises(true);
      }
      assert trace + [] == trace;
    }

    /** Whether the operation may still be used; a stop request ends that. */
    method Usable() returns (error: Option<Error>)
      requires Valid()
      modifies `answers, `failed, `aborted, `trace
      ensures Valid()
      ensures error.None? ==> ready && !closed && !finished && !failed && connected && trace == old(trace)
      ensures error in {None, Some(NotUsable), Some(Cancelled)}
      ensures error == Some(NotUsable) <==> !old(ready && !closed && !finished && !failed && connected)
      ensures error == Some(Cancelled) <==> old(ready && !closed && !finished && !failed && connected) && Yes(old(answers))
      ensures error == Some(Cancelled) ==> aborted
      ensures error.None? ==> answers == Tail(old(answers))
      ensures error != Some(Cancelled) ==> aborted == old(aborted) && failed == old(failed) && trace == old(trace)
      ensures trace == old(trace) || trace == old(trace) + [Abort]
      ensures Calm(old(answers)) ==> error != Some(Cancelled) && Calm(answers)
    {
      hide *;
      if !ready || closed || finished || failed || !connected {
        return Some(NotUsable);
      }
      ValidIs();
      var stopped := CheckStop();
      if stopped {
        return Some(Cancelled);
      }
      return None;
    }

    /** Take the lease at the first operation that writes. */
    method Begin() returns (error: Option<Error>)
      requires Valid()
      modifies `answers, `failed, `aborted, `trace, `lease
      ensures Valid()
      ensures error.None? ==> lease && locked && ready && !closed && !failed && !aborted && connected && !reader
      ensures error.None? ==> trace == old(trace) + (if old(lease) then [] else [Effect.Begin])
      ensures error.Some? ==> lease == old(lease) && (trace == old(trace) || trace == old(trace) + [Abort])
      ensures error == Some(Raised) ==> failed && aborted
      ensures error == Some(NotUsable) <==> !old(ready && !closed && !finished && !failed && connected)
      ensures error == Some(NotPermitted) ==> reader
      ensures error == if !old(ready && !closed && !finished && !failed && connected) then Some(NotUsable)
                       else if Yes(old(answers)) then Some(Cancelled)
                       else if reader then Some(NotPermitted)
                       else if !old(lease) && Yes(Tail(old(answers))) then Some(Raised)
                       else None
      ensures error in {Some(NotUsable), Some(NotPermitted)} ==> aborted == old(aborted) && trace == old(trace)
      ensures Calm(old(answers)) && old(ready && !closed && !finished && !failed && connected && !reader) ==> error.None? && Calm(answers)
    {
      hide *;
      YesSays(answers);
      YesSays(Tail(answers));
      error := Usable();
      if error.Some? {
        return;
      }
      if reader {
        return Some(NotPermitted);
      }
      if !lease {
        var refused := Ask();
        if refused {
          ValidIs();
          Raises(true);
          return Some(Raised);
        }
        TakeLease();
      }
      assert trace + [] == trace;
      Opened();
      MarksAre();
      Leased(View(), initial);
      Unfailed(View(), initial);
    }

    method TakeLease()
      requires Valid() && ready && !closed && !finished && !failed && connected && !reader && !lease
      modifies `trace, `lease
      ensures Valid() && lease && trace == old(trace) + [Effect.Begin]
    {
      hide Consistent, ValuesIn;
      DidStays(View(), initial, Effect.Begin);
      lease := true;
      trace := trace + [Effect.Begin];
    }

    /** The acknowledged writes of one apply or repair, each noted as it comes. */
    method Writes(writes: seq<(string, Value)>)
      requires Valid() && lease && connected && !closed && !failed
      modifies `trace, `written, `total
      ensures Valid() && trace == old(trace) + AsEffects(writes) && written == old(written) + Table(writes)
    {
      hide *;
      assert writes[..0] == [];
      NoWrites(trace, written);
      for i := 0 to |writes|
        invariant Valid() && trace == old(trace) + AsEffects(writes[..i]) && written == old(written) + Table(writes[..i])
      {
        Opened();
        MarksAre();
        WriteAllowed(View().marks, writes[i].0, writes[i].1);
        WroteStays(View(), initial, writes[i].0, writes[i].1);
        WroteSettles(View(), initial, writes[i].0, writes[i].1);
        WroteTrace(View(), writes[i].0, writes[i].1);
        TableThen(writes, i);
        Wrote(writes[i].0, writes[i].1);
        MarksAre();
        Shut();
      }
      assert writes[..|writes|] == writes;
    }

    /** The lease, and then the acknowledged writes of one apply or repair. */
    method Perform(writes: seq<(string, Value)>) returns (error: Option<Error>)
      requires Valid()
      modifies `answers, `failed, `aborted, `trace, `lease, `written, `total
      ensures Valid()
      ensures error.None? ==>
        && lease && ready && !closed && !over && !failed && !aborted && connected && !reader
        && trace == old(trace) + Lead(old(lease)) + AsEffects(writes) && written == old(written) + Table(writes)
      ensures error.Some? ==>
        && lease == old(lease) && written == old(written) && LastWrites(trace) == LastWrites(old(trace))
        && (error == Some(Raised) ==> failed && aborted)
        && (error in {Some(NotUsable), Some(NotPermitted)} ==> aborted == old(aborted) && trace == old(trace))
      ensures Calm(old(answers)) && old(ready && !closed && !finished && !failed && connected && !reader) ==> error.None? && Calm(answers)
    {
      hide *;
      NothingMore(trace);
      error := Begin();
      LeadIs(old(lease));
      if error.None? {
        Writes(writes);
        ValidIs();
      }
    }

    /** Store what was acknowledged so far. */
    method Keep(now: int, bytes: Option<nat>)
      requires Valid() && ready && !closed
      modifies `file, `stored, `trace, `written, `kept
      ensures trace == old(trace) + [Store]
      ensures Valid() && written == map[] && (old(kept) && (old(written) == map[] || StoresWell(old(file), old(written), now, bytes)) ==> kept)
    {
      hide *;
      Opened();
      MarksAre();
      ghost var before := View();
      ghost var ok := Record(now, bytes);
      RecordedStays(before, initial, stored, ok);
      RecordedSettles(before, stored, ok);
      MarksAre();
      Shut();
    }

    /**
     * Apply the declared desk. Once the lease is granted, the acknowledged writes of the plan are the
     * operation's next effects, and they are stored on every way out.
     */
    method Apply(work: Work, now: int, bytes: Option<nat>) returns (done: Result<bool, Error>, ghost granted: bool)
      requires Valid()
      modifies this
      ensures Valid() && (done.Ok? ==> granted) && (granted ==> lease && written == map[])
      ensures granted ==>
        trace == old(trace) + Lead(old(lease)) + AsEffects(work.writes)
                 + (if work.raises != Nothing then [Abort, Store] else if aborted then [Store, Abort] else [Store])
      ensures granted ==> LastWrites(trace) == LastWrites(old(trace)) + Table(work.writes)
      ensures granted ==> done == if work.raises != Nothing then Err(Raised) else Ok(work.complete && !aborted)
      ensures granted && work.raises != Nothing ==> failed && aborted
      ensures granted && kept ==> ValuesIn(file) == initial + LastWrites(trace)
      ensures granted && old(kept) && StoresWell(old(file), old(written) + Table(work.writes), now, bytes) ==> kept
      ensures !granted ==> done.Err? && lease == old(lease) && LastWrites(trace) == LastWrites(old(trace))
      ensures Calm(old(answers)) && old(ready && !closed && !finished && !failed && connected && !reader) ==> granted && (work.raises == Nothing ==> !aborted)
    {
      hide *;
      ghost var before, lead := trace, Lead(lease);
      LeadIs(lease);
      var refused := Perform(work.writes);
      if refused.Some? {
        return Err(refused.value), false;
      }
      if work.raises != Nothing {
        ValidIs();
        Raises(true);
      }
      Keep(now, bytes);
      AllKept();
      if work.raises != Nothing {
        LastWritesAfter(before, lead, work.writes, [Abort, Store]);
        return Err(Raised), true;
      }
      ValidIs();
      var stopped := CheckStop();
      LastWritesAfter(before, lead, work.writes, if stopped then [Store, Abort] else [Store]);
      ValidIs();
      AllKept();
      return Ok(!stopped && work.complete), true;
    }

    lemma NothingMore(before: seq<Effect>)
      ensures LastWrites(before + [Abort]) == LastWrites(before)
    {
      LastWritesThen(before, Abort);
    }

    /** With nothing pending and every store taken, the journal holds all that was acknowledged. */
    lemma AllKept()
      requires Valid() && written == map[]
      ensures kept ==> ValuesIn(file) == initial + LastWrites(trace)
    {
      hide LastWrites, Values;
      KeptIsAll(View(), initial);
    }

    /** Read back every declared value. */
    method Verify(raises: bool) returns (error: Option<Error>)
      requires Valid()
      modifies `answers, `failed, `aborted, `trace, `lease
      ensures Valid() && (error.Some? && !reader ==> failed) && (error.None? ==> lease && !failed && !raises)
      ensures error.None? ==> trace == old(trace) + Lead(old(lease))
      ensures error == Some(Raised) && lease ==> raises && !aborted && trace == old(trace) + Lead(old(lease)) + [Fail]
      ensures error == Some(NotUsable) ==> aborted == old(aborted)
      ensures Calm(old(answers)) && old(ready && !closed && !finished && !failed && connected && !reader) ==> lease && (raises <==> error == Some(Raised)) && (raises <==> error.Some?)
    {
      hide *;
      LeadIs(lease);
      error := Begin();
      if error.None? && raises {
        error := Some(Raised);
      }
      ValidIs();
      if error.Some? && !reader {
        Raises(false);
      }
    }

    /** Verify, and write at most one repair; a write that failed may not be finished. */
    method Repair(work: Work) returns (error: Option<Error>, ghost granted: bool)
      requires Valid()
      modifies `answers, `failed, `aborted, `trace, `lease, `written, `total
      ensures Valid() && (error.Some? && !reader ==> failed) && (error.None? ==> lease && !failed && work.raises == Nothing)
      ensures error == Some(Raised) && work.raises == WriteFailure && !reader ==> aborted
      ensures (error.None? ==> granted) && (granted ==> lease && (error.Some? <==> work.raises != Nothing))
      ensures granted ==>
        trace == old(trace) + Lead(old(lease)) + AsEffects(work.writes)
                 + (match work.raises case Nothing => [] case WriteFailure => [Abort] case OtherFailure => [Fail])
      ensures granted ==> written == old(written) + Table(work.writes) && LastWrites(trace) == LastWrites(old(trace)) + Table(work.writes)
      ensures !granted ==> written == old(written) && (error == Some(NotUsable) ==> aborted == old(aborted))
      ensures Calm(old(answers)) && old(ready && !closed && !finished && !failed && connected && !reader) ==> granted
    {
      hide *;
      ghost var before, lead := trace, Lead(lease);
      LeadIs(lease);
      error := Perform(work.writes);
      granted := error.None?;
      var failure := false;
      ghost var rest := [];
      if error.None? && work.raises != Nothing {
        error := Some(Raised);
        failure := work.raises == WriteFailure;
        rest := if failure then [Abort] else [Fail];
      }
      ValidIs();
      if error.Some? && !reader {
        Raises(failure);
      }
      LastWritesAfter(before, lead, work.writes, rest);
      assert before + lead + AsEffects(work.writes) + [] == before + lead + AsEffects(work.writes);
    }

    /** Wait inside the operation; true where it was asked to stop. */
    method Pause() returns (stopped: Result<bool, Error>)
      requires Valid()
      modifies `answers, `failed, `aborted, `trace
      ensures Valid() && (stopped == Ok(true) ==> aborted)
      ensures stopped == Ok(false) ==> trace == old(trace) && !failed
      ensures Calm(old(answers)) && old(ready && !closed && !finished && !failed && connected) ==> stopped == Ok(false)
    {
      hide *;
      var error := Usable();
      if error.Some? {
        return Err(error.value);
      }
      var stop := Ask();
      ValidIs();
      if stop {
        Raises(true);
      }
      return Ok(stop);
    }

    /** Acknowledge the end once, keeping the device lock; nothing here asks whether the operation was aborted. */
    method Finish() returns (error: Option<Error>)
      requires Core() && !over
      modifies `answers, `trace, `lease, `finished
      ensures Core() && !lease && (old(lease) ==> finished)
      ensures trace == old(trace) + (if old(lease) && connected then [End(aborted)] else [])
      ensures error == if old(lease) && connected && Yes(old(answers)) then Some(Raised) else None
      ensures Calm(old(answers)) ==> error.None? && Calm(answers)
    {
      hide Consistent, ValuesIn;
      if lease {
        Ending(View(), initial);
        if connected {
          DidStays(View(), initial, End(aborted));
          trace := trace + [End(aborted)];
        }
        lease := false;
        finished := true;
        if connected {
          var raised := Ask();
          if raised {
            return Some(Raised);
          }
        }
      }
      return None;
    }

    /** Close the connection once. */
    method Disconnect()
      requires Core() && !over
      modifies `trace, `connected
      ensures Core() && !connected && trace == old(trace) + if old(connected) then [Effect.Disconnect] else []
    {
      hide Consistent, ValuesIn;
      if connected {
        DidStays(View(), initial, Effect.Disconnect);
        connected := false;
        trace := trace + [Effect.Disconnect];
      }
    }

    /** The store and the release that end every operation. */
    method Conclude(now: int, bytes: Option<nat>)
      requires Core() && !over && !connected
      modifies `file, `stored, `trace, `written, `kept, `over
      ensures Core() && over && written == map[] && trace == old(trace) + [Store] + if locked then [Effect.Release] else []
      ensures old(kept) && (old(written) == map[] || StoresWell(old(file), old(written), now, bytes)) ==> kept
    {
      hide *;
      MarksAre();
      ghost var before := View();
      MiddleOf();
      ghost var ok := Record(now, bytes);
      RecordedOver(before, initial, stored, ok);
      MarksAre();
      Release(before, ok);
    }

    lemma MiddleOf()
      ensures Core() <==> Consistent(View(), initial) && stored == ValuesIn(file)
    {
    }

    /** The lock goes last, where there is one. */
    method Release(ghost before: State, ghost ok: bool)
      requires View() == RecordedNow(before, stored, ok) && Consistent(OverNow(RecordedNow(before, stored, ok)), initial) && stored == ValuesIn(file) && !over
      modifies `trace, `over
      ensures Core() && over && trace == old(trace) + if locked then [Effect.Release] else []
    {
      hide Consistent, ValuesIn, RecordedNow;
      assert trace + [] == trace;
      trace := if locked then trace + [Effect.Release] else trace;
      over := true;
      assert View() == OverNow(RecordedNow(before, stored, ok));
    }

    /** Every way out: the end where it is due, the connection, the journal, and the lock last. */
    method Close(finish: bool, now: int, bytes: Option<nat>) returns (error: Option<Error>)
      requires Core() && over == closed && (closed ==> Valid())
      modifies `closed, `answers, `trace, `lease, `finished, `connected, `file, `stored, `written, `kept, `over
      ensures Valid() && closed && !connected && written == map[]
      ensures old(closed) ==> trace == old(trace) && error.None?
      ensures !old(closed) ==>
        trace == old(trace) + (if finish && !aborted && old(lease) && old(connected) then [End(false)] else [])
                 + (if old(connected) then [Effect.Disconnect] else []) + [Store] + if locked then [Effect.Release] else []
      ensures old(kept) && (old(written) == map[] || StoresWell(old(file), old(written), now, bytes)) ==> kept
      ensures Calm(old(answers)) ==> error.None?
    {
      hide *;
      if closed {
        Opened();
        ClosedKeepsNothing();
        return None;
      }
      closed := true;
      MiddleOf();
      if finish && !aborted {
        error := Finish();
      } else {
        error := None;
      }
      Disconnect();
      Conclude(now, bytes);
      MiddleOf();
      OverSettles();
      Shut();
    }

    /** A closed desk whose records could all be stored, none beyond the byte bound, leaves the last acknowledged write of every register. */
    lemma JournalHoldsAll()
      requires Valid() && closed && kept
      ensures ValuesIn(file) == initial + LastWrites(trace)
    {
      hide LastWrites, Values;
      KeptIsAll(View(), initial);
    }

    lemma ClosedKeepsNothing()
      requires Core() && Settled(View()) && over
      ensures written == map[] && !connected
    {
    }

    lemma OverSettles()
      requires over && written == map[]
      ensures Settled(View())
    {
    }

    /** The device lock, and a second look at the caller and the declared desk under it. */
    method LockDevice() returns (refused: bool)
      requires Core() && !over && !closed && !ready && !locked && !lease && OnlyThese(trace, {Fail, Abort})
      modifies `answers, `trace, `locked, `failed, `aborted
      ensures Core() && (!refused ==> locked && OnlyThese(trace, {Fail, Abort, Lock}))
      ensures (refused <==> AnyYes(old(answers), 3)) && (!refused ==> answers == After(old(answers), 3) && trace == old(trace) + [Lock])
      ensures Calm(old(answers)) ==> !refused && Calm(answers)
    {
      hide Consistent, ValuesIn, Yes, Tail, AnyYes, After, Calm;
      NextAsked(answers);
      YesSays(answers);
      YesSays(Tail(answers));
      YesSays(Tail(Tail(answers)));
      refused := Ask();
      if refused {
        return;
      }
      assert OnlyThese(trace, {Fail, Abort, Lock});
      DidStays(View(), initial, Lock);
      locked := true;
      trace := trace + [Lock];
      assert OnlyThese(trace, {Fail, Abort, Lock});
      refused := CheckStop();
      if refused {
        return;
      }
      refused := Ask();
    }

    /** Where the desk declares nothing, a start without one connects as a reader. */
    method ConnectBackend(silent: bool) returns (refused: bool)
      requires Core() && !over && !closed && !ready && !connected && !lease && OnlyThese(trace, {Fail, Abort, Lock})
      modifies `answers, `trace, `connected, `reader
      ensures Core() && (!refused ==> connected) && reader == (old(reader) || silent)
      ensures refused <==> Yes(old(answers))
      ensures trace == old(trace) + if refused then [] else [Connect]
      ensures Calm(old(answers)) ==> !refused && Calm(answers)
    {
      hide Consistent, ValuesIn;
      assert trace + [] == trace;
      if silent {
        BecomesReader(View(), initial);
        reader := true;
      }
      refused := Ask();
      if refused {
        return;
      }
      DidStays(View(), initial, Connect);
      connected := true;
      trace := trace + [Connect];
    }

    method Attempt(silent: bool) returns (refused: bool)
      requires Valid() && !closed && !ready
      modifies `answers, `trace, `locked, `failed, `aborted, `connected, `reader, `ready
      ensures Core() && over == closed && (!refused ==> Valid() && ready && !closed && connected && (reader || locked))
      ensures (old(reader) ==> reader) && (reader ==> old(reader) || silent)
      ensures (refused <==> AnyYes(old(answers), Questions(old(reader), old(connected)))) && ready == !refused
      ensures !refused ==>
        && reader == (old(reader) || (silent && !old(connected)))
        && trace == old(trace) + (if old(reader) then [] else [Lock]) + if old(connected) then [] else [Connect]
      ensures Calm(old(answers)) ==> !refused && Calm(answers)
    {
      hide *;
      ghost var script, locks := answers, if reader then 0 else 3;
      NextAsked(script);
      NextAsked(After(script, 1));
      AskedBoth(script, 1, 1);
      AskedBoth(script, 2, locks);
      NextAsked(After(script, 2));
      NextAsked(After(script, 2 + locks));
      AskedBoth(script, 2 + locks, 1);
      QuestionsAre(reader, connected);
      YesSays(script);
      YesSays(Tail(script));
      assert trace + [] == trace;
      assert trace + [Lock] + [] == trace + [Lock];
      Opened();
      MarksAre();
      Untouched(View(), initial);
      refused := CheckStop();
      if refused {
        return;
      }
      refused := Ask();
      if refused {
        return;
      }
      if !reader {
        refused := LockDevice();
        if refused {
          return;
        }
      }
      if !connected {
        refused := ConnectBackend(silent);
        if refused {
          return;
        }
      }
      MakeReady();
      Opened();
    }

    method MakeReady()
      requires Core() && !over && !closed && !lease && (reader || locked)
      modifies `ready
      ensures Valid() && ready
    {
      hide Consistent, ValuesIn;
      BecomesReady(View(), initial);
      ready := true;
    }

    /** Take the lock and the connection; an operation that cannot open is closed. */
    method Open(now: int, bytes: Option<nat>, silent: bool) returns (error: Option<Error>)
      requires Valid()
      modifies `closed, `answers, `trace, `lease, `finished, `connected, `file, `stored, `written, `kept, `over
      modifies `failed, `aborted, `locked, `ready, `reader
      ensures Valid()
      ensures error.None? ==> ready && !closed && (reader || locked) && (!old(ready) ==> connected)
      ensures error.Some? ==> closed && (error == Some(Misuse) <==> old(closed))
      ensures !old(ready) ==> (old(reader) ==> reader) && (reader ==> old(reader) || silent)
      ensures Calm(old(answers)) && !old(closed) ==> error.None?
      ensures !old(closed) ==> (error.None? <==> old(ready) || !AnyYes(old(answers), Questions(old(reader), old(connected))))
      ensures error.None? && !old(ready) ==>
        && reader == (old(reader) || (silent && !old(connected)))
        && trace == old(trace) + (if old(reader) then [] else [Lock]) + if old(connected) then [] else [Connect]
    {
      hide *;
      if closed {
        return Some(Misuse);
      }
      Opened();
      MarksAre();
      if ready {
        ReadyIsLocked(View(), initial);
        return None;
      }
      var refused := Attempt(silent);
      if refused {
        var cleanup := Close(false, now, bytes);
        return Some(Raised);
      }
      return None;
    }

    /** `with` entry: one operation, entered once. */
    method Enter(now: int, bytes: Option<nat>, silent: bool) returns (error: Option<Error>)
      requires Valid()
      modifies this
      ensures Valid() && (error.None? ==> entered && ready && !closed)
      ensures old(entered) || old(closed) <==> error == Some(Misuse)
      ensures error == Some(Misuse) ==> trace == old(trace)
      ensures Calm(old(answers)) && !old(entered) && !old(closed) ==> error.None?
    {
      hide *;
      if entered || closed {
        return Some(Misuse);
      }
      error := Open(now, bytes, silent);
      if error.None? {
        entered := true;
        ValidIs();
      }
    }

    /** `with` exit: an exception on the way out means there is no END. */
    method Exit(exception: bool, now: int, bytes: Option<nat>) returns (error: Option<Error>)
      requires Valid()
      modifies this
      ensures Valid() && closed && (exception ==> error.None?)
      ensures !exception && Calm(old(answers)) ==> error.None?
      ensures !old(closed) ==>
        trace == old(trace) + (if !exception && !aborted && old(lease) && old(connected) then [End(false)] else [])
                 + (if old(connected) then [Effect.Disconnect] else []) + [Store] + if locked then [Effect.Release] else []
      ensures exception ==> (Has(trace, End(false)) ==> Has(old(trace), End(false))) && (Has(trace, End(true)) ==> Has(old(trace), End(true)))
    {
      hide *;
      ValidIs();
      error := Close(!exception, now, bytes);
      if exception {
        error := None;
        ghost var connected0, locked0 := old(connected), old(locked);
        NoEndAdded(old(trace), trace);
      }
    }
  }

  lemma ReadyIsLocked(s: State, initial: map<string, Value>)
    requires Consistent(s, initial)
    ensures s.marks.ready ==> s.reader || s.marks.locked
  {
  }

  lemma Untouched(s: State, initial: map<string, Value>)
    requires Consistent(s, initial) && Settled(s) && !s.marks.ready && !s.marks.closed
    ensures OnlyThese(s.trace, {Fail, Abort}) && OnlyThese(s.trace, {Fail, Abort, Lock}) && !s.marks.locked && !s.marks.lease
  {
  }

  lemma BecomesReader(s: State, initial: map<string, Value>)
    requires Consistent(s, initial) && !s.marks.lease
    ensures Consistent(s.(reader := true), initial)
  {
    hide Tells, LastWrites;
  }

  lemma BecomesReady(s: State, initial: map<string, Value>)
    requires Consistent(s, initial) && (s.reader || s.marks.locked)
    ensures Consistent(s.(marks := s.marks.(ready := true)), initial)
  {
    hide LastWrites, Tells;
    TellsReady(s.marks, s.trace);
  }

  lemma TellsReady(m: Marks, trace: seq<Effect>)
    requires Tells(m, trace)
    ensures Tells(m.(ready := true), trace)
  {
  }

  /** Nothing but a disconnect, a store and a release came after. */
  lemma NoEndAdded(before: seq<Effect>, after: seq<Effect>)
    requires before <= after && forall k :: |before| <= k < |after| ==> !after[k].End?
    ensures forall late :: Has(after, End(late)) ==> Has(before, End(late))
  {
  }

  /** With nothing pending, a journal that took every record holds the last acknowledged write of each register. */
  lemma KeptIsAll(s: State, initial: map<string, Value>)
    requires Consistent(s, initial) && s.written == map[]
    ensures s.kept ==> s.stored == initial + LastWrites(s.trace)
  {
    assert s.stored + map[] == s.stored;
  }

  /**
   * What every desk's trace obeys, whatever was called on it: one END at most and nothing written
   * after it, no write after a failure, no END after an abort but a late one, every write under a
   * lease, and the lock gone last, after the connection and the journal. It reads the invariant
   * off for two places of a trace; what keeps it is `SoundThen`.
   */
  lemma TraceLaws(s: State, initial: map<string, Value>, i: nat, j: nat)
    requires Consistent(s, initial) && i < j < |s.trace|
    ensures s.trace[i].End? ==> !s.trace[j].End? && !s.trace[j].Write? && !s.trace[j].Begin?
    ensures s.trace[i].Fail? ==> !s.trace[j].Write? && !s.trace[j].Begin?
    ensures s.trace[i].Abort? ==> !s.trace[j].Write? && !s.trace[j].Begin? && (s.trace[j].End? ==> s.trace[j].late)
    ensures s.trace[i].Disconnect? ==> !s.trace[j].Write? && !s.trace[j].End? && !s.trace[j].Disconnect?
    ensures s.trace[j].Release? ==> j == |s.trace| - 1 && s.trace[j - 1].Store? && !s.marks.connected
    ensures s.trace[j].Write? ==> Has(s.trace[..j], Begin)
  {
    hide LastWrites, HasWrite;
    assert MayFollow(s.trace[i], s.trace[j]);
    if s.trace[j].Release? {
      Known(s.trace, j);
      var last := MayFollow(s.trace[j], s.trace[|s.trace| - 1]);
    }
  }

  lemma RecordedOver(s: State, initial: map<string, Value>, after: map<string, Value>, ok: bool)
    requires Consistent(s, initial) && !s.marks.closed && !s.marks.connected && Stores(s, after, ok)
    ensures var r := RecordedNow(s, after, ok);
      && Consistent(OverNow(r), initial) && r.trace == s.trace + [Store] && r.written == map[]
      && (s.kept && (s.written == map[] || ok) ==> r.kept) && (s.written == map[] || s.marks.locked)
  {
    hide Tells, LastWrites;
    RecordedStays(s, initial, after, ok);
    OverStays(RecordedNow(s, after, ok), initial);
  }

  /** A lease can end without a connection: the desk is finished, nothing is sent. */
  lemma Ending(s: State, initial: map<string, Value>)
    requires Consistent(s, initial) && s.marks.lease && !s.marks.closed
    ensures Consistent(s.(marks := s.marks.(lease := false, finished := true)), initial)
    ensures s.marks.ready
  {
    hide LastWrites;
  }

  lemma Leased(s: State, initial: map<string, Value>)
    requires Consistent(s, initial) && s.marks.lease
    ensures s.marks.locked && s.marks.ready && !s.marks.finished && !s.reader
  {
    hide LastWrites;
  }

  lemma Unfailed(s: State, initial: map<string, Value>)
    requires Consistent(s, initial)
    ensures s.marks.aborted ==> s.marks.failed
  {
    hide LastWrites;
  }

  lemma FailedSettles(s: State, abort: bool)
    requires Settled(s)
    ensures Settled(FailedNow(s, abort))
  {
  }

  lemma FailedMarks(s: State, abort: bool)
    ensures FailedNow(s, abort).marks == s.marks.(failed := true, aborted := s.marks.aborted || abort)
    ensures FailedNow(s, abort).trace == s.trace + if s.marks.closed then [] else [if abort then Abort else Fail]
  {
  }

  lemma WriteAllowed(m: Marks, path: string, value: Value)
    ensures Allows(m, Effect.Write(path, value)) <==> m.connected && m.lease && !m.closed && !m.failed
  {
  }

  lemma WroteSettles(s: State, initial: map<string, Value>, path: string, value: Value)
    requires Consistent(s, initial) && s.marks.lease && !s.marks.closed
    ensures Settled(WroteNow(s, path, value)) && WroteNow(s, path, value).marks == s.marks
  {
    hide Tells, LastWrites;
  }

  lemma WroteTrace(s: State, path: string, value: Value)
    ensures WroteNow(s, path, value).trace == s.trace + [Effect.Write(path, value)]
    ensures WroteNow(s, path, value).written == s.written[path := value]
  {
  }

  lemma RecordedSettles(s: State, after: map<string, Value>, ok: bool)
    requires Settled(s)
    ensures s.marks.ready || s.marks.closed ==> Settled(RecordedNow(s, after, ok))
    ensures RecordedNow(s, after, ok).marks == s.marks && RecordedNow(s, after, ok).written == map[]
    ensures RecordedNow(s, after, ok).trace == s.trace + [Store]
    ensures s.kept && (s.written == map[] || ok) ==> RecordedNow(s, after, ok).kept
  {
  }
}
