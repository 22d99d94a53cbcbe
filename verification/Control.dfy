/**
 * The client's side of a connection: its lease, its request numbers, its queue of observations.
 * What the socket, the clock and the caller's stop request answer is scripted in two fields, and
 * every script is allowed.
 */
module Backend {
  import opened Wrappers
  import opened Protocol
  import opened OperationLease
  import opened Bursts
  import Osc
  import OscBundle

  const QUEUE_BYTES: nat := 256 * 1024
  const QUEUE_PACKETS: nat := 4096

  datatype Errno = ENOTCONN | ECANCELED | EOVERFLOW | ESEND | EIO | ERECEIVE | ECONNRESET | EPROTO | ENOBUFS
                 | ETIMEDOUT | EALREADY | EPERM | EBUSY

  /** `Broken` is a BackendControlError, `Refused` any other OSError. */
  datatype Failure = Broken(errno: Errno) | Refused(errno: Errno)

  datatype Delivery = Delivery(origin: nat, sequence: nat, payload: seq<byte>)

  /** What one call of recvmsg brings: a packet, nothing in time, an error, or a packet of the wrong form. */
  datatype Arrival = Came(frame: Frame) | Quiet | Failed | Malformed

  /** An encoded message to write. */
  datatype Message = Message(path: string, size: nat)

  datatype SendResult = AllWritten | WriteFailed(cause: Failure, written: seq<string>, unwritten: seq<string>)

  // What a connection may have done so far

  datatype Move = Asks(packet: Packet) | Hears(frame: Frame)

  datatype Mind = Mind(client: Client, log: seq<Entry>)

  /** One step of a client of the lease protocol; None where the protocol has no such step. */
  function Moved(m: Mind, move: Move): Option<Mind> {
    match move
    case Asks(p) =>
      if MayAsk(m.client, m.log, p) then Some(Mind(Asking(m.client.session, p), m.log + [Entry(p, None)])) else None
    case Hears(f) =>
      match Deliver(m.client, f)
      case None => None
      case Some(client) => Some(Mind(client, Answered(m.log, f)))
  }

  function History(sources: set<nat>, moves: seq<Move>): Option<Mind> {
    if moves == [] then Some(Mind(Fresh(DeskRole, sources).client, []))
    else
      match History(sources, moves[..|moves| - 1])
      case None => None
      case Some(m) => Moved(m, moves[|moves| - 1])
  }

  lemma HistoryGrows(sources: set<nat>, moves: seq<Move>, move: Move)
    requires History(sources, moves).Some?
    ensures History(sources, moves + [move]) == Moved(History(sources, moves).value, move)
  {
    assert (moves + [move])[..|moves|] == moves;
  }

  lemma AsksNext(sources: set<nat>, moves: seq<Move>, client: Client, log: seq<Entry>, p: Packet)
    requires History(sources, moves) == Some(Mind(client, log)) && MayAsk(client, log, p)
    ensures History(sources, moves + [Asks(p)]) == Some(Mind(Asking(client.session, p), log + [Entry(p, None)]))
  {
    HistoryGrows(sources, moves, Asks(p));
  }

  lemma HearsEvent(sources: set<nat>, moves: seq<Move>, client: Client, log: seq<Entry>, f: Frame, s: Session)
    requires History(sources, moves) == Some(Mind(client, log)) && f.Event? && Hear(client.session, f) == Some(s)
    ensures History(sources, moves + [Hears(f)]) == Some(Mind(Client(s, client.asked), log))
  {
    HistoryGrows(sources, moves, Hears(f));
  }

  lemma HearsReply(sources: set<nat>, moves: seq<Move>, client: Client, log: seq<Entry>, f: Frame, p: Packet, s: Session)
    requires History(sources, moves) == Some(Mind(client, log)) && client.asked == Some(p)
    requires f.Reply? && Answer(client.session, p.kind, p.request, p.token, f) == Some(s)
    ensures History(sources, moves + [Hears(f)]) == Some(Mind(Client(s, None), Answered(log, f)))
  {
    HistoryGrows(sources, moves, Hears(f));
  }

  // The observation queue

  function Bytes(queue: seq<Delivery>): nat {
    if queue == [] then 0 else HEADER + |queue[0].payload| + Bytes(queue[1..])
  }

  lemma {:induction false} BytesAppend(queue: seq<Delivery>, d: Delivery)
    ensures Bytes(queue + [d]) == Bytes(queue) + HEADER + |d.payload|
  {
    if queue != [] {
      BytesAppend(queue[1..], d);
      assert (queue + [d])[1..] == queue[1..] + [d];
    }
  }

  ghost predicate Ascend(deliveries: seq<Delivery>) {
    forall j, k :: 0 <= j < k < |deliveries| ==> deliveries[j].sequence < deliveries[k].sequence
  }

  ghost predicate UpTo(deliveries: seq<Delivery>, last: nat) {
    forall k :: 0 <= k < |deliveries| ==> deliveries[k].sequence <= last
  }

  lemma AscendAppend(deliveries: seq<Delivery>, last: nat, d: Delivery)
    requires Ascend(deliveries) && UpTo(deliveries, last) && last < d.sequence
    ensures Ascend(deliveries + [d]) && UpTo(deliveries + [d], d.sequence)
  {
  }

  lemma AscendPrefix(a: seq<Delivery>, b: seq<Delivery>, last: nat)
    requires Ascend(a + b) && UpTo(a + b, last)
    ensures Ascend(a) && UpTo(a, last)
  {
    assert forall k :: 0 <= k < |a| ==> (a + b)[k] == a[k];
  }

  // What the socket brings

  /** What a connection believes and has queued. */
  datatype Inbox = Inbox(session: Session, queue: seq<Delivery>)

  /** One more observation fits under both bounds. */
  predicate Room(queue: seq<Delivery>, d: Delivery) {
    |queue| < QUEUE_PACKETS && Bytes(queue) + HEADER + |d.payload| <= QUEUE_BYTES
  }

  /** One unsolicited packet taken in; None where the connection does not survive it. */
  function TakenIn(b: Inbox, f: Frame): Option<Inbox>
    requires f.Event?
  {
    match Hear(b.session, f)
    case None => None
    case Some(s) =>
      if f.kind != OBSERVATION then Some(Inbox(s, b.queue))
      else
        var d := Delivery(f.code, f.sequence, f.payload);
        if Room(b.queue, d) then Some(Inbox(s, b.queue + [d])) else None
  }

  /** One call of recvmsg between requests. */
  function Heard(b: Inbox, arrival: Arrival): Option<Inbox> {
    match arrival
    case Quiet => Some(b)
    case Came(f) => if f.Event? then TakenIn(b, f) else None
    case _ => None
  }

  /** The first reply to come, with what is believed and queued by then, and what is still to come. */
  function Await(b: Inbox, arrivals: seq<Arrival>): Option<(Frame, Inbox, seq<Arrival>)>
    decreases |arrivals|
  {
    if arrivals == [] then None
    else if arrivals[0].Came? && arrivals[0].frame.Reply? then Some((arrivals[0].frame, b, arrivals[1..]))
    else
      match Heard(b, arrivals[0])
      case None => None
      case Some(b') => Await(b', arrivals[1..])
  }

  lemma PromptIs(b: Inbox, arrivals: seq<Arrival>, kind: Request, number: nat)
    ensures Prompt(b, arrivals, kind, number) <==>
      Await(b, arrivals).Some? && Await(b, arrivals).value.0.Reply? && Fits(kind, number, Await(b, arrivals).value.0)
  {
  }

  lemma AwaitNone(b: Inbox)
    ensures Await(b, []) == None
  {
  }

  lemma AwaitNext(b: Inbox, arrivals: seq<Arrival>)
    requires arrivals != []
    ensures arrivals[0].Came? && arrivals[0].frame.Reply? ==> Await(b, arrivals) == Some((arrivals[0].frame, b, arrivals[1..]))
    ensures !(arrivals[0].Came? && arrivals[0].frame.Reply?) ==>
      Await(b, arrivals) == match Heard(b, arrivals[0]) case None => None case Some(b') => Await(b', arrivals[1..])
  {
  }

  /** A request of this kind and number will be answered in a form the client reads. */
  predicate Prompt(b: Inbox, arrivals: seq<Arrival>, kind: Request, number: nat) {
    Await(b, arrivals).Some? && Await(b, arrivals).value.0.Reply? && Fits(kind, number, Await(b, arrivals).value.0)
  }

  /** The oldest observation there is or will be; None where the connection breaks first. */
  function Oldest(b: Inbox, arrivals: seq<Arrival>): Option<Delivery>
    decreases |arrivals|
  {
    if b.queue != [] then Some(b.queue[0])
    else if arrivals == [] then None
    else
      match Heard(b, arrivals[0])
      case None => None
      case Some(b') => Oldest(b', arrivals[1..])
  }

  /** Every write of a burst will be acknowledged under the lease, one after the other. */
  predicate AllAcknowledged(b: Inbox, arrivals: seq<Arrival>, number: nat, burst: seq<Message>)
    decreases |burst|
  {
    burst == [] ||
    (&& burst[0].size <= PAYLOAD && number < LAST_REQUEST && Prompt(b, arrivals, Write, number + 1)
     && var a := Await(b, arrivals).value;
     && a.0.code == OK && a.1.session.lease == Some(a.0.sequence) && AllAcknowledged(a.1, a.2, number + 1, burst[1..]))
  }

  lemma AllAcknowledgedIs(b: Inbox, arrivals: seq<Arrival>, number: nat, burst: seq<Message>, i: nat)
    requires i <= |burst|
    ensures i == |burst| ==> AllAcknowledged(b, arrivals, number, burst[i..])
    ensures i < |burst| ==>
      (AllAcknowledged(b, arrivals, number, burst[i..]) <==>
        && burst[i].size <= PAYLOAD && number < LAST_REQUEST && AnsweredWith(b, arrivals, Write, number + 1, OK) && UnderLease(b, arrivals)
        && Await(b, arrivals).Some?
        && AllAcknowledged(Await(b, arrivals).value.1, Await(b, arrivals).value.2, number + 1, burst[i + 1..]))
  {
    if i < |burst| {
      assert burst[i..][1..] == burst[i + 1..];
    }
  }

  // What the surroundings say

  /** Nobody asks to stop, nothing is late, due or fails. */
  ghost predicate Calm(answers: seq<bool>) {
    forall k :: 0 <= k < |answers| ==> !answers[k]
  }

  predicate Yes(answers: seq<bool>, k: nat) {
    k < |answers| && answers[k]
  }

  lemma HeardIs(b: Inbox, arrivals: seq<Arrival>)
    ensures arrivals != [] ==>
      match arrivals[0]
      case Quiet => Heard(b, arrivals[0]) == Some(b)
      case Came(f) => Heard(b, arrivals[0]) == if f.Event? then TakenIn(b, f) else None
      case _ => Heard(b, arrivals[0]) == None
  {
  }

  /** END will be answered OK, under a later generation than the lease's. */
  predicate EndsWell(b: Inbox, arrivals: seq<Arrival>, number: nat, token: nat) {
    AnsweredWith(b, arrivals, End, number, OK) && Await(b, arrivals).Some? && Await(b, arrivals).value.0.Reply? && Await(b, arrivals).value.0.sequence > token
  }

  lemma EndsWellIs(b: Inbox, arrivals: seq<Arrival>, number: nat, token: nat)
    ensures EndsWell(b, arrivals, number, token) <==>
      Prompt(b, arrivals, End, number) && Await(b, arrivals).value.0.code == OK && Await(b, arrivals).value.0.sequence > token
  {
  }

  lemma OldestIs(b: Inbox, arrivals: seq<Arrival>)
    ensures b.queue != [] ==> Oldest(b, arrivals) == Some(b.queue[0])
    ensures b.queue == [] ==>
      Oldest(b, arrivals) ==
        if arrivals == [] || Heard(b, arrivals[0]).None? then None else Oldest(Heard(b, arrivals[0]).value, arrivals[1..])
  {
  }

  /** What the backend derived, or what the device sent in a form that decodes. */
  predicate Readable(d: Delivery) {
    d.origin != DEVICE || OscBundle.Delivered(d.payload).Some?
  }

  lemma ReadableIs(d: Delivery)
    ensures Readable(d) <==> d.origin != DEVICE || OscBundle.Delivered(d.payload).Some?
  {
  }

  lemma Codes()
    ensures OK != BUSY && OK != NOT_OWNER && OK != INVALID && BUSY != NOT_OWNER && BUSY != INVALID && NOT_OWNER != INVALID
  {
  }

  lemma CodeIs(b: Inbox, arrivals: seq<Arrival>, kind: Request, number: nat)
    ensures Prompt(b, arrivals, kind, number) ==>
      Await(b, arrivals).Some? && forall code :: AnsweredWith(b, arrivals, kind, number, code) <==> Await(b, arrivals).value.0.code == code
    ensures !Prompt(b, arrivals, kind, number) ==> forall code :: !AnsweredWith(b, arrivals, kind, number, code)
  {
  }

  lemma CalmSays(answers: seq<bool>)
    ensures Calm(answers) ==> !Yes(answers, 0) && !Yes(answers, 1)
  {
  }

  lemma YesNext(answers: seq<bool>)
    ensures Yes(if answers == [] then [] else answers[1..], 0) == Yes(answers, 1)
    ensures forall k: nat :: Yes(Later(answers, k), 0) == Yes(answers, k)
    ensures (if answers == [] then [] else answers[1..]) == Later(answers, 1)
    ensures forall k: nat :: (if Later(answers, k) == [] then [] else Later(answers, k)[1..]) == Later(answers, k + 1)
  {
  }

  lemma TwoLater(answers: seq<bool>)
    ensures var one := if answers == [] then [] else answers[1..]; var two := if one == [] then [] else one[1..];
      Yes(one, 0) == Yes(answers, 1) && Yes(two, 0) == Yes(answers, 2)
  {
  }

  /** What is answered after the first n questions. */
  function Later(answers: seq<bool>, n: nat): seq<bool> {
    if n <= |answers| then answers[n..] else []
  }

  lemma LaterStill(answers: seq<bool>, n: nat)
    ensures Later(Later(answers, 1), n) == Later(answers, n + 1) && Yes(Later(answers, n + 1), 0) == Yes(answers, n + 1)
  {
  }

  /** Nobody asks to stop, no keepalive is due where a lease is held, and time is up. */
  predicate TimeUp(answers: seq<bool>, holding: bool) {
    !Yes(answers, 0) && if holding then !Yes(answers, 1) && Yes(answers, 2) else Yes(answers, 1)
  }

  lemma TimeUpSays(answers: seq<bool>, holding: bool)
    ensures TimeUp(answers, holding) <==> !Yes(answers, 0) && (if holding then !Yes(answers, 1) && Yes(answers, 2) else Yes(answers, 1))
    ensures Yes(Later(answers, 1), 0) == Yes(answers, 1) && Yes(Later(answers, 2), 0) == Yes(answers, 2)
  {
  }

  /** The request will be answered, with this code. */
  predicate AnsweredWith(b: Inbox, arrivals: seq<Arrival>, kind: Request, number: nat, code: nat) {
    Prompt(b, arrivals, kind, number) && Await(b, arrivals).value.0.code == code
  }

  /** By the time of the reply, the lease believed in is the one it names. */
  predicate UnderLease(b: Inbox, arrivals: seq<Arrival>) {
    Await(b, arrivals).Some? && Await(b, arrivals).value.1.session.lease == Some(Await(b, arrivals).value.0.sequence)
  }

  lemma AwaitIs(b: Inbox, arrivals: seq<Arrival>, f: Frame, between: Inbox, rest: seq<Arrival>, kind: Request, number: nat)
    requires Await(b, arrivals) == Some((f, between, rest)) && f.Reply? && Fits(kind, number, f)
    ensures forall code :: AnsweredWith(b, arrivals, kind, number, code) <==> f.code == code
    ensures UnderLease(b, arrivals) <==> between.session.lease == Some(f.sequence)
  {
  }

  lemma AnsweredIsPrompt(b: Inbox, arrivals: seq<Arrival>, kind: Request, number: nat)
    ensures forall code :: AnsweredWith(b, arrivals, kind, number, code) ==> Prompt(b, arrivals, kind, number)
  {
  }

  // What happened to the log

  const QUIET := {Request.Hello, Request.Begin, Request.End, Request.KeepAlive, Request.Refresh}

  lemma QuietKinds()
    ensures Request.Begin in QUIET && End in QUIET && KeepAlive in QUIET && Refresh in QUIET && Write !in QUIET
  {
  }

  /** Since then only requests of these kinds were logged. */
  ghost predicate Only(before: seq<Entry>, after: seq<Entry>, kinds: set<Request>) {
    && before <= after
    && forall k :: |before| <= k < |after| ==> after[k].packet.kind in kinds
  }

  /** Since then exactly this one request was logged. */
  ghost predicate Logged(before: seq<Entry>, after: seq<Entry>, kind: Request, token: nat, path: string, answer: Option<nat>) {
    after == before + [Entry(Packet(|before| + 1, kind, token, path), answer)]
  }

  lemma OnlyLogged(before: seq<Entry>, after: seq<Entry>, kind: Request, token: nat, path: string, code: nat)
    requires after == before || Logged(before, after, kind, token, path, None) || Logged(before, after, kind, token, path, Some(code))
    ensures Only(before, after, {kind})
  {
  }

  lemma OnlyThen(a: seq<Entry>, b: seq<Entry>, c: seq<Entry>, first: set<Request>, second: set<Request>, kinds: set<Request>)
    requires Only(a, b, first) && Only(b, c, second) && first <= kinds && second <= kinds
    ensures Only(a, c, kinds)
  {
  }

  /** The last request was of this kind and was answered so. */
  ghost predicate LastAnswered(log: seq<Entry>, kind: Request, code: nat) {
    log != [] && log[|log| - 1].packet.kind == kind && log[|log| - 1].answer == Some(code)
  }

  lemma LoggedAnswered(before: seq<Entry>, after: seq<Entry>, kind: Request, token: nat, path: string, code: nat)
    requires Logged(before, after, kind, token, path, Some(code))
    ensures LastAnswered(after, kind, code)
  {
  }

  lemma OneLogged(before: seq<Entry>, after: seq<Entry>, kind: Request, token: nat, path: string, code: nat)
    requires Logged(before, after, kind, token, path, Some(code))
    ensures |after| == |before| + 1
  {
  }

  /** The last entry of a log gets its answer. */
  lemma AnsweredLast(before: seq<Entry>, p: Packet, f: Frame)
    requires f.Reply? && p.request == |before| + 1 == f.request
    ensures Logged(before, Answered(before + [Entry(p, None)], f), p.kind, p.token, p.path, Some(f.code))
  {
  }

  lemma SentLogged(before: seq<Entry>, after: seq<Entry>, p: Packet)
    requires after == before + [Entry(p, None)] && p.request == |before| + 1
    ensures Logged(before, after, p.kind, p.token, p.path, None)
  {
  }

  lemma FitsNumber(kind: Request, number: nat, f: Frame)
    requires f.Reply? && Fits(kind, number, f)
    ensures f.request == number
  {
  }

  /** A write acknowledged under another generation is no answer the session survives. */
  lemma WriteMisanswered(s: Session, number: nat, token: nat, f: Frame)
    requires f.Reply? && f.code == OK && s.lease != Some(f.sequence)
    ensures Answer(s, Write, number, token, f) == None
  {
  }

  // What an answer does to a session

  /** An answer that leaves the session as it is. */
  lemma AnswerPlain(s: Session, asked: Request, number: nat, token: nat, f: Frame)
    requires f.Reply? && Fits(asked, number, f)
    requires match asked
             case KeepAlive => f.code == OK && s.lease == Some(f.sequence)
             case Write => f.code == OK ==> s.lease == Some(f.sequence)
             case Begin => f.code != OK
             case Refresh => true
             case _ => false
    ensures Answer(s, asked, number, token, f) == Some(s)
  {
  }

  lemma AnswerBegin(s: Session, number: nat, token: nat, f: Frame)
    requires f.Reply? && Fits(Begin, number, f) && f.code == OK
    ensures Answer(s, Begin, number, token, f) == Some(s.(lease := Some(f.sequence), generation := f.sequence))
  {
  }

  lemma AnswerEnd(s: Session, number: nat, token: nat, f: Frame)
    requires f.Reply? && Fits(End, number, f) && f.code == OK && f.sequence > token
    ensures Answer(s, End, number, token, f) == Some(s.(generation := f.sequence))
  {
  }

  lemma AnswerHello(s: Session, number: nat, token: nat, f: Frame)
    requires f.Reply? && Fits(Hello, number, f) && f.code == OK
    ensures Answer(s, Hello, number, token, f) == Some(s.(greeted := true, generation := f.sequence))
  {
  }

  function Paths(burst: seq<Message>): (paths: seq<string>)
    ensures |paths| == |burst| && forall k :: 0 <= k < |burst| ==> paths[k] == burst[k].path
  {
    seq(|burst|, k requires 0 <= k < |burst| => burst[k].path)
  }

  lemma BurstBeats(before: seq<Entry>, after: seq<Entry>, lo: nat, paths: seq<string>, at: seq<nat>, written: nat)
    requires BurstLog(before, lo, paths, at, written) && Acknowledged(before, at) && Only(before, after, {KeepAlive})
    ensures BurstLog(after, lo, paths, at, written) && Acknowledged(after, at) && |before| <= |after|
  {
    BurstWaits(before, after, lo, paths, at, written);
  }

  lemma BurstLogged(before: seq<Entry>, after: seq<Entry>, lo: nat, paths: seq<string>, at: seq<nat>, token: nat, answer: Option<nat>)
    requires BurstLog(before, lo, paths, at, |at|) && Acknowledged(before, at) && |at| < |paths| && lo <= |before|
    requires Logged(before, after, Write, token, paths[|at|], answer)
    ensures BurstLog(after, lo, paths, at + [|after|], if answer.None? || answer.value == OK then |at| + 1 else |at|)
    ensures (answer == Some(OK) ==> Acknowledged(after, at + [|after|])) && Acknowledged(after, at) && |after| == |before| + 1
  {
    BurstWrites(before, lo, paths, at, token, answer);
  }

  /**
   * How a burst came out, against the log from entry `lo` on: all of it acknowledged; or `written` and
   * `unwritten` divide it, and all written but perhaps the last were acknowledged.
   */
  ghost predicate Reported(result: SendResult, burst: seq<Message>, acknowledged: seq<Message>, at: seq<nat>, lo: nat, log: seq<Entry>) {
    && |acknowledged| <= |at| && Acknowledged(log, at[..|acknowledged|])
    && match result
       case AllWritten => acknowledged == burst && BurstLog(log, lo, Paths(burst), at, |burst|)
       case WriteFailed(_, written, unwritten) =>
         && written + unwritten == Paths(burst)
         && BurstLog(log, lo, Paths(burst), at, |written|)
         && |acknowledged| <= |written| <= |acknowledged| + 1
         && |acknowledged| <= |burst| && acknowledged == burst[..|acknowledged|]
  }

  lemma ReportsAll(burst: seq<Message>, at: seq<nat>, lo: nat, log: seq<Entry>)
    requires BurstLog(log, lo, Paths(burst), at, |burst|) && Acknowledged(log, at) && |at| == |burst|
    ensures Reported(AllWritten, burst, burst, at, lo, log)
  {
    assert at[..|burst|] == at;
  }

  lemma ReportsPart(cause: Failure, burst: seq<Message>, i: nat, count: nat, at: seq<nat>, lo: nat, log: seq<Entry>)
    requires i <= count <= i + 1 && count <= |burst| && i <= |at|
    requires BurstLog(log, lo, Paths(burst), at, count) && Acknowledged(log, at[..i])
    ensures Reported(WriteFailed(cause, Paths(burst)[..count], Paths(burst)[count..]), burst, burst[..i], at, lo, log)
  {
    var paths := Paths(burst);
    assert paths[..count] + paths[count..] == paths;
    hide BurstLog, Acknowledged;
  }

  class Control {
    const sources: set<nat>
    var arrivals: seq<Arrival>
    var answers: seq<bool>

    var closed: bool
    var greeted: bool
    var requestId: nat
    var lease: Option<nat>
    var generation: nat
    var held: bool
    var lastSequence: nat
    var queue: seq<Delivery>
    var queueBytes: nat

    ghost var moves: seq<Move>
    ghost var client: Client
    ghost var log: seq<Entry>
    /** Every observation ever queued, how many of them are spent, and those handed out. */
    ghost var received: seq<Delivery>
    ghost var spent: nat
    ghost var yielded: seq<Delivery>

    function Session(): Session
      reads `greeted, `lease, `generation, `held, `lastSequence
    {
      Protocol.Session(greeted, sources, lease, generation, held, lastSequence)
    }

    ghost function Box(): Inbox
      reads `greeted, `lease, `generation, `held, `lastSequence, `queue
    {
      Inbox(Session(), queue)
    }

    /** The next request can be numbered and sent. */
    ghost predicate Numbered()
      reads `log, `closed
    {
      !closed && |log| < LAST_REQUEST
    }

    ghost predicate QueueOk()
      reads `queue, `queueBytes, `received, `spent, `yielded, `lastSequence
    {
      && spent <= |received| && queue == received[spent..]
      && queueBytes == Bytes(queue) && |queue| <= QUEUE_PACKETS && queueBytes <= QUEUE_BYTES
      && Ascend(received) && UpTo(received, lastSequence)
      && Ascend(yielded + queue) && UpTo(yielded + queue, lastSequence)
    }

    /** The connection's past is one the lease protocol knows. */
    ghost predicate Past()
      reads `moves, `client, `log
    {
      History(sources, moves) == Some(Mind(client, log))
    }

    /** While open, the past has led to this session and question. */
    ghost predicate Tied(s: Session, asked: Option<Packet>)
      reads `moves, `client, `log, `closed, `requestId
    {
      Past() && (!closed ==> client == Client(s, asked) && requestId == |log| <= LAST_REQUEST)
    }

    ghost predicate Valid()
      reads `greeted, `lease, `generation, `held, `lastSequence, `queue, `queueBytes, `received, `spent, `yielded
      reads `moves, `client, `log, `closed, `requestId
    {
      QueueOk() && Tied(Session(), None) && (closed ==> lease.None? && queue == [])
    }

    lemma Ready()
      requires Valid()
      ensures QueueOk() && Tied(Session(), None) && Past() && (closed ==> lease.None? && queue == [])
    {
    }

    lemma Settled(s: Session)
      requires QueueOk() && Tied(s, None) && Session() == s && !closed
      ensures Valid()
    {
    }

    lemma Over()
      requires QueueOk() && Past() && closed && lease.None? && queue == []
      ensures Valid()
    {
    }

    constructor (sources: set<nat>, arrivals: seq<Arrival>, answers: seq<bool>)
      ensures Valid() && !closed && !greeted && lease.None? && received == [] && log == []
      ensures this.sources == sources && this.arrivals == arrivals && this.answers == answers
    {
      this.sources := sources;
      this.arrivals := arrivals;
      this.answers := answers;
      closed, greeted, requestId, lease, generation, held, lastSequence := false, false, 0, None, 0, false, 0;
      queue, queueBytes := [], 0;
      moves, log, received, spent, yielded := [], [], [], 0, [];
      client := Fresh(DeskRole, sources).client;
    }

    method Close()
      modifies `closed, `lease, `queue, `queueBytes, `spent
      ensures closed && lease.None? && queue == [] && queueBytes == 0 && spent == |received|
      ensures old(QueueOk()) ==> QueueOk() && (Past() ==> Valid())
    {
      closed := true;
      lease := None;
      if old(QueueOk()) {
        AscendPrefix(yielded, queue, lastSequence);
      }
      queue := [];
      queueBytes := 0;
      spent := |received|;
      assert yielded + queue == yielded;
    }

    /** One yes-or-no question to the clock, the socket or the caller. */
    method Ask() returns (yes: bool)
      modifies `answers
      ensures yes == Yes(old(answers), 0) && (Calm(old(answers)) ==> !yes && Calm(answers))
      ensures answers == if old(answers) == [] then [] else old(answers)[1..]
    {
      yes := false;
      if answers != [] {
        yes := answers[0];
        answers := answers[1..];
      }
    }

    /** A closed connection is of no use, and a stop request closes it. */
    method Check() returns (failure: Option<Failure>)
      requires QueueOk()
      modifies `closed, `lease, `queue, `queueBytes, `spent, `answers
      ensures QueueOk()
      ensures failure == if old(closed) then Some(Broken(ENOTCONN)) else if Yes(old(answers), 0) then Some(Broken(ECANCELED)) else None
      ensures failure.Some? ==> closed && (old(closed) || (lease.None? && queue == []))
      ensures failure.None? ==> !closed && lease == old(lease) && queue == old(queue) && queueBytes == old(queueBytes) && spent == old(spent)
      ensures failure.None? ==> answers == if old(answers) == [] then [] else old(answers)[1..]
      ensures old(closed) ==> lease == old(lease) && queue == old(queue)
      ensures Calm(old(answers)) ==> Calm(answers)
    {
      if closed {
        return Some(Broken(ENOTCONN));
      }
      var stop := Ask();
      if stop {
        Close();
        return Some(Broken(ECANCELED));
      }
      return None;
    }

    /** Number one request and put it on the socket. */
    method Submit(message: Message) returns (failure: Option<Failure>)
      requires QueueOk() && (closed ==> queue == [] && lease.None?)
      modifies `closed, `lease, `queue, `queueBytes, `spent, `answers, `requestId
      ensures QueueOk()
      ensures failure.None? ==> !closed && !old(closed) && requestId == old(requestId) + 1 && old(requestId) != LAST_REQUEST
                                && lease == old(lease) && spent == old(spent) && queue == old(queue) && queueBytes == old(queueBytes)
      ensures failure.None? ==> message.size <= PAYLOAD
      ensures failure.Some? ==> failure.value.Broken? && closed && lease.None? && queue == []
      ensures failure == if old(closed) then Some(Broken(ENOTCONN))
                         else if Yes(old(answers), 0) then Some(Broken(ECANCELED))
                         else if message.size > PAYLOAD || old(requestId) == LAST_REQUEST then Some(Broken(EOVERFLOW))
                         else if Yes(old(answers), 1) then Some(Broken(ESEND))
                         else if Yes(old(answers), 2) then Some(Broken(EIO))
                         else None
      ensures Calm(old(answers)) ==> Calm(answers) && (failure.None? <==> !old(closed) && message.size <= PAYLOAD && old(requestId) != LAST_REQUEST)
    {
      hide QueueOk, Yes;
      TwoLater(answers);
      CalmSays(answers);
      failure := Check();
      if failure.Some? {
        return;
      }
      if message.size > PAYLOAD || requestId == LAST_REQUEST {
        Close();
        return Some(Broken(EOVERFLOW));
      }
      requestId := requestId + 1;
      var failed := Ask();
      if failed {
        Close();
        return Some(Broken(ESEND));
      }
      var short := Ask();
      if short {
        Close();
        return Some(Broken(EIO));
      }
    }

    /** Send one request under the token of the session it starts from. */
    method SendRequest(kind: Request, token: nat, message: Message, ghost before: Session) returns (sent: Result<nat, Failure>)
      requires QueueOk() && Tied(before, None) && (closed ==> queue == [] && lease.None?)
      requires !closed ==> Session() == (if kind == End then before.(lease := None) else before)
      requires !closed ==> token == TokenOf(before) && (kind == Hello <==> !greeted)
      requires !closed ==> (kind.Begin? ==> lease.None?) && (kind in {End, KeepAlive, Write} ==> before.lease.Some?)
      modifies `closed, `lease, `queue, `queueBytes, `spent, `answers, `requestId, `moves, `client, `log
      ensures QueueOk()
      ensures sent.Ok? ==>
        var p := Packet(sent.value, kind, token, message.path);
        && !closed && !old(closed) && sent.value == |log| && log == old(log) + [Entry(p, None)] && moves == old(moves) + [Asks(p)]
        && lease == old(lease) && spent == old(spent) && queue == old(queue) && queueBytes == old(queueBytes) && Tied(Session(), Some(p))
      ensures sent.Err? ==>
        sent.error.Broken? && closed && lease.None? && queue == [] && log == old(log) && moves == old(moves) && client == old(client) && Past()
      ensures Calm(old(answers)) ==> Calm(answers)
      ensures sent.Ok? ==> old(Numbered()) && message.size <= PAYLOAD
      ensures Calm(old(answers)) && old(Numbered()) && message.size <= PAYLOAD ==> sent.Ok?
    {
      hide History, QueueOk, Deliver;
      var failure := Submit(message);
      if failure.Some? {
        return Err(failure.value);
      }
      ghost var p := Packet(requestId, kind, token, message.path);
      AsksNext(sources, moves, client, log, p);
      moves := moves + [Asks(p)];
      client := Asking(before, p);
      log := log + [Entry(p, None)];
      return Ok(requestId);
    }

    /** One packet from the socket, or None where none came in time; a script at its end means the peer is gone. */
    method Receive() returns (got: Result<Option<Frame>, Failure>)
      requires QueueOk()
      modifies `closed, `lease, `queue, `queueBytes, `spent, `answers, `arrivals
      ensures QueueOk() && |arrivals| <= |old(arrivals)|
      ensures got.Ok? ==> !closed && |arrivals| < |old(arrivals)| && lease == old(lease) && spent == old(spent)
                          && queue == old(queue) && queueBytes == old(queueBytes)
      ensures got.Err? ==> got.error.Broken? && closed && (old(closed) || (lease.None? && queue == []))
      ensures old(closed) ==> got.Err? && lease == old(lease) && queue == old(queue)
      ensures got.Ok? ==> old(arrivals) != [] && arrivals == old(arrivals)[1..] && old(arrivals)[0] == if got.value.None? then Quiet else Came(got.value.value)
      ensures Calm(old(answers)) ==> Calm(answers) && (got.Ok? <==> !old(closed) && old(arrivals) != [] && (old(arrivals)[0].Quiet? || old(arrivals)[0].Came?))
    {
      var failure := Check();
      if failure.Some? {
        return Err(failure.value);
      }
      if arrivals == [] {
        Close();
        return Err(Broken(ECONNRESET));
      }
      var arrival := arrivals[0];
      arrivals := arrivals[1..];
      match arrival
      case Came(frame) =>
        return Ok(Some(frame));
      case Quiet =>
        return Ok(None);
      case Failed =>
        Close();
        return Err(Broken(ERECEIVE));
      case Malformed =>
        Close();
        return Err(Broken(EPROTO));
    }

    /** Queue one observation; one too many ends the connection. */
    method Enqueue(d: Delivery) returns (queued: bool)
      requires QueueOk() && lastSequence < d.sequence
      modifies `closed, `lease, `queue, `queueBytes, `spent, `lastSequence, `received
      ensures QueueOk()
      ensures queued ==> closed == old(closed) && lease == old(lease) && lastSequence == d.sequence
                         && spent == old(spent) && received == old(received) + [d]
      ensures !queued ==> closed && lease.None? && queue == [] && received == old(received)
      ensures queued <==> Room(old(queue), d)
      ensures queued ==> queue == old(queue) + [d]
    {
      ghost var last := lastSequence;
      lastSequence := d.sequence;
      var size := HEADER + |d.payload|;
      if |queue| >= QUEUE_PACKETS || queueBytes + size > QUEUE_BYTES {
        Close();
        return false;
      }
      BytesAppend(queue, d);
      AscendAppend(received, last, d);
      AscendAppend(yielded + queue, last, d);
      assert yielded + queue + [d] == yielded + (queue + [d]);
      queue := queue + [d];
      queueBytes := queueBytes + size;
      received := received + [d];
      return true;
    }

    method TakeObservation(frame: Frame) returns (failure: Option<Failure>)
      requires QueueOk() && !closed && frame.Event? && frame.request == 0 && frame.kind == OBSERVATION
      modifies `closed, `lease, `queue, `queueBytes, `spent, `lastSequence, `received
      ensures QueueOk() && (closed ==> lease.None? && queue == [])
      ensures failure.None? ==>
        && !closed && Hear(old(Session()), frame) == Some(Session()) && lease == old(lease) && spent == old(spent)
        && received == old(received) + [Delivery(frame.code, frame.sequence, frame.payload)]
      ensures failure.Some? ==> failure.value.Broken? && closed && received == old(received)
      ensures Hear(old(Session()), frame).Some? && failure.Some? ==> failure.value.errno == ENOBUFS
      ensures failure.None? <==> TakenIn(old(Box()), frame).Some?
      ensures failure.None? ==> TakenIn(old(Box()), frame) == Some(Box())
    {
      hide QueueOk;
      if frame.code !in {DEVICE, DERIVED, METERS} || frame.code !in sources || frame.payload == []
         || |frame.payload| % 4 != 0 || frame.sequence <= lastSequence || !greeted {
        Close();
        return Some(Broken(EPROTO));
      }
      var queued := Enqueue(Delivery(frame.code, frame.sequence, frame.payload));
      if !queued {
        return Some(Broken(ENOBUFS));
      }
      return None;
    }

    /** Take one unsolicited packet; anything it does not accept ends the connection. */
    method TakeEvent(frame: Frame, ghost asked: Option<Packet>) returns (failure: Option<Failure>)
      requires QueueOk() && Tied(Session(), asked) && !closed
      modifies `closed, `lease, `queue, `queueBytes, `spent, `generation, `held, `lastSequence, `moves, `client, `received
      ensures QueueOk() && Past() && Tied(Session(), asked) && (closed ==> lease.None? && queue == [])
      ensures failure.None? ==>
        && !closed && frame.Event? && Hear(old(Session()), frame) == Some(Session()) && lease == old(lease)
        && moves == old(moves) + [Hears(frame)] && spent == old(spent)
        && received == old(received) + (if frame.kind == OBSERVATION then [Delivery(frame.code, frame.sequence, frame.payload)] else [])
      ensures failure.Some? ==> failure.value.Broken? && closed && received == old(received)
      ensures frame.Event? && Hear(old(Session()), frame).Some? && failure.Some? ==> failure.value.errno == ENOBUFS
      ensures failure.None? <==> frame.Event? && TakenIn(old(Box()), frame).Some?
      ensures failure.None? ==> TakenIn(old(Box()), frame) == Some(Box())
    {
      hide History, QueueOk, Deliver, MayAsk, Asking;
      if frame.Reply? || frame.request != 0 || frame.kind !in {LEASE, WINDOW, OBSERVATION} {
        Close();
        return Some(Broken(EPROTO));
      }
      if frame.kind == LEASE {
        if frame.payload != [] || frame.code !in {OK, BUSY} || frame.sequence < generation
           || (lease.Some? && (frame.sequence != lease.value || frame.code != BUSY)) {
          Close();
          return Some(Broken(EPROTO));
        }
        generation := frame.sequence;
        held := frame.code == BUSY;
      } else if frame.kind == WINDOW {
        if frame.payload != [] || frame.code !in {OK, BUSY} {
          Close();
          return Some(Broken(EPROTO));
        }
      } else {
        failure := TakeObservation(frame);
        if failure.Some? {
          return;
        }
      }
      HearsEvent(sources, moves, client, log, frame, Session());
      moves := moves + [Hears(frame)];
      client := Client(Session(), asked);
      return None;
    }

    /** A reply must answer the pending request; whether its content is acceptable the caller decides. */
    method TakeReply(kind: Request, number: nat, frame: Frame, ghost p: Packet) returns (failure: Option<Failure>)
      requires QueueOk() && Tied(Session(), Some(p)) && !closed && p.kind == kind && p.request == number == |log| && frame.Reply?
      modifies `closed, `lease, `queue, `queueBytes, `spent, `moves, `client, `log
      ensures QueueOk() && Past()
      ensures failure.None? ==>
        && !closed && Fits(kind, number, frame) && lease == old(lease) && spent == old(spent)
        && match Answer(Session(), kind, number, p.token, frame)
           case Some(after) => Tied(after, None) && log == Answered(old(log), frame)
           case None => log == old(log)
      ensures failure.None? <==> Fits(kind, number, frame)
      ensures failure.None? ==> queue == old(queue)
      ensures failure.Some? ==> failure.value.Broken? && closed && lease.None? && queue == [] && log == old(log)
    {
      hide History, QueueOk, Answer, Fits;
      if !Fits(kind, number, frame) {
        Close();
        return Some(Broken(EPROTO));
      }
      ghost var after := Answer(Session(), kind, number, p.token, frame);
      if after.Some? {
        HearsReply(sources, moves, client, log, frame, p, after.value);
        moves := moves + [Hears(frame)];
        client := Client(after.value, None);
        log := Answered(log, frame);
      }
      return None;
    }

    /** Read on until the reply to the pending request, taking events on the way. */
    method Acknowledgement(kind: Request, number: nat, ghost p: Packet) returns (reply: Result<Frame, Failure>)
      requires QueueOk() && Tied(Session(), Some(p)) && !closed && p.kind == kind && p.request == number == |log|
      modifies `closed, `lease, `queue, `queueBytes, `spent, `answers, `arrivals, `generation, `held, `lastSequence, `moves, `client, `log, `received
      ensures QueueOk() && Past() && old(received) <= received && |arrivals| <= |old(arrivals)|
      ensures reply.Ok? ==>
        && !closed && reply.value.Reply? && Fits(kind, number, reply.value) && lease == old(lease) && spent == old(spent)
        && greeted == old(greeted) && |arrivals| < |old(arrivals)|
        && match Answer(Session(), kind, number, p.token, reply.value)
           case Some(after) => Tied(after, None) && log == Answered(old(log), reply.value)
           case None => log == old(log)
      ensures reply.Err? ==> reply.error.Broken? && closed && lease.None? && queue == [] && log == old(log)
      ensures reply.Ok? ==> Await(old(Box()), old(arrivals)) == Some((reply.value, Box(), arrivals))
      ensures Calm(old(answers)) ==> Calm(answers) && (reply.Ok? <==> Prompt(old(Box()), old(arrivals), kind, number))
      ensures Yes(old(answers), 0) ==> reply == Err(Broken(ETIMEDOUT))
    {
      hide *;
      ghost var b0, arrivals0 := Box(), arrivals;
      while true
        invariant QueueOk() && Tied(Session(), Some(p)) && !closed && lease == old(lease) && spent == old(spent) && greeted == old(greeted)
        invariant old(received) <= received && |arrivals| <= |old(arrivals)| && log == old(log)
        invariant Await(Box(), arrivals) == Await(b0, arrivals0)
        invariant Calm(old(answers)) ==> Calm(answers)
        invariant answers == old(answers) || !Yes(old(answers), 0)
        decreases |arrivals|
      {
        var late := Ask();
        if late {
          PastIs(Session(), Some(p));
          Close();
          return Err(Broken(ETIMEDOUT));
        }
        ghost var b, coming := Box(), arrivals;
        var heard := HearReply(kind, number, p);
        PromptIs(b, coming, kind, number);
        PromptIs(b0, arrivals0, kind, number);
        if heard.Err? {
          return Err(heard.error);
        }
        if heard.value.Some? {
          return Ok(heard.value.value);
        }
      }
    }

    lemma PastIs(s: Session, asked: Option<Packet>)
      ensures Tied(s, asked) ==> Past()
    {
    }

    /** One packet of that wait: the reply, an event taken in, or nothing in time. */
    method HearReply(kind: Request, number: nat, ghost p: Packet) returns (heard: Result<Option<Frame>, Failure>)
      requires QueueOk() && Tied(Session(), Some(p)) && !closed && p.kind == kind && p.request == number == |log|
      modifies `closed, `lease, `queue, `queueBytes, `spent, `answers, `arrivals, `generation, `held, `lastSequence, `moves, `client, `log, `received
      ensures QueueOk() && Past() && old(received) <= received && |arrivals| <= |old(arrivals)| && greeted == old(greeted)
      ensures heard.Ok? ==> !closed && lease == old(lease) && spent == old(spent) && |arrivals| < |old(arrivals)|
      ensures heard.Ok? && heard.value.Some? ==>
        var f := heard.value.value;
        && f.Reply? && Fits(kind, number, f) && Await(old(Box()), old(arrivals)) == Some((f, Box(), arrivals))
        && match Answer(Session(), kind, number, p.token, f)
           case Some(after) => Tied(after, None) && log == Answered(old(log), f)
           case None => log == old(log)
      ensures heard.Ok? && heard.value.None? ==>
        Tied(Session(), Some(p)) && log == old(log) && Await(old(Box()), old(arrivals)) == Await(Box(), arrivals)
      ensures heard.Err? ==> heard.error.Broken? && closed && lease.None? && queue == [] && log == old(log)
      ensures Calm(old(answers)) ==> Calm(answers)
      ensures Calm(old(answers)) && heard.Err? ==>
        Await(old(Box()), old(arrivals)).None?
        || (Await(old(Box()), old(arrivals)).value.0.Reply? && !Fits(kind, number, Await(old(Box()), old(arrivals)).value.0))
    {
      hide History, QueueOk, Hear, Answer, Fits, Await, TakenIn, Calm;
      AwaitNone(Box());
      if arrivals != [] {
        AwaitNext(Box(), arrivals);
      }
      var got := Receive();
      if got.Err? {
        return Err(got.error);
      }
      if got.value.None? {
        return Ok(None);
      }
      var frame := got.value.value;
      if frame.Reply? {
        var misfit := TakeReply(kind, number, frame, p);
        return if misfit.Some? then Err(misfit.value) else Ok(Some(frame));
      }
      var failure := TakeEvent(frame, Some(p));
      return if failure.Some? then Err(failure.value) else Ok(None);
    }

    /** What was queued so far is not to be handed out. */
    method Discard()
      requires QueueOk()
      modifies `queue, `queueBytes, `spent
      ensures QueueOk() && queue == [] && spent == |received|
    {
      AscendPrefix(yielded, queue, lastSequence);
      queue := [];
      queueBytes := 0;
      spent := |received|;
      assert yielded + queue == yielded;
    }

    /** Send a request and read its reply. */
    method Exchange(kind: Request, token: nat, message: Message, ghost before: Session) returns (reply: Result<Frame, Failure>)
      requires QueueOk() && Tied(before, None) && (closed ==> queue == [] && lease.None?)
      requires !closed ==> Session() == (if kind == End then before.(lease := None) else before)
      requires !closed ==> token == TokenOf(before) && (kind == Hello <==> !greeted)
      requires !closed ==> (kind.Begin? ==> lease.None?) && (kind in {End, KeepAlive, Write} ==> before.lease.Some?)
      modifies `closed, `lease, `queue, `queueBytes, `spent, `answers, `arrivals, `generation, `held, `lastSequence, `moves, `client, `log, `received, `requestId
      ensures QueueOk() && Past() && old(received) <= received && |arrivals| <= |old(arrivals)|
      ensures reply.Ok? ==>
        var number := |old(log)| + 1;
        && !closed && !old(closed) && reply.value.Reply? && Fits(kind, number, reply.value) && lease == old(lease) && spent == old(spent)
        && greeted == old(greeted) && |arrivals| < |old(arrivals)|
        && match Answer(Session(), kind, number, token, reply.value)
           case Some(after) => Tied(after, None) && Logged(old(log), log, kind, token, message.path, Some(reply.value.code))
           case None => Logged(old(log), log, kind, token, message.path, None)
      ensures reply.Err? ==> reply.error.Broken? && closed && lease.None? && Valid()
      ensures reply.Err? ==> log == old(log) || Logged(old(log), log, kind, token, message.path, None)
      ensures reply.Ok? ==> Await(old(Box()), old(arrivals)) == Some((reply.value, Box(), arrivals))
      ensures Calm(old(answers)) ==> Calm(answers)
      ensures Calm(old(answers)) && old(Numbered()) && message.size <= PAYLOAD ==>
        (reply.Ok? <==> Prompt(old(Box()), old(arrivals), kind, |old(log)| + 1))
    {
      hide History, QueueOk, Answer, Past, Tied, Answered, Await, Calm, Numbered, Prompt;
      var sent := SendRequest(kind, token, message, before);
      if sent.Err? {
        Over();
        return Err(sent.error);
      }
      ghost var p := Packet(sent.value, kind, token, message.path);
      reply := Acknowledgement(kind, sent.value, p);
      if reply.Ok? {
        AnsweredLast(old(log), p, reply.value);
      } else {
        Over();
      }
    }

    // What the operations do

    /** The handshake every connection starts with; the generation it brings is where the connection starts. */
    method Connect() returns (failure: Option<Failure>)
      requires Valid() && !greeted && lease.None? && log == []
      modifies this
      ensures Valid() && (failure.None? ==> !closed && greeted && lease.None?) && (failure.Some? ==> closed)
      ensures failure.None? ==>
        && Await(old(Box()), old(arrivals)).Some?
        && var (f, b, rest) := Await(old(Box()), old(arrivals)).value;
        && f.code == OK && arrivals == rest && Box() == Inbox(b.session.(greeted := true, generation := f.sequence), b.queue)
      ensures Calm(old(answers)) && !old(closed) ==> (failure.None? <==> AnsweredWith(old(Box()), old(arrivals), Hello, 1, OK))
    {
      hide History, QueueOk, Past, Tied, Valid, Answer, Fits, Logged, Await, AnsweredWith, Prompt, Calm;
      Ready();
      ghost var before := Session();
      AnsweredIsPrompt(Box(), arrivals, Hello, 1);
      var reply := Exchange(Hello, generation, Message("", 0), before);
      if reply.Err? {
        return Some(reply.error);
      }
      AwaitIs(old(Box()), old(arrivals), reply.value, Box(), arrivals, Hello, 1);
      if reply.value.code != OK {
        Close();
        return Some(Broken(EPROTO));
      }
      AnswerHello(Session(), 1, before.generation, reply.value);
      greeted := true;
      generation := reply.value.sequence;
      Settled(Session());
      return None;
    }

    lemma Leased(s: Session, token: nat)
      ensures s.lease == Some(token) ==> TokenOf(s) == token
    {
    }

    lemma Unleased(s: Session)
      ensures s.lease.None? ==> TokenOf(s) == s.generation
    {
    }

    /** The session differs from an earlier one at most in lease and generation. */
    lemma SessionIs(s: Session)
      ensures greeted == s.greeted && held == s.held && lastSequence == s.last && sources == s.sources ==>
        Session() == s.(lease := lease, generation := generation)
    {
    }

    /** One KEEPALIVE; anything but its acknowledgement under this lease ends the connection. */
    method Beat() returns (failure: Option<Failure>)
      requires Valid() && greeted && !closed && lease.Some?
      modifies this
      ensures Valid() && greeted && yielded == old(yielded) && old(received) <= received
      ensures |arrivals| <= |old(arrivals)| && Only(old(log), log, {KeepAlive})
      ensures failure.None? ==> !closed && lease == old(lease) && spent == old(spent)
      ensures failure.None? ==> Logged(old(log), log, KeepAlive, old(lease).value, "", Some(OK))
      ensures failure.Some? ==> failure.value.Broken? && closed
      ensures Calm(old(answers)) && old(Numbered()) ==>
        Calm(answers) && (failure.None? <==> AnsweredWith(old(Box()), old(arrivals), KeepAlive, |old(log)| + 1, OK) && UnderLease(old(Box()), old(arrivals)))
    {
      hide *;
      Ready();
      SessionHas();
      ghost var token := lease.value;
      Leased(Session(), token);
      AnsweredIsPrompt(Box(), arrivals, KeepAlive, |log| + 1);
      SmallEnough();
      var reply := Exchange(KeepAlive, lease.value, Message("", 0), Session());
      OnlyLogged(old(log), log, KeepAlive, token, "", if reply.Ok? then reply.value.code else 0);
      if reply.Err? {
        return Some(reply.error);
      }
      SessionHas();
      BoxHas();
      AwaitIs(old(Box()), old(arrivals), reply.value, Box(), arrivals, KeepAlive, |old(log)| + 1);
      if reply.value.code != OK || Some(reply.value.sequence) != lease {
        Close();
        return Some(Broken(EPROTO));
      }
      AnswerPlain(Session(), KeepAlive, |old(log)| + 1, token, reply.value);
      Settled(Session());
      return None;
    }

    lemma BoxHas()
      ensures Box() == Inbox(Session(), queue)
    {
    }

    lemma SmallEnough()
      ensures Message("", 0).size <= PAYLOAD
    {
    }

    lemma SessionHas()
      ensures Session().lease == lease && Session().greeted == greeted && Session().generation == generation
      ensures Session().held == held && Session().last == lastSequence && Session().sources == sources
    {
    }

    /** Keep the lease alive when the clock asks for it. */
    method Heartbeat() returns (failure: Option<Failure>)
      requires Valid() && greeted
      modifies this
      ensures Valid() && greeted && yielded == old(yielded) && old(received) <= received
      ensures |arrivals| <= |old(arrivals)| && Only(old(log), log, {KeepAlive})
      ensures failure.None? ==> !closed && !old(closed) && lease == old(lease) && spent == old(spent)
      ensures failure.Some? ==> failure.value.Broken? && closed
      ensures failure.None? && old(lease).Some? && Yes(old(answers), 1) ==> Logged(old(log), log, KeepAlive, old(lease).value, "", Some(OK))
      ensures failure.None? && !(old(lease).Some? && Yes(old(answers), 1)) ==>
        log == old(log) && Box() == old(Box()) && arrivals == old(arrivals) && received == old(received)
      ensures Calm(old(answers)) ==> Calm(answers) && !Yes(old(answers), 1) && (failure.None? <==> !old(closed))
      ensures !old(closed) && !Yes(old(answers), 0) && !(old(lease).Some? && Yes(old(answers), 1)) ==>
        failure.None? && answers == Later(old(answers), if old(lease).Some? then 2 else 1)
      ensures !old(closed) && Yes(old(answers), 0) ==> failure == Some(Broken(ECANCELED))
    {
      hide *;
      Ready();
      OnlyLogged(log, log, KeepAlive, 0, "", 0);
      YesNext(answers);
      CalmSays(answers);
      failure := Check();
      if failure.Some? {
        Over();
        return;
      }
      if lease.Some? {
        var due := Ask();
        if due {
          failure := Beat();
        }
      }
    }

    /** Service the connection until its time is up, or it breaks. */
    method Wait() returns (failure: Option<Failure>)
      requires Valid() && greeted
      modifies this
      ensures Valid() && greeted && yielded == old(yielded) && old(received) <= received
      ensures |arrivals| <= |old(arrivals)| && Only(old(log), log, {KeepAlive})
      ensures failure.None? ==> !closed && !old(closed) && lease == old(lease) && spent == old(spent)
      ensures failure.Some? ==> failure.value.Broken? && closed
      ensures Calm(old(answers)) ==> failure.Some?
      ensures !old(closed) && TimeUp(old(answers), old(lease).Some?) ==>
        && failure.None? && log == old(log) && Box() == old(Box()) && arrivals == old(arrivals)
        && answers == Later(old(answers), if old(lease).Some? then 3 else 2)
    {
      hide *;
      OnlyLogged(log, log, KeepAlive, 0, "", 0);
      YesNext(answers);
      TimeUpSays(answers, lease.Some?);
      while true
        invariant Valid() && greeted && yielded == old(yielded) && old(received) <= received
        invariant |arrivals| <= |old(arrivals)| && Only(old(log), log, {KeepAlive})
        invariant closed == old(closed) && lease == old(lease) && spent == old(spent)
        invariant Calm(old(answers)) ==> Calm(answers)
        invariant TimeUp(old(answers), old(lease).Some?) ==>
          answers == old(answers) && log == old(log) && Box() == old(Box()) && arrivals == old(arrivals)
        decreases |arrivals|
      {
        ghost var before := log;
        failure := Heartbeat();
        OnlyThen(old(log), before, log, {KeepAlive}, {KeepAlive}, {KeepAlive});
        if failure.Some? {
          return;
        }
        var late := Ask();
        if late {
          return None;
        }
        failure := Listen();
        if failure.Some? {
          return;
        }
      }
    }

    /** One look at the socket between requests. */
    method Listen() returns (failure: Option<Failure>)
      requires Valid() && greeted && !closed
      modifies this
      ensures Valid() && greeted && yielded == old(yielded) && old(received) <= received && log == old(log)
      ensures failure.None? ==> !closed && lease == old(lease) && spent == old(spent) && |arrivals| < |old(arrivals)|
      ensures failure.Some? ==> failure.value.Broken? && closed && |arrivals| <= |old(arrivals)|
      ensures failure.None? ==> old(arrivals) != [] && arrivals == old(arrivals)[1..] && Heard(old(Box()), old(arrivals)[0]) == Some(Box())
      ensures Calm(old(answers)) ==> Calm(answers) && (failure.None? <==> old(arrivals) != [] && Heard(old(Box()), old(arrivals)[0]).Some?)
    {
      hide *;
      Ready();
      HeardIs(Box(), arrivals);
      var got := Receive();
      if got.Err? {
        Over();
        return Some(got.error);
      }
      if got.value.Some? {
        Ready();
        failure := TakeEvent(got.value.value, None);
        if failure.Some? {
          Over();
        } else {
          Settled(Session());
        }
        return;
      }
      return None;
    }

    /** Ask for the lease once; what was queued before the answer is not to be handed out. */
    method TryBegin() returns (reply: Result<Frame, Failure>)
      requires Valid() && greeted && lease.None?
      modifies this
      ensures Valid() && greeted && yielded == old(yielded) && old(received) <= received && Only(old(log), log, {Request.Begin})
      ensures reply.Ok? ==> !closed && !old(closed) && queue == [] && spent == |received| && |arrivals| < |old(arrivals)| && reply.value.Reply?
      ensures reply.Ok? ==> lease == if reply.value.code == OK then Some(reply.value.sequence) else None
      ensures reply.Ok? ==> LastAnswered(log, Request.Begin, reply.value.code)
      ensures reply.Ok? ==>
        && Await(old(Box()), old(arrivals)).Some?
        && var (f, b, rest) := Await(old(Box()), old(arrivals)).value;
        && f == reply.value && arrivals == rest
        && Session() == if f.code == OK then b.session.(lease := Some(f.sequence), generation := f.sequence) else b.session
      ensures reply.Err? ==> reply.error.Broken? && closed
      ensures Calm(old(answers)) ==> Calm(answers)
      ensures Calm(old(answers)) && old(Numbered()) ==> (reply.Ok? <==> Prompt(old(Box()), old(arrivals), Request.Begin, |old(log)| + 1))
    {
      hide *;
      Ready();
      SessionHas();
      Unleased(Session());
      SmallEnough();
      reply := Exchange(Request.Begin, generation, Message("", 0), Session());
      OnlyLogged(old(log), log, Request.Begin, old(generation), "", if reply.Ok? then reply.value.code else 0);
      if reply.Err? {
        return;
      }
      BoxHas();
      Discard();
      ghost var before := Session();
      if reply.value.code == OK {
        AnswerBegin(before, |old(log)| + 1, old(generation), reply.value);
        Adopt(Some(reply.value.sequence), reply.value.sequence, before);
      } else {
        AnswerPlain(before, Request.Begin, |old(log)| + 1, old(generation), reply.value);
        Settled(before);
      }
      LoggedAnswered(old(log), log, Request.Begin, old(generation), "", reply.value.code);
    }

    /** The lease and generation an answer brought. */
    method Adopt(lease: Option<nat>, generation: nat, ghost before: Session)
      requires !closed && QueueOk() && Session() == before && Tied(before.(lease := lease, generation := generation), None)
      modifies `lease, `generation
      ensures Valid() && this.lease == lease && this.generation == generation
      ensures Session() == before.(lease := lease, generation := generation)
    {
      hide *;
      SessionHas();
      this.lease := lease;
      this.generation := generation;
      SessionIs(before);
      Settled(before.(lease := lease, generation := generation));
    }

    /**
     * Take the operation lease; nothing observed before its acknowledgement will be handed out. Only a
     * busy backend is asked again.
     */
    method Begin() returns (failure: Option<Failure>)
      requires Valid() && greeted
      modifies this
      ensures Valid() && greeted && yielded == old(yielded) && old(received) <= received && Only(old(log), log, QUIET)
      ensures failure.None? ==> !closed && old(lease).None? && lease.Some? && queue == [] && spent == |received| && LastAnswered(log, Request.Begin, OK)
      ensures failure.Some? && failure.value.Refused? ==> closed == old(closed) && lease == old(lease)
      ensures failure.Some? && failure.value.Broken? ==> closed
      ensures old(lease).Some? <==> failure == Some(Refused(EALREADY))
      ensures failure == Some(Refused(EPERM)) ==> LastAnswered(log, Request.Begin, NOT_OWNER)
      ensures failure == Some(Refused(EBUSY)) && Calm(old(answers)) ==> exists code :: code !in {OK, BUSY, NOT_OWNER} && LastAnswered(log, Request.Begin, code)
      ensures Calm(old(answers)) && old(Numbered()) && old(lease).None? ==>
        && (AnsweredWith(old(Box()), old(arrivals), Request.Begin, |old(log)| + 1, OK) ==>
              failure.None? && lease == Some(Await(old(Box()), old(arrivals)).value.0.sequence))
        && (AnsweredWith(old(Box()), old(arrivals), Request.Begin, |old(log)| + 1, NOT_OWNER) ==> failure == Some(Refused(EPERM)))
        && (AnsweredWith(old(Box()), old(arrivals), Request.Begin, |old(log)| + 1, INVALID) ==> failure == Some(Refused(EBUSY)))
    {
      hide *;
      OnlyLogged(log, log, KeepAlive, 0, "", 0);
      QuietKinds();
      OnlyThen(log, log, log, {KeepAlive}, {KeepAlive}, QUIET);
      if lease.Some? {
        return Some(Refused(EALREADY));
      }
      ghost var first := true;
      CodeIs(Box(), arrivals, Request.Begin, |log| + 1);
      Codes();
      while true
        invariant Valid() && greeted && yielded == old(yielded) && old(received) <= received && Only(old(log), log, QUIET)
        invariant lease.None? && closed == old(closed)
        invariant Calm(old(answers)) ==> Calm(answers)
        invariant first ==> Box() == old(Box()) && arrivals == old(arrivals) && log == old(log)
        invariant !first && Calm(old(answers)) && old(Numbered()) ==>
          AnsweredWith(old(Box()), old(arrivals), Request.Begin, |old(log)| + 1, BUSY)
        decreases |arrivals|
      {
        ghost var before, b, coming := log, Box(), arrivals;
        var reply := TryBegin();
        OnlyThen(old(log), before, log, QUIET, {Request.Begin}, QUIET);
        if reply.Err? {
          return Some(reply.error);
        }
        if reply.value.code == OK {
          return None;
        }
        if reply.value.code == NOT_OWNER {
          return Some(Refused(EPERM));
        }
        var late := Ask();
        if reply.value.code != BUSY || late {
          return Some(Refused(EBUSY));
        }
        before := log;
        first := false;
        failure := Wait();
        OnlyThen(old(log), before, log, QUIET, {KeepAlive}, QUIET);
        if failure.Some? {
          return;
        }
      }
    }

    /** Give the lease back and see it acknowledged. */
    method Finish() returns (failure: Option<Failure>)
      requires Valid() && greeted
      modifies this
      ensures Valid() && greeted && yielded == old(yielded) && old(received) <= received && Only(old(log), log, QUIET)
      ensures failure.None? ==> !closed && lease.None? && old(lease).Some? && Logged(old(log), log, End, old(lease).value, "", Some(OK))
      ensures failure.Some? && failure.value.Refused? ==> !closed && old(lease).None? && log == old(log)
      ensures failure.Some? && failure.value.Broken? ==> closed && lease.None?
      ensures !old(closed) && old(lease).None? && !Yes(old(answers), 0) ==> failure == Some(Refused(EPERM))
      ensures Calm(old(answers)) && old(Numbered()) && old(lease).Some? ==>
        (failure.None? <==> EndsWell(Inbox(old(Session()).(lease := None), old(queue)), old(arrivals), |old(log)| + 1, old(lease).value))
    {
      hide *;
      Ready();
      SessionHas();
      CalmSays(answers);
      OnlyLogged(log, log, KeepAlive, 0, "", 0);
      QuietKinds();
      OnlyThen(log, log, log, {KeepAlive}, {KeepAlive}, QUIET);
      failure := Check();
      if failure.Some? {
        Over();
        return;
      }
      if lease.None? {
        return Some(Refused(EPERM));
      }
      ghost var before := log;
      failure := GiveBack();
      OnlyThen(old(log), before, log, QUIET, {End}, QUIET);
    }

    lemma StillNumbered()
      ensures Numbered() <==> !closed && |log| < LAST_REQUEST
    {
    }

    method GiveBack() returns (failure: Option<Failure>)
      requires Valid() && greeted && !closed && lease.Some?
      modifies this
      ensures Valid() && greeted && lease.None? && yielded == old(yielded) && old(received) <= received && Only(old(log), log, {End})
      ensures failure.None? ==> !closed && Logged(old(log), log, End, old(lease).value, "", Some(OK))
      ensures failure.Some? ==> failure.value.Broken? && closed
      ensures Calm(old(answers)) && old(Numbered()) ==>
        (failure.None? <==> EndsWell(Inbox(old(Session()).(lease := None), old(queue)), old(arrivals), |old(log)| + 1, old(lease).value))
    {
      hide *;
      Ready();
      SessionHas();
      SmallEnough();
      ghost var before := Session();
      ghost var b := Inbox(before.(lease := None), queue);
      var token := lease.value;
      Leased(before, token);
      lease := None;
      SessionIs(before);
      BoxHas();
      EndsWellIs(b, arrivals, |log| + 1, token);
      StillNumbered();
      var reply := Exchange(End, token, Message("", 0), before);
      OnlyLogged(old(log), log, End, token, "", if reply.Ok? then reply.value.code else 0);
      if reply.Err? {
        return Some(reply.error);
      }
      if reply.value.code != OK || reply.value.sequence <= token {
        Close();
        return Some(Broken(EPROTO));
      }
      AnswerEnd(Session(), |old(log)| + 1, token, reply.value);
      SessionHas();
      Adopt(None, reply.value.sequence, Session());
      return None;
    }

    /** Hand out the oldest queued observation. */
    method Pop() returns (d: Delivery)
      requires Valid() && queue != []
      modifies `queue, `queueBytes, `spent, `yielded
      ensures Valid() && spent == old(spent) + 1 <= |received| && d == received[old(spent)] && yielded == old(yielded) + [d]
    {
      hide History, Past, Tied, Ascend, UpTo;
      d := queue[0];
      queue := queue[1..];
      queueBytes := queueBytes - (HEADER + |d.payload|);
      assert yielded + [d] + queue == yielded + old(queue);
      spent := spent + 1;
      yielded := yielded + [d];
    }

    /**
     * The next observation in order: the oldest queued one, else the first to come; None only where
     * none is queued and none comes in time.
     */
    method NextDelivery() returns (next: Result<Option<Delivery>, Failure>)
      requires Valid() && greeted
      modifies this
      ensures Valid() && greeted && old(received) <= received && Only(old(log), log, {KeepAlive})
      ensures next.Ok? && next.value.Some? ==>
        !closed && old(spent) < |received| && next.value.value == received[old(spent)] && spent == old(spent) + 1
        && yielded == old(yielded) + [next.value.value] && lease == old(lease)
      ensures next.Ok? && next.value.None? ==>
        !closed && spent == old(spent) == |received| && queue == [] && yielded == old(yielded) && lease == old(lease)
      ensures next.Ok? && old(spent) < |old(received)| ==> next.value.Some?
      ensures next.Err? ==> next.error.Broken? && closed && yielded == old(yielded)
      ensures Calm(old(answers)) && !old(closed) ==>
        (next.Ok? <==> Oldest(old(Box()), old(arrivals)).Some?) && (next.Ok? ==> next.value == Oldest(old(Box()), old(arrivals)))
      ensures !old(closed) && old(queue) == [] && TimeUp(old(answers), old(lease).Some?) ==> next == Ok(None)
    {
      hide *;
      OnlyLogged(log, log, KeepAlive, 0, "", 0);
      TimeUpSays(answers, lease.Some?);
      while true
        invariant Valid() && greeted && yielded == old(yielded) && old(received) <= received && Only(old(log), log, {KeepAlive})
        invariant closed == old(closed) && lease == old(lease) && spent == old(spent)
        invariant Calm(old(answers)) ==> Calm(answers) && Oldest(Box(), arrivals) == Oldest(old(Box()), old(arrivals))
        invariant old(queue) == [] && TimeUp(old(answers), old(lease).Some?) ==> answers == old(answers) && queue == []
        decreases |arrivals|
      {
        ghost var before := log;
        CalmSays(answers);
        BoxHas();
        var failure := Heartbeat();
        OnlyThen(old(log), before, log, {KeepAlive}, {KeepAlive}, {KeepAlive});
        if failure.Some? {
          return Err(failure.value);
        }
        BoxHas();
        Spending();
        OldestIs(Box(), arrivals);
        if queue != [] {
          var d := Pop();
          return Ok(Some(d));
        }
        var late := Ask();
        if late {
          return Ok(None);
        }
        failure := Listen();
        if failure.Some? {
          return Err(failure.value);
        }
      }
    }

    lemma Spending()
      requires Valid()
      ensures spent <= |received| && queue == received[spent..]
    {
    }

    /**
     * The messages of the next delivery the device itself reported, all of them or none; what the
     * backend derived brings nothing, and a delivery that does not decode ends the connection.
     */
    method Messages() returns (messages: Result<seq<Osc.Message>, Failure>)
      requires Valid() && greeted
      modifies this
      ensures Valid() && greeted && old(received) <= received && Only(old(log), log, {KeepAlive})
      ensures messages.Ok? ==> !closed && lease == old(lease) && (yielded == old(yielded) ==> messages.value == [] && spent == |received|)
      ensures messages.Ok? && old(spent) < |old(received)| ==> yielded == old(yielded) + [old(received)[old(spent)]]
      ensures messages.Ok? && yielded != old(yielded) ==>
        && |yielded| == |old(yielded)| + 1 && yielded[..|old(yielded)|] == old(yielded)
        && var d := yielded[|old(yielded)|];
        && old(spent) < |received| && d == received[old(spent)]
        && if d.origin == DEVICE then OscBundle.Delivered(d.payload) == Some(messages.value) else messages.value == []
      ensures messages.Err? ==> messages.error.Broken? && closed
      ensures Calm(old(answers)) && !old(closed) ==>
        (messages.Ok? <==> Oldest(old(Box()), old(arrivals)).Some? && Readable(Oldest(old(Box()), old(arrivals)).value))
    {
      hide *;
      var next := NextDelivery();
      if next.Err? {
        return Err(next.error);
      }
      if next.value.Some? {
        ReadableIs(next.value.value);
      }
      if next.value.None? || next.value.value.origin != DEVICE {
        return Ok([]);
      }
      var decoded := OscBundle.DecodeDelivery(next.value.value.payload);
      if decoded.None? {
        Ready();
        Close();
        return Err(Broken(EPROTO));
      }
      return Ok(decoded.value);
    }

    /** Ask for a refresh once; what was queued before the answer is not to be handed out. */
    method TryRefresh() returns (reply: Result<Frame, Failure>)
      requires Valid() && greeted
      modifies this
      ensures Valid() && greeted && yielded == old(yielded) && old(received) <= received && Only(old(log), log, {Refresh})
      ensures reply.Ok? ==> !closed && !old(closed) && queue == [] && spent == |received| && |arrivals| < |old(arrivals)|
                            && reply.value.Reply? && lease == old(lease)
                            && LastAnswered(log, Refresh, reply.value.code) && |log| == |old(log)| + 1
      ensures reply.Ok? ==>
        && Await(old(Box()), old(arrivals)).Some?
        && var (f, b, rest) := Await(old(Box()), old(arrivals)).value; f == reply.value && arrivals == rest && Session() == b.session
      ensures reply.Err? ==> reply.error.Broken? && closed
      ensures Calm(old(answers)) ==> Calm(answers)
      ensures Calm(old(answers)) && old(Numbered()) ==> (reply.Ok? <==> Prompt(old(Box()), old(arrivals), Refresh, |old(log)| + 1))
    {
      hide *;
      Ready();
      SessionHas();
      ghost var token := TokenOf(Session());
      Unleased(Session());
      if lease.Some? {
        Leased(Session(), lease.value);
      }
      SmallEnough();
      reply := Exchange(Refresh, if lease.Some? then lease.value else generation, Message("", 0), Session());
      OnlyLogged(old(log), log, Refresh, token, "", if reply.Ok? then reply.value.code else 0);
      if reply.Err? {
        return;
      }
      BoxHas();
      Discard();
      AnswerPlain(Session(), Refresh, |old(log)| + 1, token, reply.value);
      Settled(Session());
      LoggedAnswered(old(log), log, Refresh, token, "", reply.value.code);
      OneLogged(old(log), log, Refresh, token, "", reply.value.code);
    }

    /** Ask the device for its state; nothing observed before the acknowledgement will be handed out. */
    method RequestDump() returns (failure: Option<Failure>)
      requires Valid() && greeted
      modifies this
      ensures Valid() && greeted && yielded == old(yielded) && old(received) <= received && Only(old(log), log, QUIET)
      ensures failure.None? ==> !closed && queue == [] && spent == |received| && lease == old(lease) && LastAnswered(log, Refresh, OK)
      ensures failure.Some? ==> failure.value.Broken? && (closed || (failure.value.errno == EBUSY && lease == old(lease)))
      ensures !old(closed) && Yes(old(answers), 0) ==> failure == Some(Broken(ECANCELED))
      ensures failure.Some? && !closed ==> exists code :: code != OK && LastAnswered(log, Refresh, code) && (Calm(old(answers)) ==> code != BUSY)
      ensures Calm(old(answers)) && old(Numbered()) ==>
        && (AnsweredWith(old(Box()), old(arrivals), Refresh, |old(log)| + 1, OK) ==> failure.None?)
        && (Prompt(old(Box()), old(arrivals), Refresh, |old(log)| + 1) && failure.None? ==>
              Await(old(Box()), old(arrivals)).value.0.code in {OK, BUSY})
        && (AnsweredWith(old(Box()), old(arrivals), Refresh, |old(log)| + 1, BUSY) ==> failure.Some? && closed)
        && (Prompt(old(Box()), old(arrivals), Refresh, |old(log)| + 1) && Await(old(Box()), old(arrivals)).value.0.code !in {OK, BUSY} ==>
              failure == Some(Broken(EBUSY)) && !closed && |log| == |old(log)| + 1)
    {
      hide *;
      OnlyLogged(log, log, KeepAlive, 0, "", 0);
      QuietKinds();
      OnlyThen(log, log, log, {KeepAlive}, {KeepAlive}, QUIET);
      ghost var first := true;
      CodeIs(Box(), arrivals, Refresh, |log| + 1);
      Codes();
      while true
        invariant Valid() && greeted && yielded == old(yielded) && old(received) <= received && Only(old(log), log, QUIET)
        invariant lease == old(lease)
        invariant Calm(old(answers)) ==> Calm(answers)
        invariant first ==> Box() == old(Box()) && arrivals == old(arrivals) && log == old(log) && closed == old(closed)
        invariant Calm(old(answers)) ==> first
        invariant first ==> answers == old(answers)
        invariant !first ==> old(closed) || !Yes(old(answers), 0)
        decreases |arrivals|
      {
        ghost var before := log;
        StillNumbered();
        CalmSays(answers);
        failure := Heartbeat();
        OnlyThen(old(log), before, log, QUIET, {KeepAlive}, QUIET);
        if failure.Some? {
          return;
        }
        before := log;
        StillNumbered();
        var reply := TryRefresh();
        OnlyThen(old(log), before, log, QUIET, {Refresh}, QUIET);
        if reply.Err? {
          return Some(reply.error);
        }
        if reply.value.code == OK {
          return None;
        }
        var late := Ask();
        if reply.value.code != BUSY || late {
          return Some(Broken(EBUSY));
        }
        before := log;
        first := false;
        failure := Wait();
        OnlyThen(old(log), before, log, QUIET, {KeepAlive}, QUIET);
        if failure.Some? {
          return;
        }
      }
    }

    /** One write: whether it was submitted at all, and the code that answered it. */
    method WriteOne(message: Message) returns (submitted: bool, code: Result<nat, Failure>)
      requires Valid() && greeted && !closed && lease.Some?
      modifies this
      ensures Valid() && greeted && yielded == old(yielded) && old(received) <= received
      ensures code.Ok? ==> submitted && !closed && lease == old(lease)
      ensures code.Ok? ==> Logged(old(log), log, Write, old(lease).value, message.path, Some(code.value))
      ensures code.Err? ==> code.error.Broken? && closed
      ensures code.Err? && submitted ==> Logged(old(log), log, Write, old(lease).value, message.path, None)
      ensures code.Err? && !submitted ==> log == old(log)
      ensures code.Ok? ==> old(Numbered()) && message.size <= PAYLOAD
      ensures code.Ok? ==> Await(old(Box()), old(arrivals)).Some? && Box() == Await(old(Box()), old(arrivals)).value.1 && arrivals == Await(old(Box()), old(arrivals)).value.2
      ensures Calm(old(answers)) ==> Calm(answers)
      ensures Calm(old(answers)) && old(Numbered()) && message.size <= PAYLOAD ==>
        submitted && (forall c: nat :: code == Ok(c) <==>
          AnsweredWith(old(Box()), old(arrivals), Write, |old(log)| + 1, c) && (c == OK ==> UnderLease(old(Box()), old(arrivals))))
    {
      hide *;
      Ready();
      SessionHas();
      BoxHas();
      CodeIs(Box(), arrivals, Write, |log| + 1);
      var token := lease.value;
      Leased(Session(), token);
      var sent := SendRequest(Write, token, message, Session());
      if sent.Err? {
        Over();
        return false, Err(sent.error);
      }
      ghost var p := Packet(sent.value, Write, token, message.path);
      SentLogged(old(log), log, p);
      ghost var before := log;
      var reply := Acknowledgement(Write, sent.value, p);
      if reply.Err? {
        Over();
        return true, Err(reply.error);
      }
      var frame := reply.value;
      SessionHas();
      BoxHas();
      AwaitIs(old(Box()), old(arrivals), frame, Box(), arrivals, Write, sent.value);
      if frame.code == OK && Some(frame.sequence) != lease {
        SessionHas();
        WriteMisanswered(Session(), sent.value, token, frame);
        Close();
        return true, Err(Broken(EPROTO));
      }
      SessionHas();
      AnswerPlain(Session(), Write, sent.value, token, frame);
      FitsNumber(Write, sent.value, frame);
      AnsweredLast(old(log), p, frame);
      SessionHas();
      Settled(Session());
      return true, Ok(frame.code);
    }

    /**
     * Write a burst in order, one acknowledged write before the next. On failure `written` and
     * `unwritten` divide the burst; a write whose answer was lost is called written, a refused one
     * is not. `acknowledged` are the writes reported as done, in order.
     */
    method Send(burst: seq<Message>) returns (result: SendResult, acknowledged: seq<Message>, ghost at: seq<nat>)
      requires Valid() && greeted
      modifies this
      ensures Valid() && greeted && yielded == old(yielded) && old(received) <= received && |old(log)| <= |log|
      ensures Past() && Reported(result, burst, acknowledged, at, |old(log)|, log)
      ensures result.AllWritten? ==> !closed && lease == old(lease)
      ensures result.WriteFailed? && |result.written| > |acknowledged| ==> closed
      ensures old(lease).None? ==> result == WriteFailed(Refused(EPERM), [], Paths(burst)) && log == old(log)
      ensures old(lease).Some? && result.WriteFailed? ==> (closed <==> result.cause.Broken?)
      ensures old(lease).Some? && result.WriteFailed? && !closed ==>
        exists code :: code != OK && LastAnswered(log, Write, code) && result.cause == Refused(if code == BUSY then EBUSY else EPROTO)
      ensures Calm(old(answers)) && !old(closed) && old(lease).Some? ==>
        (result.AllWritten? <==> AllAcknowledged(old(Box()), old(arrivals), |old(log)|, burst))
    {
      hide *;
      assert burst[0..] == burst;
      var paths := Paths(burst);
      acknowledged, at := [], [];
      BurstStarts(log, paths);
      if lease.None? {
        assert paths[..0] == [] && paths[0..] == paths && burst[..0] == [] && at[..0] == [];
        ReportsPart(Refused(EPERM), burst, 0, 0, [], |log|, log);
        Ready();
        return WriteFailed(Refused(EPERM), [], paths), [], [];
      }
      Ready();
      ghost var lo := |log|;
      for i := 0 to |burst|
        invariant Valid() && greeted && yielded == old(yielded) && old(received) <= received && lo <= |log|
        invariant lease == old(lease) && acknowledged == burst[..i] && |at| == i
        invariant BurstLog(log, lo, paths, at, i) && Acknowledged(log, at)
        invariant !closed
        invariant Calm(old(answers)) ==>
          Calm(answers) && (AllAcknowledged(old(Box()), old(arrivals), |old(log)|, burst) <==> AllAcknowledged(Box(), arrivals, |log|, burst[i..]))
      {
        AllAcknowledgedIs(Box(), arrivals, |log|, burst, i);
        var submitted, code, more := WriteNext(burst[i], lo, paths, at);
        var count := if submitted && (code.Err? || code.value == OK) then i + 1 else i;
        assert more[..i] == at && paths[..count] + paths[count..] == paths;
        at := more;
        if code.Err? {
          ReportsPart(code.error, burst, i, count, at, lo, log);
          Ready();
          return WriteFailed(code.error, paths[..count], paths[count..]), acknowledged, at;
        }
        if code.value != OK {
          ReportsPart(Refused(if code.value == BUSY then EBUSY else EPROTO), burst, i, count, at, lo, log);
          Ready();
          return WriteFailed(Refused(if code.value == BUSY then EBUSY else EPROTO), paths[..count], paths[count..]), acknowledged, at;
        }
        acknowledged := acknowledged + [burst[i]];
      }
      assert burst[..|burst|] == burst;
      AllAcknowledgedIs(Box(), arrivals, |log|, burst, |burst|);
      ReportsAll(burst, at, lo, log);
      Ready();
      result := AllWritten;
    }

    /** The next write of a burst, once its time has come. */
    method WriteNext(message: Message, ghost lo: nat, ghost paths: seq<string>, ghost at: seq<nat>)
        returns (submitted: bool, code: Result<nat, Failure>, ghost more: seq<nat>)
      requires Valid() && greeted && lease.Some? && |at| < |paths| && message.path == paths[|at|] && lo <= |log|
      requires BurstLog(log, lo, paths, at, |at|) && Acknowledged(log, at)
      modifies this
      ensures Valid() && greeted && yielded == old(yielded) && old(received) <= received && |old(log)| <= |log|
      ensures code.Ok? ==> submitted && !closed && lease == old(lease)
      ensures code.Err? ==> code.error.Broken? && closed
      ensures BurstLog(log, lo, paths, more, if submitted && (code.Err? || code.value == OK) then |at| + 1 else |at|)
      ensures |at| <= |more| && more[..|at|] == at && Acknowledged(log, at)
      ensures code.Ok? && code.value == OK ==> |more| == |at| + 1 && Acknowledged(log, more)
      ensures code.Ok? ==> LastAnswered(log, Write, code.value)
      ensures Calm(old(answers)) && !old(closed) ==>
        && Calm(answers)
        && (code == Ok(OK) <==>
              && message.size <= PAYLOAD && |old(log)| < LAST_REQUEST
              && AnsweredWith(old(Box()), old(arrivals), Write, |old(log)| + 1, OK) && UnderLease(old(Box()), old(arrivals)))
        && (code.Ok? ==> |log| == |old(log)| + 1 && Await(old(Box()), old(arrivals)).Some?
                         && Box() == Await(old(Box()), old(arrivals)).value.1 && arrivals == Await(old(Box()), old(arrivals)).value.2)
    {
      hide *;
      more := at;
      ghost var before := log;
      var failure := Pace();
      BurstBeats(before, log, lo, paths, at, |at|);
      if failure.Some? {
        return false, Err(failure.value), more;
      }
      before := log;
      StillNumbered();
      submitted, code := WriteOne(message);
      if code.Ok? {
        LoggedAnswered(before, log, Write, old(lease).value, message.path, code.value);
      }
      if submitted {
        BurstLogged(before, log, lo, paths, at, old(lease).value, if code.Ok? then Some(code.value) else None);
        more := at + [|log|];
      }
    }

    /** Keep the distance between two writes, serviced, and the lease alive. */
    method Pace() returns (failure: Option<Failure>)
      requires Valid() && greeted
      modifies this
      ensures Valid() && greeted && yielded == old(yielded) && old(received) <= received && Only(old(log), log, {KeepAlive})
      ensures failure.None? ==> !closed && lease == old(lease)
      ensures failure.Some? ==> failure.value.Broken? && closed
      ensures Calm(old(answers)) && !old(closed) ==>
        failure.None? && Calm(answers) && log == old(log) && Box() == old(Box()) && arrivals == old(arrivals)
      ensures Yes(old(answers), 0) && Calm(Later(old(answers), 1)) ==> failure.Some?
      ensures (&& !old(closed) && Yes(old(answers), 0) && TimeUp(Later(old(answers), 1), old(lease).Some?)
               && Yes(old(answers), if old(lease).Some? then 4 else 3)) ==>
        failure == Some(Broken(ECANCELED))
    {
      hide *;
      YesNext(answers);
      LaterStill(answers, if lease.Some? then 3 else 2);
      OnlyLogged(log, log, KeepAlive, 0, "", 0);
      BoxHas();
      SessionHas();
      CalmSays(answers);
      var early := Ask();
      if early {
        failure := Wait();
        if failure.Some? {
          return;
        }
      }
      ghost var before := log;
      BoxHas();
      SessionHas();
      CalmSays(answers);
      failure := Heartbeat();
      OnlyThen(old(log), before, log, {KeepAlive}, {KeepAlive}, {KeepAlive});
    }
  }
}
