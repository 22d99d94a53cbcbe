/** The ODK1 envelope and what one connection accepts of it. */
module Protocol {
  import opened Wrappers

  newtype byte = x: int | 0 <= x < 256

  /** Bytes of the packet header and the largest payload behind it. */
  const HEADER: nat := 24
  const PAYLOAD: nat := 8192
  const LAST_REQUEST: nat := 0xffff_ffff

  datatype Request = Hello | Begin | End | KeepAlive | Write | Refresh

  const OK: nat := 0
  const BUSY: nat := 1
  const INVALID: nat := 2
  const NOT_OWNER: nat := 6

  const LEASE: nat := 16
  const OBSERVATION: nat := 17
  const WINDOW: nat := 18

  const DEVICE: nat := 1
  const DERIVED: nat := 2
  const METERS: nat := 4

  /** A packet from the backend. A reply to a kind no client sends has no `to`. */
  datatype Frame =
    | Reply(to: Option<Request>, request: nat, code: nat, sequence: nat, payload: seq<byte>)
    | Event(kind: nat, request: nat, code: nat, sequence: nat, payload: seq<byte>)

  /** What a connection believes: its lease token, the newest generation, and the last observation taken. */
  datatype Session = Session(
    greeted: bool,
    sources: set<nat>,
    lease: Option<nat>,
    generation: nat,
    held: bool,
    last: nat
  )

  /** An unsolicited packet: the session after it, or None where the client gives the connection up. */
  function Hear(s: Session, f: Frame): Option<Session>
    requires f.Event?
  {
    if f.request != 0 then None
    else if f.kind == LEASE then
      if f.payload != [] || f.code !in {OK, BUSY} || f.sequence < s.generation then None
      else if s.lease.Some? && (f.sequence != s.lease.value || f.code != BUSY) then None
      else Some(s.(generation := f.sequence, held := f.code == BUSY))
    else if f.kind == WINDOW then
      if f.payload != [] || f.code !in {OK, BUSY} then None else Some(s)
    else if f.kind == OBSERVATION then
      if f.code !in {DEVICE, DERIVED, METERS} || f.code !in s.sources || f.payload == []
         || |f.payload| % 4 != 0 || f.sequence <= s.last || !s.greeted then None
      else Some(s.(last := f.sequence))
    else None
  }

  /** Whether a reply answers this request in a form the client reads at all. */
  predicate Fits(asked: Request, number: nat, f: Frame)
    requires f.Reply?
  {
    && f.to == Some(asked) && f.request == number
    && (asked != Hello ==> f.payload == [] && f.code in {OK, BUSY, INVALID, NOT_OWNER})
  }

  /** The reply to a request sent with a token: the session after it, or None where the client gives up. */
  function Answer(s: Session, asked: Request, number: nat, token: nat, f: Frame): Option<Session>
    requires f.Reply?
  {
    if !Fits(asked, number, f) then None else
    match asked
    case Hello => if f.code != OK then None else Some(s.(greeted := true, generation := f.sequence))
    case Begin => if f.code == OK then Some(s.(lease := Some(f.sequence), generation := f.sequence)) else Some(s)
    case End => if f.code != OK || f.sequence <= token then None else Some(s.(generation := f.sequence))
    case KeepAlive => if f.code != OK || s.lease != Some(f.sequence) then None else Some(s)
    case Write => if f.code == OK && s.lease != Some(f.sequence) then None else Some(s)
    case Refresh => Some(s)
  }

  /** Which unsolicited packets a client takes, and what it believes afterwards. */
  lemma HeardExactly(s: Session, f: Frame)
    requires f.Event?
    ensures Hear(s, f).Some? <==>
      && f.request == 0
      && (|| (f.kind == LEASE && f.payload == [] && (f.code == OK || f.code == BUSY) && s.generation <= f.sequence
              && (s.lease.Some? ==> s.lease == Some(f.sequence) && f.code == BUSY))
          || (f.kind == WINDOW && f.payload == [] && (f.code == OK || f.code == BUSY))
          || (f.kind == OBSERVATION && s.greeted && s.last < f.sequence && f.code in s.sources * {DEVICE, DERIVED, METERS}
              && 0 < |f.payload| && |f.payload| % 4 == 0))
    ensures Hear(s, f).Some? ==>
      Hear(s, f).value ==
        if f.kind == LEASE then s.(generation := f.sequence, held := f.code == BUSY)
        else if f.kind == OBSERVATION then s.(last := f.sequence) else s
  {
  }

  /** Which replies a client takes, and what it believes afterwards. */
  lemma AnsweredExactly(s: Session, asked: Request, number: nat, token: nat, f: Frame)
    requires f.Reply?
    ensures Answer(s, asked, number, token, f).Some? <==>
      f.to == Some(asked) && f.request == number
      && (asked == Hello || (f.payload == [] && (f.code == OK || f.code == BUSY || f.code == INVALID || f.code == NOT_OWNER)))
      && (asked in {Hello, End, KeepAlive} ==> f.code == OK)
      && (asked == End ==> token < f.sequence)
      && (asked == KeepAlive || (asked == Write && f.code == OK) ==> s.lease == Some(f.sequence))
    ensures Answer(s, asked, number, token, f).Some? ==>
      var s' := Answer(s, asked, number, token, f).value;
      && s' == s.(greeted := s.greeted || asked == Hello, lease := s'.lease, generation := s'.generation)
      && s'.lease == (if asked == Begin && f.code == OK then Some(f.sequence) else s.lease)
      && s'.generation == if asked in {Hello, End} || (asked == Begin && f.code == OK) then f.sequence else s.generation
  {
  }
}
