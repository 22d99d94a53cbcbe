/** What a switch reports of itself, and that every outcome it can build passes its own validation. */
module SwitchOutcome {
  import opened Wrappers
  import ReadBack

  datatype State = AppliedVerified | AppliedUnverified | AppliedMismatched | Refused | WrittenInPart

  const NOT_CHECKED := "verification not requested"

  datatype Outcome = Outcome(
    state: State,
    name: string,
    reason: string,
    unverified: seq<string>,
    unverifiable: seq<string>,
    persisted: bool,
    durable: bool,
    readBack: bool,
    written: seq<string>,
    unwritten: seq<string>,
    reloadFailed: bool,
    mismatched: seq<string>,
    unobserved: seq<string>,
    invalid: seq<string>
  )

  function Paths(s: seq<string>): (r: set<string>)
    ensures forall p :: p in r <==> p in s
  {
    set p | p in s
  }

  /** The flags and the register lists of any state. */
  predicate Consistent(o: Outcome) {
    Flagged(o) && Listed(o)
  }

  /** A completed read-back names exactly what it did not confirm. */
  predicate Listed(o: Outcome) {
    o.readBack ==> Paths(o.unverified) == Paths(o.mismatched + o.unobserved) && Paths(o.unverifiable) <= Paths(o.unobserved)
  }

  predicate Flagged(o: Outcome) {
    && (o.durable ==> o.persisted)
    && (o.reloadFailed && o.state != WrittenInPart ==> o.persisted)
    && Paths(o.unverifiable) <= Paths(o.unverified)
    && (o.unverifiable != [] ==> o.readBack)
    && (o.mismatched != [] || o.unobserved != [] || o.invalid != [] ==> o.readBack)
    && Paths(o.invalid) <= Paths(o.mismatched)
    && Paths(o.mismatched) !! Paths(o.unobserved)
    && (o.reason == NOT_CHECKED ==> !o.readBack && o.state == AppliedUnverified)
    && (o.state != WrittenInPart ==> o.written == [] && o.unwritten == [])
  }

  /** What each state needs of its own. */
  predicate Fitting(o: Outcome) {
    match o.state
    case Refused => o.reason != "" && !o.readBack && !o.persisted && o.unverified == []
    case WrittenInPart =>
      && o.reason != "" && !o.readBack && !o.persisted && o.written != []
      && Paths(o.unverified) == Paths(o.written + o.unwritten)
    case AppliedVerified => o.readBack && o.unverified == [] && o.mismatched == [] && o.unobserved == []
    case AppliedMismatched => o.readBack && o.mismatched != []
    case AppliedUnverified => o.mismatched == [] && (if o.readBack then o.unverified != [] else o.reason != "")
  }

  /** What the constructor accepts. */
  predicate Acceptable(o: Outcome) {
    Consistent(o) && Fitting(o)
  }

  /** The first complaint of the constructor, in its own order. */
  datatype Complaint =
    | DurableNotInEffect | ReloadNeedsPersistence | UnverifiableNotUnverified | UnreadUnverifiable | UnreadReports
    | InvalidNotMismatched | MismatchedAndUnobserved | UncheckedYetRead | NotAPartialWrite
    | NoReason | ReadOrPersisted | RefusedWithWrites | NothingSubmitted | NotEveryPath
    | NotVerified | NotMismatched | KnownMismatch | NamesNothing | UnreadNoReason
    | NotExactlyTheRest | UnverifiableButSeen

  /** The constructor's checks, one after the other. */
  method Validate(o: Outcome) returns (complaint: Option<Complaint>)
    ensures complaint.None? <==> Acceptable(o)
    ensures complaint.Some? ==> Objects(o, complaint.value)
  {
    hide Flagged, Listed, Fitting, Objects;
    complaint := ValidateFlags(o);
    if complaint.None? {
      complaint := ValidateState(o);
    }
    if complaint.None? {
      complaint := ValidateLists(o);
    }
  }

  method ValidateFlags(o: Outcome) returns (complaint: Option<Complaint>)
    ensures complaint.None? <==> Flagged(o)
    ensures complaint.Some? ==> Objects(o, complaint.value)
  {
    if o.durable && !o.persisted {
      return Some(DurableNotInEffect);
    }
    if o.reloadFailed && o.state != WrittenInPart && !o.persisted {
      return Some(ReloadNeedsPersistence);
    }
    if !(Paths(o.unverifiable) <= Paths(o.unverified)) {
      return Some(UnverifiableNotUnverified);
    }
    if o.unverifiable != [] && !o.readBack {
      return Some(UnreadUnverifiable);
    }
    if (o.mismatched != [] || o.unobserved != [] || o.invalid != []) && !o.readBack {
      return Some(UnreadReports);
    }
    if !(Paths(o.invalid) <= Paths(o.mismatched)) {
      return Some(InvalidNotMismatched);
    }
    var both := Paths(o.mismatched) * Paths(o.unobserved);
    if both != {} {
      assert exists p :: p in both;
      return Some(MismatchedAndUnobserved);
    }
    forall p | p in Paths(o.mismatched) ensures p !in Paths(o.unobserved) {
      assert p !in both;
    }
    if o.reason == NOT_CHECKED && (o.readBack || o.state != AppliedUnverified) {
      return Some(UncheckedYetRead);
    }
    if o.state != WrittenInPart && (o.written != [] || o.unwritten != []) {
      return Some(NotAPartialWrite);
    }
    return None;
  }

  method ValidateState(o: Outcome) returns (complaint: Option<Complaint>)
    requires Flagged(o)
    ensures complaint.None? <==> Fitting(o)
    ensures complaint.Some? ==> Objects(o, complaint.value)
  {
    if o.state == Refused || o.state == WrittenInPart {
      if o.reason == "" {
        return Some(NoReason);
      }
      if o.readBack || o.persisted {
        return Some(ReadOrPersisted);
      }
      if o.state == Refused && o.unverified != [] {
        return Some(RefusedWithWrites);
      }
      if o.state == WrittenInPart {
        if o.written == [] {
          return Some(NothingSubmitted);
        }
        if Paths(o.unverified) != Paths(o.written + o.unwritten) {
          return Some(NotEveryPath);
        }
      }
    } else if o.state == AppliedVerified {
      if !o.readBack || o.unverified != [] || o.mismatched != [] || o.unobserved != [] {
        return Some(NotVerified);
      }
    } else if o.state == AppliedMismatched {
      if !o.readBack || o.mismatched == [] {
        return Some(NotMismatched);
      }
    } else if o.mismatched != [] {
      return Some(KnownMismatch);
    } else if o.readBack {
      if o.unverified == [] {
        return Some(NamesNothing);
      }
    } else if o.reason == "" {
      return Some(UnreadNoReason);
    }
    return None;
  }

  method ValidateLists(o: Outcome) returns (complaint: Option<Complaint>)
    ensures complaint.None? <==> Listed(o)
    ensures complaint.Some? ==> Objects(o, complaint.value)
  {
    if o.readBack {
      if Paths(o.unverified) != Paths(o.mismatched + o.unobserved) {
        return Some(NotExactlyTheRest);
      }
      if !(Paths(o.unverifiable) <= Paths(o.unobserved)) {
        return Some(UnverifiableButSeen);
      }
    }
    return None;
  }

  /** What each complaint says of an outcome. */
  ghost predicate Objects(o: Outcome, complaint: Complaint) {
    match complaint
    case DurableNotInEffect => o.durable && !o.persisted
    case ReloadNeedsPersistence => o.reloadFailed && o.state != WrittenInPart && !o.persisted
    case UnverifiableNotUnverified => exists p :: p in o.unverifiable && p !in o.unverified
    case UnreadUnverifiable => o.unverifiable != [] && !o.readBack
    case UnreadReports => !o.readBack && (o.mismatched != [] || o.unobserved != [] || o.invalid != [])
    case InvalidNotMismatched => exists p :: p in o.invalid && p !in o.mismatched
    case MismatchedAndUnobserved => exists p :: p in o.mismatched && p in o.unobserved
    case UncheckedYetRead => o.reason == NOT_CHECKED && (o.readBack || o.state != AppliedUnverified)
    case NotAPartialWrite => o.state != WrittenInPart && (o.written != [] || o.unwritten != [])
    case NoReason => o.state in {Refused, WrittenInPart} && o.reason == ""
    case ReadOrPersisted => o.state in {Refused, WrittenInPart} && (o.readBack || o.persisted)
    case RefusedWithWrites => o.state == Refused && o.unverified != []
    case NothingSubmitted => o.state == WrittenInPart && o.written == []
    case NotEveryPath => o.state == WrittenInPart && exists p :: (p in o.unverified) != (p in o.written || p in o.unwritten)
    case NotVerified => o.state == AppliedVerified && (!o.readBack || o.unverified != [] || o.mismatched != [] || o.unobserved != [])
    case NotMismatched => o.state == AppliedMismatched && (!o.readBack || o.mismatched == [])
    case KnownMismatch => o.state == AppliedUnverified && o.mismatched != []
    case NamesNothing => o.state == AppliedUnverified && o.readBack && o.unverified == []
    case UnreadNoReason => o.state == AppliedUnverified && !o.readBack && o.reason == ""
    case NotExactlyTheRest => o.readBack && exists p :: (p in o.unverified) != (p in o.mismatched || p in o.unobserved)
    case UnverifiableButSeen => o.readBack && exists p :: p in o.unverifiable && p !in o.unobserved
  }

  // What a switch met on its way

  /** A completed read-back. */
  datatype Read = Read(mismatched: seq<string>, unobserved: seq<string>, invalid: seq<string>)

  datatype Apply = Applied | WriteFailed(written: seq<string>, unwritten: seq<string>) | ApplyRaised(error: string)

  datatype Reload = Reloaded | NotRunning | ReloadRefused

  datatype Marked = Marked(inEffect: bool, durable: bool)

  /** One switch: what hindered it, how the writes went, what was read back, and how it was committed. */
  datatype Switch = Switch(
    name: string,
    registers: seq<string>,
    maintenance: Option<string>,
    opening: Option<string>,
    apply: Apply,
    verify: bool,
    read: Result<Read, string>,
    finish: Option<string>,
    marked: Marked,
    otherDesk: bool,
    reload: Reload
  )

  const MAINTENANCE := "; complete installation recovery before activation"
  const GAVE_OUT := "cannot complete backend writes"
  const UNFINISHED := "backend operation did not finish: "
  const CAME_SHORT := "unconfirmed or mismatched registers"

  function Blank(state: State, name: string, reason: string): Outcome {
    Outcome(state, name, reason, [], [], false, false, false, [], [], false, [], [], [])
  }

  /** The refused application, if it was one; the paths of a partial write all stay unverified. */
  function Written(name: string, apply: Apply): Option<Outcome> {
    if !apply.WriteFailed? then None
    else if apply.written == [] then Some(Blank(Refused, name, GAVE_OUT))
    else Some(Blank(WrittenInPart, name, GAVE_OUT).(
      unverified := apply.written + apply.unwritten, written := apply.written, unwritten := apply.unwritten))
  }

  function Filter(paths: seq<string>, keep: string -> bool): (r: seq<string>)
    ensures forall p :: p in r <==> p in paths && keep(p)
  {
    if paths == [] then [] else (if keep(paths[0]) then [paths[0]] else []) + Filter(paths[1..], keep)
  }

  /** The read-back as a result, with the paths that are never reported named apart. */
  function Check(name: string, registers: seq<string>, read: Result<Read, string>, reported: string -> bool): Outcome {
    match read
    case Err(error) => Blank(AppliedUnverified, name, error).(unverified := registers)
    case Ok(r) =>
      var unverified := r.mismatched + r.unobserved;
      if unverified == [] then Blank(AppliedVerified, name, "").(readBack := true)
      else
        Blank(if r.mismatched != [] then AppliedMismatched else AppliedUnverified, name, CAME_SHORT).(
          unverified := unverified, unverifiable := Filter(r.unobserved, p => !reported(p)), readBack := true,
          mismatched := r.mismatched, unobserved := r.unobserved, invalid := r.invalid)
  }

  /** Apply, check, end the operation, and only then move the marker. */
  function Activate(s: Switch, reported: string -> bool): Outcome {
    if s.maintenance.Some? then Blank(Refused, s.name, s.maintenance.value + MAINTENANCE)
    else if s.opening.Some? then Blank(Refused, s.name, s.opening.value)
    else if s.apply.ApplyRaised? then Blank(Refused, s.name, s.apply.error)
    else if Written(s.name, s.apply).Some? then Written(s.name, s.apply).value
    else
      var outcome :=
        if s.verify then Check(s.name, s.registers, s.read, reported)
        else Blank(AppliedUnverified, s.name, NOT_CHECKED).(unverified := s.registers);
      if s.finish.Some? then Blank(AppliedUnverified, s.name, UNFINISHED + s.finish.value).(unverified := s.registers)
      else outcome.(persisted := s.marked.inEffect, durable := s.marked.durable)
  }

  /** Tell the running service of a selection it has to follow. */
  function HandOver(o: Outcome, otherDesk: bool, reload: Reload): Outcome {
    if o.state == Refused || (o.state != WrittenInPart && !o.persisted) || otherDesk || !reload.ReloadRefused? then o
    else o.(reloadFailed := true)
  }

  function Switched(s: Switch, reported: string -> bool): Outcome {
    HandOver(Activate(s, reported), s.otherDesk, s.reload)
  }

  // What the parts guarantee

  /** A read-back divides what it did not confirm. */
  predicate SoundRead(r: Read) {
    Paths(r.mismatched) !! Paths(r.unobserved) && Paths(r.invalid) <= Paths(r.mismatched)
  }

  /** A marker that survives a power cut is in effect. */
  predicate SoundMark(m: Marked) {
    m.durable ==> m.inEffect
  }

  /** Whatever error ends as the outcome's reason says something, and no refusal calls itself unchecked. */
  predicate Speaks(s: Switch) {
    if s.maintenance.Some? then true
    else if s.opening.Some? then s.opening.value != "" && s.opening.value != NOT_CHECKED
    else if s.apply.ApplyRaised? then s.apply.error != "" && s.apply.error != NOT_CHECKED
    else if s.apply.WriteFailed? || s.finish.Some? || !s.verify then true
    else s.read.Err? ==> s.read.error != ""
  }

  lemma LongerThanUnchecked(text: string)
    ensures text + MAINTENANCE != NOT_CHECKED && text + MAINTENANCE != ""
    ensures UNFINISHED + text != NOT_CHECKED && UNFINISHED + text != ""
  {
    var a := text + MAINTENANCE;
    assert a[|a| - 1] == 'n' && NOT_CHECKED[|NOT_CHECKED| - 1] == 'd';
    assert (UNFINISHED + text)[0] == 'b' && NOT_CHECKED[0] == 'v';
  }

  lemma CheckedIsAcceptable(name: string, registers: seq<string>, r: Read, reported: string -> bool)
    requires SoundRead(r)
    ensures Acceptable(Check(name, registers, Ok(r), reported))
    ensures var o := Check(name, registers, Ok(r), reported); o.state !in {Refused, WrittenInPart} && !o.reloadFailed && o.readBack
  {
    var o := Check(name, registers, Ok(r), reported);
    assert forall p :: p in r.mismatched + r.unobserved <==> p in r.mismatched || p in r.unobserved;
    assert NOT_CHECKED[0] == 'v' && CAME_SHORT[0] == 'u';
    if r.mismatched + r.unobserved == [] {
      assert r.mismatched == [] && r.unobserved == [];
    }
  }

  /** Only an applied outcome may be committed, and then a sound marker keeps it acceptable. */
  lemma CommittedIsAcceptable(o: Outcome, m: Marked)
    requires Acceptable(o) && SoundMark(m) && o.state !in {Refused, WrittenInPart} && !o.reloadFailed
    ensures Acceptable(o.(persisted := m.inEffect, durable := m.durable))
  {
  }

  lemma HandedOverIsAcceptable(o: Outcome, otherDesk: bool, reload: Reload)
    ensures Acceptable(o) <==> Acceptable(HandOver(o, otherDesk, reload))
  {
    hide Paths;
  }

  /**
   * Given a read-back as an observation yields it and a marker as it is written, the outcome of
   * any switch, through persistence and hand-over, is accepted exactly when the error it quotes
   * as its reason, if any, is not empty, nor that of an unrequested verification on a refusal.
   */
  lemma EveryOutcomeIsAcceptable(s: Switch, reported: string -> bool)
    requires (s.read.Ok? ==> SoundRead(s.read.value)) && SoundMark(s.marked)
    ensures Acceptable(Switched(s, reported)) <==> Speaks(s)
  {
    hide Paths, Acceptable, Check;
    HandedOverIsAcceptable(Activate(s, reported), s.otherDesk, s.reload);
    if s.maintenance.Some? {
      LongerThanUnchecked(s.maintenance.value);
      RefusedAcceptable(s.name, s.maintenance.value + MAINTENANCE);
    } else if s.opening.Some? {
      RefusedAcceptable(s.name, s.opening.value);
    } else if s.apply.ApplyRaised? {
      RefusedAcceptable(s.name, s.apply.error);
    } else if s.apply.WriteFailed? {
      WrittenIsAcceptable(s.name, s.apply);
    } else if s.finish.Some? {
      LongerThanUnchecked(s.finish.value);
      UnreadAcceptable(s.name, UNFINISHED + s.finish.value, s.registers, Marked(false, false));
    } else if !s.verify {
      UnreadAcceptable(s.name, NOT_CHECKED, s.registers, s.marked);
    } else if s.read.Err? {
      CheckFailed(s.name, s.registers, s.read.error, reported);
      UnreadAcceptable(s.name, s.read.error, s.registers, s.marked);
    } else {
      CheckedIsAcceptable(s.name, s.registers, s.read.value, reported);
      CommittedIsAcceptable(Check(s.name, s.registers, s.read, reported), s.marked);
    }
  }

  lemma RefusedAcceptable(name: string, reason: string)
    ensures Acceptable(Blank(Refused, name, reason)) <==> reason != "" && reason != NOT_CHECKED
  {
  }

  lemma WrittenIsAcceptable(name: string, apply: Apply)
    requires apply.WriteFailed?
    ensures Written(name, apply).Some? && Acceptable(Written(name, apply).value)
  {
    assert NOT_CHECKED[0] == 'v' && GAVE_OUT[0] == 'c';
  }

  lemma UnreadAcceptable(name: string, reason: string, registers: seq<string>, m: Marked)
    requires SoundMark(m)
    ensures Acceptable(Blank(AppliedUnverified, name, reason).(unverified := registers, persisted := m.inEffect, durable := m.durable)) <==> reason != ""
  {
  }

  lemma CheckFailed(name: string, registers: seq<string>, error: string, reported: string -> bool)
    ensures Check(name, registers, Err(error), reported) == Blank(AppliedUnverified, name, error).(unverified := registers)
  {
  }

  /** The writes were applied and the operation was ended. */
  predicate Finished(s: Switch) {
    s.maintenance.None? && s.opening.None? && s.apply.Applied? && s.finish.None?
  }

  /**
   * What a completed switch says after reading back: verified, mismatched or unverified by what the
   * read-back found, with its registers, and committed exactly as the marker was.
   */
  lemma OutcomeTellsTheReadBack(s: Switch, reported: string -> bool)
    requires Finished(s) && s.verify && s.read.Ok?
    ensures var r, o := s.read.value, Switched(s, reported);
      && (o.state == AppliedVerified <==> r.mismatched == [] && r.unobserved == [])
      && (o.state == AppliedMismatched <==> r.mismatched != [])
      && (o.state == AppliedUnverified <==> r.mismatched == [] && r.unobserved != [])
      && o.readBack && o.name == s.name && o.written == [] && o.unwritten == []
      && (o.persisted <==> s.marked.inEffect) && (o.durable <==> s.marked.durable)
    ensures var r, o := s.read.value, Switched(s, reported);
      && o.mismatched == r.mismatched && o.unobserved == r.unobserved
      && (o.state != AppliedVerified ==> o.invalid == r.invalid) && (SoundRead(r) ==> Paths(o.invalid) == Paths(r.invalid))
      && (forall p :: p in o.unverified <==> p in r.mismatched || p in r.unobserved)
      && (forall p :: p in o.unverifiable <==> p in r.unobserved && !reported(p))
  {
    var r, o := s.read.value, Switched(s, reported);
    assert forall p :: p in r.mismatched + r.unobserved <==> p in r.mismatched || p in r.unobserved;
    if r.mismatched + r.unobserved == [] {
      assert r.mismatched == [] && r.unobserved == [];
      if SoundRead(r) {
        assert Paths(r.invalid) == {} by {
          assert Paths(r.invalid) <= Paths(r.mismatched) == {};
        }
      }
    }
  }

  /** What it says where nothing was read back: everything unverified, for the reason there is. */
  lemma OutcomeTellsTheUnread(s: Switch, reported: string -> bool)
    requires s.maintenance.None? && s.opening.None? && s.apply.Applied? && (s.finish.Some? || !s.verify || s.read.Err?)
    ensures var o := Switched(s, reported);
      && o.state == AppliedUnverified && !o.readBack && o.unverified == s.registers && o.name == s.name
      && o.unverifiable == [] && o.mismatched == [] && o.unobserved == [] && o.invalid == [] && o.written == [] && o.unwritten == []
      && o.reason == (if s.finish.Some? then UNFINISHED + s.finish.value else if !s.verify then NOT_CHECKED else s.read.error)
      && (o.persisted <==> s.finish.None? && s.marked.inEffect) && (o.durable <==> s.finish.None? && s.marked.durable)
  {
  }

  /** What it says where it got no further than the writes. */
  lemma OutcomeTellsTheFailure(s: Switch, reported: string -> bool)
    requires s.maintenance.Some? || s.opening.Some? || !s.apply.Applied?
    ensures var o := Switched(s, reported);
      && !o.readBack && !o.persisted && !o.durable && o.name == s.name
      && o.unverifiable == [] && o.mismatched == [] && o.unobserved == [] && o.invalid == []
      && if s.maintenance.None? && s.opening.None? && s.apply.WriteFailed? && s.apply.written != []
         then o.state == WrittenInPart && o.written == s.apply.written && o.unwritten == s.apply.unwritten
              && o.unverified == s.apply.written + s.apply.unwritten && o.reason == GAVE_OUT
         else o.state == Refused && o.written == [] && o.unwritten == [] && o.unverified == []
              && o.reason == if s.maintenance.Some? then s.maintenance.value + MAINTENANCE
                             else if s.opening.Some? then s.opening.value
                             else if s.apply.ApplyRaised? then s.apply.error else GAVE_OUT
  {
  }

  /** A reload is reported as failed exactly where the service had to follow, could be this desk's, and refused. */
  lemma ReloadFailedExactly(s: Switch, reported: string -> bool)
    ensures var o := Switched(s, reported);
      o.reloadFailed <==> (o.state == WrittenInPart || o.persisted) && !s.otherDesk && s.reload.ReloadRefused?
  {
  }

  /** A corollary, read off the switch case by case: when it is refused, and what a committed or handed-over one implies. */
  lemma RefusedExactly(s: Switch, reported: string -> bool)
    ensures var o := Switched(s, reported);
      && (o.state == Refused <==>
            s.maintenance.Some? || s.opening.Some? || s.apply.ApplyRaised? || (s.apply.WriteFailed? && s.apply.written == []))
      && (o.state in {Refused, WrittenInPart} ==> !o.persisted)
      && (o.persisted ==> s.apply == Applied && s.finish.None? && s.marked.inEffect)
      && (o.reloadFailed ==> o.persisted || o.state == WrittenInPart)
  {
  }

  /** The sets of an observation are a sound read-back. */
  lemma ObservedIsSound(window: ReadBack.Observation, r: Read)
    requires window.Valid()
    requires Paths(r.mismatched) == window.mismatched && Paths(r.unobserved) == window.Unobserved() && Paths(r.invalid) == window.invalid
    ensures SoundRead(r)
  {
    window.Partition();
  }
}
