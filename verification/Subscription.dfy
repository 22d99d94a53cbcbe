/**
 * The repository subscription on disk. Every durable change is one step and the machine may stop
 * before any of them; what is on disk must be safe at each such point.
 */
module Subscription {
  import opened Wrappers

  datatype Manager = Apt | Dnf | Zypp

  /** The definition files: a source per manager, and the hook that makes apt and dnf verify it. */
  datatype Path = Source(manager: Manager) | Hook(manager: Manager)

  datatype Certificate = Certificate(primary: string, packets: set<int>)

  /** File contents, each its own digest. */
  datatype Content = HookText(manager: Manager) | AptText(url: string) | RpmText(manager: Manager, url: string, certificate: Certificate) | Foreign(text: string)

  datatype Record = Record(
    enabled: bool,
    files: map<Path, Content>,
    target: Option<string>,
    manager: Option<Manager>,
    url: Option<string>,
    primary: Option<string>,
    certificate: Option<Certificate>,
    rpmCertificate: Option<Certificate>
  )

  /** What the installed client package says of itself. */
  datatype Package = Package(target: string, manager: Manager, url: string, key: Certificate)

  /** `edited` are the definitions somebody else changed since they were published, `foreign` those somebody else created. */
  datatype Disk = Disk(
    fence: Option<bool>,
    registration: Option<Record>,
    files: map<Path, Content>,
    edited: set<Path>,
    foreign: set<Path>,
    saved: set<(Path, Content)>,
    certificate: Option<Certificate>,
    retired: set<Certificate>,
    config: Option<string>,
    pendingKey: Option<Certificate>
  )

  const NOTHING := Record(false, map[], None, None, None, None, None, None)

  /** Sources go before the hooks that protect them. */
  const ORDER: seq<Path> := [Source(Apt), Source(Dnf), Source(Zypp), Hook(Apt), Hook(Dnf)]

  function Registration(d: Disk): Record {
    if d.registration.Some? then d.registration.value else NOTHING
  }

  predicate HasHook(m: Manager) {
    m != Zypp
  }

  // What must hold at every point the machine may stop at

  predicate Ours(d: Disk, p: Path) {
    p in d.files && p !in d.foreign
  }

  /** A published source is never without the hook that verifies it. */
  ghost predicate Protected(d: Disk) {
    forall m :: Ours(d, Source(m)) && HasHook(m) ==> Hook(m) in d.files
  }

  /** Outside maintenance a published source belongs to an enabled registration. */
  ghost predicate Declared(d: Disk) {
    d.fence.None? ==> forall m :: Ours(d, Source(m)) ==> Registration(d).enabled
  }

  /** Ownership is on record before a file is published, with its digest unless somebody changed it since. */
  ghost predicate Owned(d: Disk) {
    && (forall p :: Ours(d, p) ==> p in Registration(d).files)
    && (forall p :: Ours(d, p) && p !in d.edited ==> Registration(d).files[p] == d.files[p])
    && Hook(Zypp) !in d.files
  }

  ghost predicate Safe(d: Disk) {
    Protected(d) && Declared(d) && Owned(d)
  }

  // What a complete package-finish leads to

  /** An explicit key: the certificate file handed over, if it is one, and the primary fingerprint claimed. */
  type Key = (Option<Certificate>, string)

  /** What the outcome of a finish depends on: whether to subscribe, the primary on record, and the certificate on disk. */
  datatype Goal = Goal(enabled: bool, primary: string, certificate: Option<Certificate>)

  /** The primary a finish holds to: the one on record, else the package's own. */
  function OnRecord(d: Disk, package: Package): string {
    if Registration(d).primary.Some? then Registration(d).primary.value else package.key.primary
  }

  function GoalOf(d: Disk, package: Package): Goal {
    Goal(Registration(d).enabled && AsRegistered(d), OnRecord(d, package), d.certificate)
  }

  /** The key a finish installs: the one given, else the package's own unless another primary is on record. */
  function KeyFor(goal: Goal, key: Option<Key>, package: Package): Key {
    if key.Some? then key.value
    else if goal.primary != package.key.primary then (goal.certificate, goal.primary)
    else (Some(package.key), goal.primary)
  }

  /** What installing a candidate under this primary leads to; None where it is refused. */
  function MergedWith(current: Option<Certificate>, candidate: Option<Certificate>, expected: string): Option<Certificate> {
    if candidate.None? || candidate.value.primary != expected then None
    else if current.Some? && current.value.primary == expected then
      Some(Certificate(expected, current.value.packets + candidate.value.packets))
    else candidate
  }

  /** The certificate a finish under this key installs; None where it has to refuse. */
  function Merged(goal: Goal, key: Option<Key>, package: Package): Option<Certificate> {
    MergedWith(goal.certificate, KeyFor(goal, key, package).0, KeyFor(goal, key, package).1)
  }

  function SourceText(package: Package, certificate: Certificate): Content {
    if package.manager == Apt then AptText(package.url) else RpmText(package.manager, package.url, certificate)
  }

  function Definitions(enabled: bool, package: Package, certificate: Certificate): map<Path, Content> {
    if !enabled then map[]
    else
      var source := map[Source(package.manager) := SourceText(package, certificate)];
      if HasHook(package.manager) then map[Hook(package.manager) := HookText(package.manager)] + source else source
  }

  /** What a subscribed package publishes: one source of its own manager, bound to the certificate under rpm, and the hook there is. */
  lemma PublishedExactly(package: Package, certificate: Certificate, p: Path)
    ensures var d := Definitions(true, package, certificate);
      && (p in d <==> p == Source(package.manager) || (p == Hook(package.manager) && package.manager in {Apt, Dnf}))
      && (p == Hook(Apt) && p in d ==> d[p] == HookText(Apt)) && (p == Hook(Dnf) && p in d ==> d[p] == HookText(Dnf))
      && d[Source(package.manager)] ==
           match package.manager
           case Apt => AptText(package.url)
           case Dnf => RpmText(Dnf, package.url, certificate)
           case Zypp => RpmText(Zypp, package.url, certificate)
  {
  }

  /** Every definition is as it was registered. */
  predicate AsRegistered(d: Disk) {
    forall p <- d.files :: p in Registration(d).files && Registration(d).files[p] == d.files[p]
  }

  /** What a subscription comes to: the certificate that authenticates it and the definitions published. */
  datatype Subscribed = Subscribed(certificate: Certificate, definitions: map<Path, Content>)

  /** What a finish without an explicit key leaves; None where it has to refuse the key. */
  function Left(goal: Goal, package: Package): Option<Subscribed> {
    match Merged(goal, None, package)
    case None => None
    case Some(certificate) => Some(Subscribed(certificate, Definitions(goal.enabled, package, certificate)))
  }

  function Target(d: Disk, package: Package): Option<Subscribed> {
    Left(GoalOf(d, package), package)
  }

  // What an action does to the goal

  datatype Effect = Enabling | Disabling | Keying(key: Option<Key>)

  datatype Action = PackageBegin | PackageFinish | Enable(key: Option<Key>) | RefreshKey(explicit: Key) | Remove

  /** An action's effects in order; one that is interrupted has the first few of them. */
  function Effects(action: Action): seq<Effect> {
    match action
    case PackageBegin => []
    case PackageFinish => [Keying(None)]
    case Enable(key) => [Enabling, Keying(key)]
    case RefreshKey(key) => [Keying(Some(key))]
    case Remove => [Disabling]
  }

  /** A key that is refused has no effect. */
  function Rekeyed(goal: Goal, key: Option<Key>, package: Package): Goal {
    var merged := Merged(goal, key, package);
    if merged.None? then goal else goal.(primary := KeyFor(goal, key, package).1, certificate := merged)
  }

  function With(goal: Goal, effect: Effect, package: Package): Goal {
    match effect
    case Enabling => goal.(enabled := true)
    case Disabling => goal.(enabled := false)
    case Keying(key) => Rekeyed(goal, key, package)
  }

  function After(goal: Goal, effects: seq<Effect>, package: Package): Goal {
    if effects == [] then goal else With(After(goal, effects[..|effects| - 1], package), effects[|effects| - 1], package)
  }

  /** A goal half way through a change of key: the certificate is installed and its primary not yet on record. */
  function HalfKeyed(goal: Goal, key: Option<Key>, package: Package): Goal {
    var merged := Merged(goal, key, package);
    if merged.None? then goal else goal.(certificate := merged)
  }

  /** Where an installation of a key may have come to when it stops. */
  predicate Keyed(goal: Goal, goal': Goal, key: Option<Key>, package: Package) {
    goal' == goal || goal' == HalfKeyed(goal, key, package) || goal' == Rekeyed(goal, key, package)
  }

  /** No key this action brings changes the primary on record. */
  ghost predicate KeepsPrimary(goal: Goal, action: Action) {
    match action
    case Enable(Some(key)) => key.1 == goal.primary
    case RefreshKey(key) => key.1 == goal.primary
    case _ => true
  }

  datatype Outcome = Done | Refused | Stopped

  /** What an interrupted action may have done to the goal: a first few of its effects, the last of them perhaps by half. */
  predicate Partly(goal: Goal, goal': Goal, action: Action, package: Package) {
    match action
    case PackageBegin => goal' == goal
    case PackageFinish => Keyed(goal, goal', None, package)
    case Enable(key) => goal' == goal || Keyed(goal.(enabled := true), goal', key, package)
    case RefreshKey(key) => Keyed(goal, goal', Some(key), package)
    case Remove => goal' == goal || goal' == goal.(enabled := false)
  }

  /** An action ended: in part, or complete; an action without the package's own files changes no goal by them. */
  ghost predicate Took(d: Disk, d': Disk, action: Action, out: Outcome, installed: Option<Package>) {
    AsRegistered(d') && forall p: Package :: installed.None? || installed.value == p ==> TookFor(d, d', action, out, p)
  }

  ghost predicate TookFor(d: Disk, d': Disk, action: Action, out: Outcome, package: Package) {
    && Partly(GoalOf(d, package), GoalOf(d', package), action, package)
    && (out.Done? ==> GoalOf(d', package) == After(GoalOf(d, package), Effects(action), package))
    && Registration(d').target in {Registration(d).target, Some(package.target)}
  }

  /** The package is of the target on record, if there is one. */
  predicate Fits(record: Record, package: Package) {
    record.target.Some? ==> record.target.value == package.target
  }

  /** The key can be imported, and the native manager is busy afterwards. */
  predicate Busy(answers: seq<bool>) {
    !Yes(answers) && Yes(Rest(answers))
  }

  /** A finish under this key ran to its end. */
  ghost predicate Completed(d: Disk, d': Disk, key: Option<Key>, package: Package) {
    && d'.certificate.Some? && d'.certificate == Merged(GoalOf(d, package), key, package)
    && GoalOf(d', package) == Rekeyed(GoalOf(d, package), key, package) && Registration(d').enabled == Registration(d).enabled
    && d'.files == Definitions(Registration(d).enabled, package, d'.certificate.value)
  }

  /** The certificate that is replaced by one of another primary. */
  function Replaced(current: Option<Certificate>, expected: string): set<Certificate> {
    if current.Some? && current.value.primary != expected then {current.value} else {}
  }

  /** The rpm database is told at once, unless this is apt or rpm's own transaction. */
  predicate Tells(manager: Option<Manager>, rpmTrust: bool) {
    manager != Some(Apt) && rpmTrust
  }

  /**
   * The key left for the end of zypp's transaction: none where the subscription is off or rpm was
   * told, and the certificate where zypp's rpm holds another one.
   */
  ghost predicate LeftPending(before: Option<Certificate>, after: Option<Certificate>, record: Record, rpmTrust: bool) {
    && (!record.enabled || Tells(record.manager, rpmTrust) ==> after.None?)
    && (record.enabled && record.manager == Some(Zypp) && !rpmTrust && record.rpmCertificate != record.certificate ==> after == record.certificate)
    && (record.enabled && (record.manager == Some(Apt) || (!rpmTrust && (record.manager != Some(Zypp) || record.rpmCertificate == record.certificate)))
        ==> after == before)
  }

  /** Outside maintenance, a pending key that is the certificate registered and installed. */
  predicate Syncable(d: Disk) {
    && d.fence.None? && d.registration.Some? && d.registration.value.manager == Some(Zypp)
    && d.pendingKey.Some? && d.pendingKey == d.certificate == d.registration.value.certificate
  }

  /** What a complete finish leaves beside the definitions. */
  ghost predicate Kept(d: Disk, d': Disk, key: Option<Key>, package: Package, rpmTrust: bool) {
    var primary := KeyFor(GoalOf(d, package), key, package).1;
    var record := Registration(d).(
      target := Some(package.target), manager := Some(package.manager), url := Some(package.url), primary := Some(primary), certificate := d'.certificate);
    && d'.registration == Some(record.(
         files := Registration(d).files + d'.files, rpmCertificate := if Tells(Some(package.manager), rpmTrust) then d'.certificate else record.rpmCertificate))
    && d'.config == Some(primary) && d'.retired == d.retired + Replaced(d.certificate, primary) && d'.saved == d.saved
    && LeftPending(d.pendingKey, d'.pendingKey, record, rpmTrust)
  }

  /** The definitions somebody changed. */
  function Changed(d: Disk): set<(Path, Content)> {
    set p | p in d.files && !Matched(d, p) :: (p, d.files[p])
  }

  /** The disk as a complete begin leaves it: nothing published, what was changed kept aside, the registration written. */
  function Begun(d: Disk, enabled: bool): Disk {
    d.(files := map[], saved := d.saved + Changed(d), registration := Some(Registration(d).(enabled := enabled)))
  }

  /** The fence, and who wrote the definitions, decide nothing a finish leaves. */
  predicate Likewise(d: Disk, d': Disk) {
    d' == d.(fence := d'.fence, edited := d'.edited, foreign := d'.foreign)
  }

  /** Files and what is known of them may have changed, and nothing else. */
  ghost predicate OnlyFiles(d: Disk, d': Disk) {
    d' == d.(files := d'.files, edited := d'.edited, foreign := d'.foreign, saved := d'.saved)
  }

  /** A definition can be taken away: it is registered and, where somebody changed it, not kept aside already. */
  predicate MayGo(d: Disk, p: Path) {
    p in d.files ==>
      p in Registration(d).files && (Registration(d).files[p] == d.files[p] || (p, d.files[p]) !in d.saved)
  }

  ghost predicate Removable(d: Disk) {
    forall p :: p in d.files ==> MayGo(d, p)
  }

  /** Of the definitions gone since, the changed ones are kept aside, and nothing else is. */
  ghost predicate KeptAside(d: Disk, d': Disk) {
    d'.saved == d.saved + set p | p in d.files && p !in d'.files && !Matched(d, p) :: (p, d.files[p])
  }

  ghost predicate Fewer(d: Disk, d': Disk) {
    && (forall p :: p in d'.files ==> p in d.files && d'.files[p] == d.files[p])
    && d'.edited <= d.edited && d'.foreign <= d.foreign
  }

  function Without(d: Disk, p: Path): Disk {
    d.(files := d.files - {p}, edited := d.edited - {p}, foreign := d.foreign - {p})
  }

  /** A definition may go once the source it protects, if any, has gone. */
  lemma WithoutIsSafe(d: Disk, p: Path)
    requires Safe(d) && (p.Hook? ==> !Ours(d, Source(p.manager)))
    ensures Safe(Without(d, p))
  {
    assert forall q :: Ours(Without(d, p), q) <==> Ours(d, q) && q != p;
  }

  lemma SavedIsSafe(d: Disk, saved: set<(Path, Content)>)
    requires Safe(d)
    ensures Safe(d.(saved := saved))
  {
    assert forall q :: Ours(d.(saved := saved), q) <==> Ours(d, q);
  }

  lemma OrderOfPaths()
    ensures |ORDER| == 5 && (forall p: Path :: p != Hook(Zypp) ==> p in ORDER)
    ensures forall i :: 0 <= i < 5 && ORDER[i].Hook? ==> Source(ORDER[i].manager) in ORDER[..i]
    ensures forall i, j :: 0 <= i < j < 5 ==> ORDER[i] != ORDER[j]
  {
    forall p: Path | p != Hook(Zypp) ensures p in ORDER {
      match p.manager
      case Apt => assert p in {ORDER[0], ORDER[3]};
      case Dnf => assert p in {ORDER[1], ORDER[4]};
      case Zypp => assert p == ORDER[2];
    }
    assert ORDER[..3][0] == Source(Apt) && ORDER[..4][1] == Source(Dnf);
  }

  /** Whether the next question to the system is answered with yes; nothing goes wrong once the answers have run out. */
  predicate Yes(answers: seq<bool>) {
    answers != [] && answers[0]
  }

  function Rest(answers: seq<bool>): seq<bool> {
    if answers == [] then [] else answers[1..]
  }

  class Setup {
    var disk: Disk
    var budget: nat
    var answers: seq<bool>

    constructor (disk: Disk, budget: nat, answers: seq<bool>)
      requires Safe(disk)
      ensures this.disk == disk && Safe(this.disk)
    {
      this.disk, this.budget, this.answers := disk, budget, answers;
    }

    /** One durable change, unless the machine stops before it. */
    method Change(next: Disk) returns (done: bool)
      requires Safe(disk) && Safe(next)
      modifies `disk, `budget
      ensures Safe(disk) && disk == (if done then next else old(disk))
      ensures (done <==> old(budget) > 0) && budget == (if done then old(budget) - 1 else 0)
    {
      if budget == 0 {
        return false;
      }
      budget := budget - 1;
      disk := next;
      return true;
    }

    method Ask() returns (yes: bool)
      modifies `answers
      ensures yes == Yes(old(answers)) && answers == Rest(old(answers))
    {
      yes, answers := Yes(answers), Rest(answers);
    }

    /** Take every definition away, the sources first; a changed one is kept aside and disables the subscription. */
    method RemoveDefinitions(record: Record) returns (out: Outcome, record': Record)
      requires Safe(disk) && disk.fence.Some? && record.files == Registration(disk).files
      modifies `disk, `budget
      ensures Safe(disk) && OnlyFiles(old(disk), disk) && Fewer(old(disk), disk)
      ensures out.Done? ==> disk.files == map[] && record' == record.(enabled := record.enabled && AsRegistered(old(disk)))
      ensures KeptAside(old(disk), disk)
      ensures match out
              case Done => Removable(old(disk)) && budget >= old(budget) - 5
              case Refused => !Removable(old(disk))
              case Stopped => old(budget) < 5
    {
      hide Safe, KeptAside, Matched, MayGo;
      record' := record;
      OrderOfPaths();
      NothingAside(disk);
      for i := 0 to 5
        invariant Safe(disk) && OnlyFiles(old(disk), disk) && Fewer(old(disk), disk)
        invariant Cleared(old(disk), disk, i)
        invariant record' == record.(enabled := record.enabled && MatchedSoFar(old(disk), i))
        invariant KeptAside(old(disk), disk) && budget >= old(budget) - i
        invariant forall k :: 0 <= k < i ==> MayGo(old(disk), ORDER[k])
      {
        var out';
        out', record' := RemoveOne(old(disk), i, record, record');
        if out' != Done {
          return out', record';
        }
      }
      AllCleared(old(disk), disk);
      AllMayGo(old(disk));
      out := Done;
    }

    /** The next definition in order. */
    method RemoveOne(ghost before: Disk, i: nat, record: Record, soFar: Record) returns (out: Outcome, record': Record)
      requires Safe(disk) && disk.fence.Some? && i < |ORDER| && Fewer(before, disk) && Cleared(before, disk, i) && OnlyFiles(before, disk)
      requires KeptAside(before, disk)
      requires record.files == Registration(before).files && soFar == record.(enabled := record.enabled && MatchedSoFar(before, i))
      modifies `disk, `budget
      ensures Safe(disk) && OnlyFiles(before, disk) && Fewer(before, disk)
      ensures out.Done? ==> Cleared(before, disk, i + 1) && record' == record.(enabled := record.enabled && MatchedSoFar(before, i + 1))
      ensures KeptAside(before, disk)
      ensures match out
              case Done => MayGo(before, ORDER[i]) && budget >= old(budget) - 1
              case Refused => ORDER[i] in before.files && !MayGo(before, ORDER[i])
              case Stopped => old(budget) == 0
    {
      hide KeptAside, MayGo, Safe, Ours, Fewer, Cleared, Matched, MatchedSoFar, OnlyFiles, Registration, AsRegistered;
      record' := soFar;
      var p := ORDER[i];
      MatchedNext(before, i);
      if p !in disk.files {
        ClearedAbsent(before, disk, i);
        AbsentMayGo(before, p);
        return Done, record';
      }
      AsideOne(before, disk, p);
      if p !in record.files {
        return Refused, record';
      }
      var current := disk.files[p];
      HookIsFree(before, disk, i);
      WithoutIsSafe(disk, p);
      ClearedRemoved(before, disk, i, disk.saved);
      ClearedRemoved(before, disk, i, disk.saved + {(p, current)});
      var next := Without(disk, p).(saved := disk.saved);
      if current != record.files[p] {
        if (p, current) in disk.saved {
          return Refused, record';
        }
        SavedIsSafe(next, disk.saved + {(p, current)});
        next := Without(disk, p).(saved := disk.saved + {(p, current)});
        record' := record'.(enabled := false);
      }
      var done := Change(next);
      out := if done then Done else Stopped;
    }

    /** Fence the maintenance, take the definitions away, and record what remains of the subscription. */
    method Begin(removing: bool) returns (out: Outcome, record: Record)
      requires Safe(disk)
      modifies `disk, `budget
      ensures Safe(disk) && KeysAlike(old(disk), disk)
      ensures out.Done? ==>
        && disk.fence.Some? && disk.files == map[] && disk.registration == Some(record)
        && record == Registration(old(disk)).(enabled := !removing && Registration(old(disk)).enabled && AsRegistered(old(disk)))
      ensures !removing && (AsRegistered(old(disk)) || out.Done?) ==> Aim(disk) == Aim(old(disk))
      ensures removing && AsRegistered(old(disk)) ==> Aim(disk) in {Aim(old(disk)), Aim(old(disk)).(0 := false)}
      ensures removing && out.Done? ==> Aim(disk) == Aim(old(disk)).(0 := false)
      ensures match out
              case Done => Removable(old(disk)) && budget >= old(budget) - 7
              case Refused => !Removable(old(disk))
              case Stopped => old(budget) < 7
      ensures KeptAside(old(disk), disk) && Fewer(old(disk), disk)
      ensures out.Done? ==> Likewise(Begun(old(disk), record.enabled), disk)
      ensures disk.fence == old(disk).fence || (old(disk).fence.None? && disk.fence == Some(Registration(old(disk)).enabled))
      ensures !out.Done? ==> Registration(disk) == Registration(old(disk))
      ensures (AsRegistered(old(disk)) || out.Done? ==> AsRegistered(disk)) && Registration(disk).target == Registration(old(disk)).target
    {
      hide Safe, Aim, AsRegistered, OnlyFiles, Fewer, KeptAside, Removable;
      var before := disk;
      NothingAside(before);
      AimSelf(before);
      record := Registration(disk);
      FenceIsSafe(disk, Some(record.enabled));
      if disk.fence.None? {
        var done := Change(disk.(fence := Some(record.enabled)));
        if !done {
          return Stopped, record;
        }
      }
      var fenced := disk;
      FencedAlike(before, fenced);
      FencedAside(before, fenced);
      if removing {
        record := record.(enabled := false);
      }
      out, record := RemoveDefinitions(record);
      FewerAlike(before, fenced, disk);
      if out != Done {
        return out, record;
      }
      EmptyIsSafe(disk.(registration := Some(record)));
      EmptyAgrees(disk.(registration := Some(record)));
      RecordedAim(before, disk, record, removing);
      RecordedAside(before, disk, record);
      BegunNow(before, disk, record);
      RegistrationIs(disk.(registration := Some(record)));
      var done := Change(disk.(registration := Some(record)));
      out := if done then Done else Stopped;
    }

    /** Install a certificate: merged into the one of the same primary, or in its place, the old one retired. */
    method UpdateCertificate(record: Record, candidate: Option<Certificate>, expected: string) returns (out: Outcome, record': Record)
      requires Safe(disk) && disk.files == map[]
      modifies `disk, `budget, `answers
      ensures Safe(disk) && disk == old(disk).(certificate := disk.certificate, retired := disk.retired, config := disk.config)
      ensures disk.certificate == old(disk).certificate ||
              (disk.certificate.Some? && disk.certificate == MergedWith(old(disk).certificate, candidate, expected))
      ensures out.Done? ==>
        && disk.certificate == MergedWith(old(disk).certificate, candidate, expected) && disk.certificate.Some?
        && record' == record.(primary := Some(expected), certificate := disk.certificate)
        && disk.config == Some(expected) && disk.retired == old(disk).retired + Replaced(old(disk).certificate, expected)
      ensures disk.retired == old(disk).retired ||
              (disk.retired == old(disk).retired + Replaced(old(disk).certificate, expected) && candidate.Some? && candidate.value.primary == expected)
      ensures disk.certificate != old(disk).certificate ==> Replaced(old(disk).certificate, expected) <= disk.retired
      ensures disk.config != old(disk).config ==> disk.config == Some(expected) && disk.certificate == MergedWith(old(disk).certificate, candidate, expected)
      ensures MergedWith(old(disk).certificate, candidate, expected).Some? && old(budget) >= 3 && !Yes(old(answers)) ==>
        out.Done? && budget >= old(budget) - 3 && answers == Rest(old(answers))
      ensures out ==
        var first := if Replaced(old(disk).certificate, expected) == {} then 0 else 1;
        if MergedWith(old(disk).certificate, candidate, expected).None? then Refused
        else if old(budget) < first then Stopped
        else if Yes(old(answers)) then Refused
        else if old(budget) < first + 2 then Stopped else Done
      ensures out.Refused? ==> disk.certificate == old(disk).certificate
    {
      hide Safe;
      record' := record;
      var merged := MergedWith(disk.certificate, candidate, expected);
      if candidate.None? || candidate.value.primary != expected {
        return Refused, record';
      }
      var done;
      if disk.certificate.Some? && disk.certificate.value.primary != expected {
        EmptyIsSafe(disk.(retired := disk.retired + {disk.certificate.value}));
        done := Change(disk.(retired := disk.retired + {disk.certificate.value}));
        if !done {
          return Stopped, record';
        }
      }
      var failed := Ask();
      if failed {
        return Refused, record';
      }
      EmptyIsSafe(disk.(certificate := merged));
      done := Change(disk.(certificate := merged));
      if !done {
        return Stopped, record';
      }
      record' := record.(primary := Some(expected), certificate := merged);
      EmptyIsSafe(disk.(config := Some(expected)));
      done := Change(disk.(config := Some(expected)));
      out := if done then Done else Stopped;
    }

    /** Publish one definition: its ownership is on record before the file is there. */
    method Define(record: Record, path: Path, content: Content) returns (out: Outcome, record': Record)
      requires Safe(disk) && disk.fence.Some? && disk.registration.Some? && record.files == Registration(disk).files && !Ours(disk, path)
      requires path != Hook(Zypp) && (path.Source? && HasHook(path.manager) ==> Hook(path.manager) in disk.files)
      modifies `disk, `budget
      ensures Safe(disk)
      ensures disk == old(disk).(registration := disk.registration, files := disk.files, edited := disk.edited, foreign := disk.foreign)
      ensures Registration(disk) == Registration(old(disk)) || Registration(disk) == record.(files := record.files[path := content])
      ensures disk.registration.Some? && (old(path !in disk.files && AsRegistered(disk)) ==> AsRegistered(disk))
      ensures out.Done? ==>
        && record' == record.(files := record.files[path := content]) && disk.registration == Some(record')
        && disk.files == old(disk).files[path := content]
      ensures path !in old(disk).files && old(budget) >= 2 ==> out.Done? && budget >= old(budget) - 2
      ensures out.Refused? <==> path in old(disk).files && path !in record.files
      ensures out.Refused? ==> disk == old(disk)
    {
      hide Safe;
      record' := record;
      if path in disk.files && path !in record.files {
        return Refused, record';
      }
      record' := record.(files := record.files[path := content]);
      JournaledIsSafe(disk, record', path, content);
      var done := Change(disk.(registration := Some(record')));
      if !done {
        return Stopped, record';
      }
      PublishedIsSafe(disk, path, content);
      done := Change(Published(disk, path, content));
      out := if done then Done else Stopped;
    }

    /** What the native package manager is told of the certificate, now or at its own transaction's end. */
    method Trust(record: Record, rpmTrust: bool) returns (out: Outcome, record': Record)
      requires Safe(disk) && disk.files == map[]
      modifies `disk, `budget, `answers
      ensures Safe(disk) && disk == old(disk).(pendingKey := disk.pendingKey)
      ensures out.Done? ==>
        && record' == record.(rpmCertificate := if Tells(record.manager, rpmTrust) then record.certificate else record.rpmCertificate)
        && LeftPending(old(disk).pendingKey, disk.pendingKey, record, rpmTrust)
      ensures disk.pendingKey in {old(disk).pendingKey, None, record.certificate}
      ensures out.Refused? <==> Yes(old(answers)) && (record.manager == Some(Apt) || rpmTrust)
      ensures out.Refused? ==> disk == old(disk)
      ensures !Yes(old(answers)) && old(budget) >= 2 ==> out.Done? && budget >= old(budget) - 2
      ensures record.manager == Some(Apt) && Yes(old(answers)) ==> out.Refused? && disk == old(disk)
    {
      hide Safe;
      record' := record;
      var done;
      if record.manager == Some(Apt) {
        var busy := Ask();
        if busy {
          return Refused, record';
        }
      } else if rpmTrust {
        var failed := Ask();
        if failed {
          return Refused, record';
        }
        record' := record.(rpmCertificate := record.certificate);
        EmptyIsSafe(disk.(pendingKey := None));
        done := Change(disk.(pendingKey := None));
        if !done {
          return Stopped, record';
        }
      } else if record.enabled && record.manager == Some(Zypp) && record.rpmCertificate != record.certificate {
        EmptyIsSafe(disk.(pendingKey := record.certificate));
        done := Change(disk.(pendingKey := record.certificate));
        if !done {
          return Stopped, record';
        }
      }
      if !record.enabled {
        EmptyIsSafe(disk.(pendingKey := None));
        done := Change(disk.(pendingKey := None));
        return if done then Done else Stopped, record';
      }
      out := Done;
    }

    /** The hook first, then the source it protects. */
    method Publish(record: Record, package: Package) returns (out: Outcome, record': Record)
      requires Safe(disk) && disk.fence.Some? && disk.files == map[] && disk.registration.Some? && record.files == Registration(disk).files
      requires disk.certificate.Some? && record.certificate == disk.certificate
      modifies `disk, `budget
      ensures Safe(disk) && disk == old(disk).(registration := disk.registration, files := disk.files, edited := disk.edited, foreign := disk.foreign)
      ensures AsRegistered(disk) && (Registration(disk) == Registration(old(disk)) || Registration(disk) == record.(files := Registration(disk).files))
      ensures out.Done? ==>
        && disk.files == Definitions(true, package, disk.certificate.value)
        && disk.registration == Some(record') && record' == record.(files := record.files + disk.files)
      ensures old(budget) >= 4 ==> out.Done? && budget >= old(budget) - 4
    {
      hide Safe;
      record' := record;
      out := Done;
      assert forall p :: !Ours(disk, p);
      if HasHook(package.manager) {
        out, record' := Define(record, Hook(package.manager), HookText(package.manager));
        if out != Done {
          return;
        }
      }
      out, record' := Define(record', Source(package.manager), SourceText(package, disk.certificate.value));
      if out == Done {
        assert disk.files == Definitions(true, package, disk.certificate.value);
      }
    }

    /** The fence goes last. */
    method Reopen(record: Record) returns (out: Outcome)
      requires Safe(disk) && disk.fence.Some? && disk.registration.Some? && record.files == Registration(disk).files
      requires forall m :: Ours(disk, Source(m)) ==> record.enabled
      modifies `disk, `budget
      ensures Safe(disk)
      ensures disk == old(disk) || disk == old(disk).(registration := Some(record)) || disk == old(disk).(registration := Some(record), fence := None)
      ensures out.Done? ==> disk == old(disk).(registration := Some(record), fence := None)
      ensures old(budget) >= 2 ==> out.Done? && budget >= old(budget) - 2
    {
      hide Safe;
      RerecordedIsSafe(disk, record);
      var done := Change(disk.(registration := Some(record)));
      if !done {
        return Stopped;
      }
      ReopenedIsSafe(disk);
      done := Change(disk.(fence := None));
      out := if done then Done else Stopped;
    }

    /**
     * Finish the maintenance: the certificate, the definitions where the subscription is enabled, and
     * the fence last. Stopped or refused, the key has come into effect, not at all, or by half.
     */
    method Finish(record0: Record, installed: Option<Package>, key: Option<Key>, rpmTrust: bool) returns (out: Outcome)
      requires Safe(disk) && disk.fence.Some? && disk.files == map[] && disk.registration == Some(record0)
      modifies `disk, `budget, `answers
      ensures Safe(disk) && AsRegistered(disk)
      ensures installed.None? || !Fits(record0, installed.value) ==> out == Refused && disk == old(disk)
      ensures installed.Some? ==> Keyed(GoalOf(old(disk), installed.value), GoalOf(disk, installed.value), key, installed.value)
      ensures installed.Some? ==> Registration(disk).target in {record0.target, Some(installed.value.target)}
      ensures out.Done? ==> installed.Some? && disk.fence.None? && Completed(old(disk), disk, key, installed.value)
      ensures out.Done? ==> Kept(old(disk), disk, key, installed.value, rpmTrust)
      ensures installed.Some? && Fits(record0, installed.value) && Merged(GoalOf(old(disk), installed.value), key, installed.value).Some? ==>
        (old(budget) >= 11 && old(answers) == [] ==> out.Done?)
      ensures installed.Some? && Fits(record0, installed.value) && Merged(GoalOf(old(disk), installed.value), key, installed.value).Some? ==>
        (old(budget) >= 11 && installed.value.manager == Apt && Busy(old(answers)) ==>
          out.Refused? && GoalOf(disk, installed.value) == HalfKeyed(GoalOf(old(disk), installed.value), key, installed.value))
    {
      hide *;
      EmptyAgrees(disk);
      RegistrationIs(disk);
      if installed.None? {
        return Refused;
      }
      var package := installed.value;
      KeyedAtOnce(GoalOf(disk, package), key, package);
      FitsExactly(record0, package);
      if record0.target.Some? && record0.target.value != package.target {
        return Refused;
      }
      ghost var before := disk;
      var record;
      out, record := InstallKey(record0, package, key);
      EmptyAgrees(disk);
      RegistrationIs(disk);
      InstalledGoal(before, disk, key, package);
      AskedTwice(old(answers));
      if out != Done {
        return;
      }
      ghost var keyed := disk;
      out := Settle(record, package, rpmTrust);
      SettledGoal(before, keyed, disk, record, out, key, package);
      if out == Done {
        SettledKeeps(before, keyed, disk, record, key, package, rpmTrust);
      }
    }

    /** Choose the key to install, the package's own unless another primary is on record, and install it. */
    method InstallKey(record0: Record, package: Package, key: Option<Key>) returns (out: Outcome, record: Record)
      requires Safe(disk) && disk.files == map[] && disk.registration == Some(record0)
      modifies `disk, `budget, `answers
      ensures Safe(disk) && disk == old(disk).(certificate := disk.certificate, retired := disk.retired, config := disk.config)
      ensures disk.certificate == old(disk).certificate ||
              (disk.certificate.Some? && disk.certificate == Merged(GoalOf(old(disk), package), key, package))
      ensures out.Done? ==>
        && disk.certificate == Merged(GoalOf(old(disk), package), key, package) && disk.certificate.Some?
        && record == record0.(target := Some(package.target), manager := Some(package.manager), url := Some(package.url),
                              primary := Some(KeyFor(GoalOf(old(disk), package), key, package).1), certificate := disk.certificate)
        && disk.config == record.primary && disk.retired == old(disk).retired + Replaced(old(disk).certificate, record.primary.value)
      ensures disk.certificate != old(disk).certificate ==>
        Replaced(old(disk).certificate, KeyFor(GoalOf(old(disk), package), key, package).1) <= disk.retired
      ensures Merged(GoalOf(old(disk), package), key, package).Some? && old(budget) >= 3 && !Yes(old(answers)) ==>
        out.Done? && budget >= old(budget) - 3 && answers == Rest(old(answers))
    {
      hide Safe, AsRegistered;
      record := record0.(target := Some(package.target), manager := Some(package.manager), url := Some(package.url));
      var candidate, fingerprint;
      if key.Some? {
        candidate, fingerprint := key.value.0, key.value.1;
      } else {
        candidate, fingerprint := Some(package.key), package.key.primary;
        if record.primary.Some? && record.primary.value != fingerprint {
          candidate, fingerprint := disk.certificate, record.primary.value;
        }
      }
      assert (candidate, fingerprint) == KeyFor(GoalOf(disk, package), key, package);
      out, record := UpdateCertificate(record, candidate, fingerprint);
    }

    /** The native managers, the definitions and the fence, under the certificate just installed. */
    method Settle(record0: Record, package: Package, rpmTrust: bool) returns (out: Outcome)
      requires Safe(disk) && disk.fence.Some? && disk.files == map[] && disk.registration.Some? && record0.files == Registration(disk).files
      requires disk.certificate.Some? && record0.certificate == disk.certificate && record0.enabled == Registration(disk).enabled
      modifies `disk, `budget, `answers
      ensures Safe(disk) && disk.certificate == old(disk).certificate && AsRegistered(disk) && Registration(disk).enabled == record0.enabled
      ensures Registration(disk).primary in {Registration(old(disk)).primary, record0.primary}
      ensures Registration(disk).target in {Registration(old(disk)).target, record0.target}
      ensures out.Done? ==>
        && disk.fence.None? && Registration(disk).primary == record0.primary
        && disk.files == Definitions(record0.enabled, package, disk.certificate.value)
        && disk.registration == Some(record0.(
             files := record0.files + disk.files, rpmCertificate := if Tells(record0.manager, rpmTrust) then record0.certificate else record0.rpmCertificate))
        && LeftPending(old(disk).pendingKey, disk.pendingKey, record0, rpmTrust)
      ensures disk.config == old(disk).config && disk.retired == old(disk).retired && disk.saved == old(disk).saved
      ensures !Yes(old(answers)) && old(budget) >= 8 ==> out.Done?
      ensures record0.manager == Some(Apt) && Yes(old(answers)) ==> out.Refused? && disk == old(disk)
    {
      hide Safe, AsRegistered, Definitions;
      EmptyAgrees(disk);
      var record;
      out, record := Trust(record0, rpmTrust);
      EmptyAgrees(disk);
      if out != Done {
        return;
      }
      DisabledDefinesNothing(package, disk.certificate.value);
      if record.enabled {
        out, record := Publish(record, package);
        if out != Done {
          return;
        }
      }
      assert record0.files + map[] == record0.files;
      RerecordedAgrees(disk, record);
      out := Reopen(record);
    }

    // The administrator's and the package's actions

    method PackageBegin() returns (out: Outcome)
      requires Safe(disk)
      modifies `disk, `budget
      ensures Safe(disk)
      ensures AsRegistered(old(disk)) || out.Done? ==> Aim(disk) == Aim(old(disk)) && AsRegistered(disk)
      ensures out.Done? ==> disk.fence.Some? && disk.files == map[]
      ensures Registration(disk).target == Registration(old(disk)).target
      ensures out.Done? ==> Likewise(Begun(old(disk), Registration(old(disk)).enabled && AsRegistered(old(disk))), disk)
      ensures match out
              case Done => Removable(old(disk))
              case Refused => !Removable(old(disk))
              case Stopped => old(budget) < 7
    {
      hide Safe, AsRegistered, Aim, KeysAlike;
      var record;
      out, record := Begin(false);
    }

    /** Safe wherever it stops, and always on the way to the same subscription, which it leaves when it completes. */
    method PackageFinish(installed: Option<Package>) returns (out: Outcome)
      requires Safe(disk)
      modifies `disk, `budget, `answers
      ensures Safe(disk)
      ensures installed.Some? && AsRegistered(old(disk)) ==> Target(disk, installed.value) == Target(old(disk), installed.value)
      ensures out.Done? ==>
        && installed.Some? && disk.fence.None? && disk.certificate.Some?
        && Some(Subscribed(disk.certificate.value, disk.files)) == Target(old(disk), installed.value)
      ensures AsRegistered(old(disk)) ==> Took(old(disk), disk, Action.PackageFinish, out, installed)
      ensures installed.Some? && Removable(old(disk)) && Fits(Registration(old(disk)), installed.value) ==>
        (Target(old(disk), installed.value).Some? && old(answers) == [] && old(budget) >= 18 ==> out.Done?)
      ensures out.Done? ==> Removable(old(disk)) && Kept(Begun(old(disk), GoalOf(old(disk), installed.value).enabled), disk, None, installed.value, false)
    {
      hide KeptAside, Fewer, Removable, Kept, Begun, Likewise, Safe, AsRegistered, Aim, GoalOf, Target, Merged, Keyed, HalfKeyed, Rekeyed, Completed, Took, Fits, Busy, Definitions, KeysAlike;
      var record;
      ghost var before := disk;
      out, record := Begin(false);
      BegunLikewise(before, disk, Action.PackageFinish, out, installed);
      if out != Done {
        return;
      }
      FitsByTarget(record, Registration(before));
      ghost var begun := disk;
      out := Finish(record, installed, None, false);
      if installed.Some? {
        FinishedAlike(begun, disk, out, installed.value);
      }
      FinishTook(before, begun, disk, Action.PackageFinish, out, installed);
      if out == Done {
        GoalParts(before, installed.value);
        KeptLikewise(Begun(before, record.enabled), begun, disk, None, installed.value, false);
      }
    }

    /** Subscribe, under an explicit key or the one on record. */
    method Enable(installed: Option<Package>, key: Option<Key>) returns (out: Outcome)
      requires Safe(disk)
      modifies `disk, `budget, `answers
      ensures Safe(disk)
      ensures out.Done? ==>
        && installed.Some? && disk.fence.None? && disk.certificate.Some? && Registration(disk).enabled
        && disk.files == Definitions(true, installed.value, disk.certificate.value)
        && disk.certificate == Merged(GoalOf(old(disk), installed.value), key, installed.value)
      ensures AsRegistered(old(disk)) ==> Took(old(disk), disk, Action.Enable(key), out, installed)
      ensures out.Done? ==> Removable(old(disk)) && Kept(Begun(old(disk), true), disk, key, installed.value, true)
      ensures installed.Some? && Removable(old(disk)) && Fits(Registration(old(disk)), installed.value) ==>
        (Merged(GoalOf(old(disk), installed.value), key, installed.value).Some? && old(answers) == [] && old(budget) >= 19 ==> out.Done?)
    {
      hide KeptAside, Fewer, Removable, Kept, Begun, Likewise, Safe, AsRegistered, Aim, GoalOf, Target, Merged, Keyed, HalfKeyed, Rekeyed, Completed, Took, Fits, Busy, Definitions, KeysAlike;
      var record;
      ghost var before := disk;
      out, record := Begin(false);
      BegunLikewise(before, disk, Action.Enable(key), out, installed);
      if out != Done {
        return;
      }
      ghost var begun := disk;
      record := record.(enabled := true);
      EmptyIsSafe(disk.(registration := Some(record)));
      var done := Change(disk.(registration := Some(record)));
      EnabledLikewise(before, begun, disk, record, done, key, installed);
      if installed.Some? {
        MergedAlike(GoalOf(before, installed.value), GoalOf(disk, installed.value), key, installed.value);
        FitsStill(before, disk, installed.value);
      }
      if !done {
        return Stopped;
      }
      ghost var enabled := disk;
      out := Finish(record, installed, key, true);
      FinishTook(before, enabled, disk, Action.Enable(key), out, installed);
      if out == Done {
        EnabledBegun(before, begun, record);
        KeptLikewise(Begun(before, true), enabled, disk, key, installed.value, true);
      }
    }

    /** Replace or renew the key. Asked for while apt holds its lists, the key is half changed. */
    method RefreshKey(installed: Option<Package>, key: Key) returns (out: Outcome)
      requires Safe(disk)
      modifies `disk, `budget, `answers
      ensures Safe(disk)
      ensures out.Done? ==>
        && installed.Some? && disk.fence.None? && disk.certificate.Some?
        && disk.certificate == Merged(GoalOf(old(disk), installed.value), Some(key), installed.value)
        && disk.files == Definitions(Registration(old(disk)).enabled && AsRegistered(old(disk)), installed.value, disk.certificate.value)
      ensures AsRegistered(old(disk)) ==> Took(old(disk), disk, Action.RefreshKey(key), out, installed)
      ensures out.Done? ==> Removable(old(disk)) && Kept(Begun(old(disk), GoalOf(old(disk), installed.value).enabled), disk, Some(key), installed.value, true)
      ensures installed.Some? && Removable(old(disk)) && Fits(Registration(old(disk)), installed.value) ==>
        (Merged(GoalOf(old(disk), installed.value), Some(key), installed.value).Some? && old(answers) == [] && old(budget) >= 18 ==> out.Done?)
      ensures installed.Some? && AsRegistered(old(disk)) && Fits(Registration(old(disk)), installed.value) ==>
        (Merged(GoalOf(old(disk), installed.value), Some(key), installed.value).Some? && old(budget) >= 18
         && installed.value.manager == Apt && Busy(old(answers)) ==>
          out.Refused? && GoalOf(disk, installed.value) == HalfKeyed(GoalOf(old(disk), installed.value), Some(key), installed.value))
    {
      hide KeptAside, Fewer, Removable, Kept, Begun, Likewise, Safe, AsRegistered, Aim, GoalOf, Target, Merged, Keyed, HalfKeyed, Rekeyed, Completed, Took, Fits, Busy, Definitions, KeysAlike;
      var record;
      ghost var before := disk;
      if AsRegistered(before) {
        RegisteredMayGo(before);
      }
      out, record := Begin(false);
      BegunLikewise(before, disk, Action.RefreshKey(key), out, installed);
      if out != Done {
        return;
      }
      FitsByTarget(record, Registration(before));
      ghost var begun := disk;
      out := Finish(record, installed, Some(key), true);
      FinishTook(before, begun, disk, Action.RefreshKey(key), out, installed);
      if installed.Some? {
        GoalParts(before, installed.value);
      }
      if out == Done {
        KeptLikewise(Begun(before, record.enabled), begun, disk, Some(key), installed.value, true);
      }
    }

    /** Disable the subscription, also before the package is removed. */
    method Disable() returns (out: Outcome)
      requires Safe(disk)
      modifies `disk, `budget
      ensures Safe(disk)
      ensures out.Done? ==> disk.fence.None? && disk.files == map[] && !Registration(disk).enabled && disk.pendingKey.None?
      ensures AsRegistered(old(disk)) ==> forall installed :: Took(old(disk), disk, Remove, out, installed)
      ensures out.Done? ==> Removable(old(disk)) && Likewise(Begun(old(disk), false).(pendingKey := None), disk)
      ensures Removable(old(disk)) && old(budget) >= 9 ==> out.Done?
    {
      hide KeptAside, Fewer, Removable, Safe, AsRegistered, Aim;
      var record;
      ghost var before := disk;
      out, record := Begin(true);
      if AsRegistered(before) || out.Done? {
        RemovedTook(before, disk, disk, out);
      }
      if out != Done {
        return;
      }
      ghost var begun := disk;
      RemovedTook(before, begun, begun.(fence := None), Done);
      RemovedTook(before, begun, begun.(fence := None, pendingKey := None), Done);
      EmptyIsSafe(disk.(fence := None));
      var done := Change(disk.(fence := None));
      if !done {
        return Stopped;
      }
      EmptyIsSafe(disk.(pendingKey := None));
      done := Change(disk.(pendingKey := None));
      out := if done then Done else Stopped;
    }

    /** Import the pending key at the native transaction's end; no definition changes. */
    method SyncNativeKey(installed: Option<Package>) returns (out: Outcome)
      requires Safe(disk)
      modifies `disk, `budget, `answers
      ensures Safe(disk) && disk.files == old(disk).files && disk.fence == old(disk).fence && Registration(disk).enabled == Registration(old(disk)).enabled
      ensures out.Done? ==> old(disk).fence.None? && old(disk).pendingKey.Some? && old(disk).pendingKey == old(disk).certificate
                            && disk.pendingKey.None? && Registration(disk).rpmCertificate == old(disk).pendingKey
      ensures disk == old(disk).(registration := disk.registration, pendingKey := disk.pendingKey)
      ensures disk.registration == old(disk).registration
              || (old(disk).registration.Some? && disk.registration == Some(Registration(old(disk)).(rpmCertificate := old(disk).pendingKey)))
      ensures disk.pendingKey != old(disk).pendingKey ==> Registration(disk).rpmCertificate == old(disk).pendingKey
      ensures Syncable(old(disk)) && installed.Some? && !Yes(old(answers)) && old(budget) >= 2 ==> out.Done?
      ensures !Syncable(old(disk)) || installed.None? || Yes(old(answers)) ==> out == Refused && disk == old(disk)
    {
      hide Safe;
      var record := Registration(disk);
      if disk.fence.Some? || disk.pendingKey.None? || installed.None? || disk.registration.None? {
        return Refused;
      }
      if record.manager != Some(Zypp) || disk.pendingKey != record.certificate || disk.certificate != record.certificate {
        return Refused;
      }
      var failed := Ask();
      if failed {
        return Refused;
      }
      record := record.(rpmCertificate := record.certificate);
      RekeyedIsSafe(disk, record);
      var done := Change(disk.(registration := Some(record)));
      if !done {
        return Stopped;
      }
      UnpendedIsSafe(disk);
      done := Change(disk.(pendingKey := None));
      out := if done then Done else Stopped;
    }

    /** Somebody changes a definition, deletes none. */
    method Edit(p: Path, text: string)
      requires Safe(disk)
      modifies `disk
      ensures Safe(disk) && disk.files.Keys == old(disk).files.Keys
      ensures disk == if p in old(disk).files then Edited(old(disk), p, text) else old(disk)
    {
      if p in disk.files {
        EditedIsSafe(disk, p, text);
        disk := Edited(disk, p, text);
      }
    }

    /** One attempt at an action, which may be stopped, refused or complete. */
    method Try(attempt: Attempt, package: Package) returns (out: Outcome)
      requires Safe(disk) && AsRegistered(disk)
      modifies `disk, `budget, `answers
      ensures Safe(disk) && AsRegistered(disk) && TookFor(old(disk), disk, attempt.action, out, package)
      ensures (&& attempt.intact && attempt.answers == [] && attempt.budget >= 19 && Fits(Registration(old(disk)), package)
               && Possible(GoalOf(old(disk), package), attempt.action, package)) ==> out.Done?
    {
      hide *;
      ghost var before := disk;
      RegisteredMayGo(disk);
      PossibleIs(GoalOf(disk, package), attempt.action, package);
      TargetIsLeft(disk, package);
      budget, answers := attempt.budget, attempt.answers;
      var installed := if attempt.intact then Some(package) else None;
      match attempt.action {
        case PackageBegin =>
          out := PackageBegin();
          BegunTook(before, disk, out, installed);
        case PackageFinish =>
          out := PackageFinish(installed);
        case Enable(key) =>
          out := Enable(installed, key);
        case RefreshKey(key) =>
          out := RefreshKey(installed, key);
        case Remove =>
          out := Disable();
      }
      TookThis(before, disk, attempt.action, out, installed, package);
    }

    /**
     * After any attempts, however they ended, one package-finish that completes leaves what the effects
     * that were taken lead to: of every attempt a first few, of a completed one all. Only an attempt
     * that was to change the primary and did not complete is not covered.
     */
    method Recover(package: Package, attempts: seq<Attempt>, last: nat)
        returns (out: Outcome, outs: seq<Outcome>, ghost went: seq<seq<Effect>>)
      requires Safe(disk) && AsRegistered(disk)
      modifies `disk, `budget, `answers
      ensures Safe(disk) && Went(attempts, outs, went)
      ensures out.Done? ==> disk.fence.None? && disk.certificate.Some?
      ensures out.Done? && NeverHalfKeyed(GoalOf(old(disk), package), attempts, outs, went, package) ==>
        Some(Subscribed(disk.certificate.value, disk.files)) == Left(After(GoalOf(old(disk), package), Flat(went), package), package)
      ensures NeverHalfKeyed(GoalOf(old(disk), package), attempts, outs, went, package) && Fits(Registration(old(disk)), package) ==>
        (Left(After(GoalOf(old(disk), package), Flat(went), package), package).Some? && last >= 18 ==> out.Done?)
    {
      hide *;
      ghost var start := disk;
      outs, went := [], [];
      WentNothing(attempts, disk, package);
      for i := 0 to |attempts|
        invariant Safe(disk) && AsRegistered(disk)
        invariant Went(attempts[..i], outs, went)
        invariant NeverHalfKeyed(GoalOf(start, package), attempts[..i], outs, went, package) ==>
          GoalOf(disk, package) == After(GoalOf(start, package), Flat(went), package)
        invariant Registration(disk).target in {Registration(start).target, Some(package.target)}
      {
        ghost var before := disk;
        var ended := Try(attempts[i], package);
        ghost var taken := WentFurther(start, before, disk, attempts, i, outs, went, ended, package);
        outs, went := outs + [ended], went + [taken];
      }
      assert attempts[..|attempts|] == attempts;
      FitsStill(start, disk, package);
      TargetIsLeft(disk, package);
      RegisteredMayGo(disk);
      budget, answers := last, [];
      out := PackageFinish(Some(package));
    }

    /**
     * A change to another primary that is refused while apt holds its lists is half made; where the
     * primary on record is not the package's, every package-finish from then on refuses the key.
     */
    method KeyChangeWhileBusy(package: Package, key: Key, last: nat) returns (first: Outcome, second: Outcome)
      requires Safe(disk) && AsRegistered(disk) && Fits(Registration(disk), package) && package.manager == Apt
      requires Busy(answers) && budget >= 18
      requires Merged(GoalOf(disk, package), Some(key), package).Some?
      requires OnRecord(disk, package) != key.1 && OnRecord(disk, package) != package.key.primary
      modifies `disk, `budget, `answers
      ensures first.Refused? && !second.Done? && Target(disk, package) == None
      ensures Safe(disk) && AsRegistered(disk)
    {
      hide *;
      ghost var goal := GoalOf(disk, package);
      GoalParts(disk, package);
      first := RefreshKey(Some(package), key);
      TookThis(old(disk), disk, Action.RefreshKey(key), first, Some(package), package);
      HalfChanged(goal, Some(key), package);
      TargetIsLeft(disk, package);
      ghost var changed := disk;
      budget := last;
      second := PackageFinish(Some(package));
      TookThis(changed, disk, Action.PackageFinish, second, Some(package), package);
    }
  }

  // What an attempt does to the goal

  /** `intact` when the package's own files are complete. */
  datatype Attempt = Attempt(action: Action, intact: bool, budget: nat, answers: seq<bool>)

  /** The key the action brings, or the one on record, is not refused. */
  predicate Possible(goal: Goal, action: Action, package: Package) {
    action.PackageBegin? || action.Remove? || Merged(goal, KeyOf(action), package).Some?
  }

  lemma PossibleIs(goal: Goal, action: Action, package: Package)
    ensures match action
            case PackageFinish => Possible(goal, action, package) <==> Left(goal, package).Some?
            case Enable(key) => Possible(goal, action, package) <==> Merged(goal, key, package).Some?
            case RefreshKey(key) => Possible(goal, action, package) <==> Merged(goal, Some(key), package).Some?
            case _ => true
  {
  }

  function Flat(went: seq<seq<Effect>>): seq<Effect> {
    if went == [] then [] else Flat(went[..|went| - 1]) + went[|went| - 1]
  }

  /** Of every attempt a first few of its effects were taken, of a completed one all. */
  ghost predicate Went(attempts: seq<Attempt>, outs: seq<Outcome>, went: seq<seq<Effect>>) {
    && |outs| == |attempts| == |went|
    && forall i :: 0 <= i < |attempts| ==>
         went[i] <= Effects(attempts[i].action) && (outs[i].Done? ==> went[i] == Effects(attempts[i].action))
  }

  /** Every attempt that did not complete brought no key but one of the primary on record when it began. */
  ghost predicate NeverHalfKeyed(goal: Goal, attempts: seq<Attempt>, outs: seq<Outcome>, went: seq<seq<Effect>>, package: Package)
  {
    |outs| == |attempts| == |went| && forall i :: 0 <= i < |attempts| ==> outs[i].Done? || KeepsPrimary(After(goal, Flat(went[..i]), package), attempts[i].action)
  }

  lemma AfterNone(goal: Goal, package: Package)
    ensures After(goal, [], package) == goal
  {
  }

  lemma AfterOne(goal: Goal, effect: Effect, package: Package)
    ensures After(goal, [effect], package) == With(goal, effect, package)
  {
    assert [effect][..0] == [];
  }

  lemma {:induction false} AfterBoth(goal: Goal, first: seq<Effect>, second: seq<Effect>, package: Package)
    ensures After(goal, first + second, package) == After(After(goal, first, package), second, package)
  {
    if second == [] {
      assert first + second == first;
    } else {
      var n := |second| - 1;
      assert (first + second)[..|first + second| - 1] == first + second[..n];
      AfterBoth(goal, first, second[..n], package);
    }
  }

  lemma AfterTwo(goal: Goal, first: Effect, second: Effect, package: Package)
    ensures After(goal, [first, second], package) == With(With(goal, first, package), second, package)
  {
    assert [first, second] == [first] + [second];
    AfterBoth(goal, [first], [second], package);
    AfterOne(goal, first, package);
    AfterOne(With(goal, first, package), second, package);
  }

  /** An action that keeps the primary on record is never half done: it leaves a first few of its whole effects. */
  lemma PartlyIsAPrefix(goal: Goal, goal': Goal, action: Action, package: Package) returns (taken: seq<Effect>)
    requires Partly(goal, goal', action, package)
    ensures taken <= Effects(action)
    ensures KeepsPrimary(goal, action) ==> goal' == After(goal, taken, package)
  {
    AfterNone(goal, package);
    AfterWhole(goal, action, package);
    taken := [];
    if goal' == goal {
      return;
    }
    if action.Enable? && goal' == goal.(enabled := true) {
      AfterOne(goal, Enabling, package);
      return [Enabling];
    }
    taken := Effects(action);
  }

  function Wholly(goal: Goal, action: Action, package: Package): Goal {
    match action
    case PackageBegin => goal
    case PackageFinish => Rekeyed(goal, None, package)
    case Enable(key) => Rekeyed(goal.(enabled := true), key, package)
    case RefreshKey(key) => Rekeyed(goal, Some(key), package)
    case Remove => goal.(enabled := false)
  }

  lemma AfterWhole(goal: Goal, action: Action, package: Package)
    ensures After(goal, Effects(action), package) == Wholly(goal, action, package)
  {
    match action
    case PackageBegin => AfterNone(goal, package);
    case PackageFinish => AfterOne(goal, Keying(None), package);
    case Enable(key) => AfterTwo(goal, Enabling, Keying(key), package);
    case RefreshKey(key) => AfterOne(goal, Keying(Some(key)), package);
    case Remove => AfterOne(goal, Disabling, package);
  }

  lemma WentNothing(attempts: seq<Attempt>, d: Disk, package: Package)
    ensures Went(attempts[..0], [], []) && GoalOf(d, package) == After(GoalOf(d, package), Flat([]), package)
  {
  }

  lemma WentLonger(attempts: seq<Attempt>, i: nat, outs: seq<Outcome>, went: seq<seq<Effect>>, ended: Outcome, taken: seq<Effect>)
    requires i < |attempts| && Went(attempts[..i], outs, went)
    requires taken <= Effects(attempts[i].action) && (ended.Done? ==> taken == Effects(attempts[i].action))
    ensures Went(attempts[..i + 1], outs + [ended], went + [taken])
  {
    assert attempts[..i + 1] == attempts[..i] + [attempts[i]];
  }

  lemma NeverSoFar(goal: Goal, attempts: seq<Attempt>, i: nat, outs: seq<Outcome>, went: seq<seq<Effect>>, ended: Outcome, taken: seq<Effect>, package: Package)
    requires i < |attempts| && |outs| == |went| == i
    requires NeverHalfKeyed(goal, attempts[..i + 1], outs + [ended], went + [taken], package)
    ensures NeverHalfKeyed(goal, attempts[..i], outs, went, package)
    ensures ended.Done? || KeepsPrimary(After(goal, Flat(went), package), attempts[i].action)
  {
    hide After, KeepsPrimary, Flat;
    var outs', went' := outs + [ended], went + [taken];
    forall k | 0 <= k <= i
      ensures outs'[k].Done? || KeepsPrimary(After(goal, Flat(went[..k]), package), attempts[k].action)
    {
      assert went'[..k] == went[..k] && attempts[..i + 1][k] == attempts[k];
      assert outs'[k].Done? || KeepsPrimary(After(goal, Flat(went'[..k]), package), attempts[..i + 1][k].action);
    }
    assert went[..i] == went && outs'[i] == ended;
    assert forall k :: 0 <= k < i ==> outs'[k] == outs[k] && attempts[..i][k] == attempts[k];
  }

  lemma WentFurther(start: Disk, before: Disk, d: Disk, attempts: seq<Attempt>, i: nat, outs: seq<Outcome>, went: seq<seq<Effect>>, ended: Outcome, package: Package)
      returns (taken: seq<Effect>)
    requires i < |attempts| && Went(attempts[..i], outs, went) && TookFor(before, d, attempts[i].action, ended, package)
    requires NeverHalfKeyed(GoalOf(start, package), attempts[..i], outs, went, package) ==>
      GoalOf(before, package) == After(GoalOf(start, package), Flat(went), package)
    requires Registration(before).target in {Registration(start).target, Some(package.target)}
    ensures Registration(d).target in {Registration(start).target, Some(package.target)}
    ensures Went(attempts[..i + 1], outs + [ended], went + [taken])
    ensures NeverHalfKeyed(GoalOf(start, package), attempts[..i + 1], outs + [ended], went + [taken], package) ==>
      GoalOf(d, package) == After(GoalOf(start, package), Flat(went + [taken]), package)
  {
    hide GoalOf, After, Effects, Partly, KeepsPrimary, Registration, NeverHalfKeyed;
    var goal, action := GoalOf(start, package), attempts[i].action;
    taken := PartlyIsAPrefix(GoalOf(before, package), GoalOf(d, package), action, package);
    if ended.Done? {
      taken := Effects(action);
    }
    WentLonger(attempts, i, outs, went, ended, taken);
    if NeverHalfKeyed(goal, attempts[..i + 1], outs + [ended], went + [taken], package) {
      NeverSoFar(goal, attempts, i, outs, went, ended, taken, package);
      assert (went + [taken])[..i] == went;
      AfterBoth(goal, Flat(went), taken, package);
    }
  }

  lemma FitsStill(start: Disk, d: Disk, package: Package)
    requires Registration(d).target in {Registration(start).target, Some(package.target)}
    ensures Fits(Registration(start), package) ==> Fits(Registration(d), package)
  {
  }

  lemma FitsByTarget(record: Record, record': Record)
    requires record.target == record'.target
    ensures forall package: Package :: Fits(record, package) <==> Fits(record', package)
  {
  }

  lemma TargetIsLeft(d: Disk, package: Package)
    ensures Target(d, package) == Left(GoalOf(d, package), package)
  {
  }

  lemma GoalParts(d: Disk, package: Package)
    ensures GoalOf(d, package).primary == OnRecord(d, package)
    ensures GoalOf(d, package).enabled == (Registration(d).enabled && AsRegistered(d))
  {
  }

  lemma TookThis(d: Disk, d': Disk, action: Action, out: Outcome, installed: Option<Package>, package: Package)
    requires Took(d, d', action, out, installed) && (installed.None? || installed.value == package)
    ensures AsRegistered(d') && TookFor(d, d', action, out, package)
  {
  }

  lemma BegunTook(d: Disk, d': Disk, out: Outcome, installed: Option<Package>)
    requires Aim(d') == Aim(d) && AsRegistered(d') && Registration(d').target == Registration(d).target
    ensures Took(d, d', PackageBegin, out, installed)
  {
    forall p: Package ensures TookFor(d, d', PackageBegin, out, p) {
      AimDecidesGoal(d, d', p);
      AfterNone(GoalOf(d, p), p);
    }
  }

  lemma BegunLikewise(before: Disk, d: Disk, action: Action, out: Outcome, installed: Option<Package>)
    requires AsRegistered(before) || out.Done? ==> Aim(d) == Aim(before)
    requires AsRegistered(before) ==> AsRegistered(d)
    requires Registration(d).target == Registration(before).target
    ensures AsRegistered(before) && !out.Done? ==> Took(before, d, action, out, installed)
    ensures AsRegistered(before) || out.Done? ==> forall p: Package :: GoalOf(d, p) == GoalOf(before, p)
    ensures installed.Some? && (AsRegistered(before) || out.Done?) ==> Target(d, installed.value) == Target(before, installed.value)
    ensures installed.Some? && Target(d, installed.value).Some? ==> Merged(GoalOf(d, installed.value), None, installed.value).Some?
  {
    if AsRegistered(before) || out.Done? {
      forall p: Package ensures GoalOf(d, p) == GoalOf(before, p) {
        AimDecidesGoal(before, d, p);
      }
    }
  }

  lemma RemovedTook(before: Disk, begun: Disk, d: Disk, out: Outcome)
    requires AsRegistered(begun) && d == begun.(fence := d.fence, pendingKey := d.pendingKey)
    requires Aim(begun) in {Aim(before), Aim(before).(0 := false)} && (out.Done? ==> Aim(begun) == Aim(before).(0 := false))
    requires Registration(begun).target == Registration(before).target
    ensures forall installed :: Took(before, d, Remove, out, installed)
    ensures forall installed :: Took(before, d, Remove, Stopped, installed)
  {
    assert AsRegistered(d) && Aim(d) == Aim(begun);
    forall p: Package ensures TookFor(before, d, Remove, out, p) && TookFor(before, d, Remove, Stopped, p) {
      AfterWhole(GoalOf(before, p), Remove, p);
    }
  }

  lemma EnabledLikewise(before: Disk, begun: Disk, d: Disk, record: Record, done: bool, key: Option<Key>, installed: Option<Package>)
    requires forall p: Package :: GoalOf(begun, p) == GoalOf(before, p)
    requires begun.files == map[] && d == (if done then begun.(registration := Some(record)) else begun)
    requires begun.registration.Some? && record == Registration(begun).(enabled := true) && Registration(begun).target == Registration(before).target
    ensures done ==> forall p: Package :: GoalOf(d, p) == GoalOf(before, p).(enabled := true)
    ensures !done ==> Took(before, d, Action.Enable(key), Stopped, installed)
    ensures Registration(d).target == Registration(before).target && d.registration.Some? && (done ==> Registration(d) == record)
  {
    if done {
      forall p: Package ensures GoalOf(d, p) == GoalOf(before, p).(enabled := true) {
        assert GoalOf(begun, p) == GoalOf(before, p);
      }
    } else {
      assert AsRegistered(d);
      forall p: Package ensures TookFor(before, d, Action.Enable(key), Stopped, p) {
        assert GoalOf(begun, p) == GoalOf(before, p);
      }
    }
  }

  lemma RekeyedIsSafe(d: Disk, record: Record)
    requires Safe(d) && record.files == Registration(d).files && record.enabled == Registration(d).enabled
    ensures Safe(d.(registration := Some(record)))
  {
    assert forall q :: Ours(d.(registration := Some(record)), q) <==> Ours(d, q);
  }

  lemma UnpendedIsSafe(d: Disk)
    requires Safe(d)
    ensures Safe(d.(pendingKey := None))
  {
    assert forall q :: Ours(d.(pendingKey := None), q) <==> Ours(d, q);
  }

  function Edited(d: Disk, p: Path, text: string): Disk {
    d.(files := d.files[p := Foreign(text)], edited := d.edited + {p})
  }

  lemma EditedIsSafe(d: Disk, p: Path, text: string)
    requires Safe(d) && p in d.files
    ensures Safe(Edited(d, p, text))
  {
    assert forall q :: Ours(Edited(d, p, text), q) <==> Ours(d, q);
  }

  lemma FitsExactly(record: Record, package: Package)
    ensures Fits(record, package) <==> (record.target.Some? ==> record.target.value == package.target)
  {
  }

  lemma AskedTwice(answers: seq<bool>)
    ensures Busy(answers) ==> !Yes(answers) && Yes(Rest(answers))
    ensures answers == [] ==> !Yes(answers) && !Yes(Rest(answers))
  {
  }

  lemma RegistrationIs(d: Disk)
    ensures d.registration.Some? ==> Registration(d) == d.registration.value
  {
  }

  lemma EmptyAgrees(d: Disk)
    requires d.files == map[]
    ensures AsRegistered(d)
  {
  }

  lemma RerecordedIsSafe(d: Disk, record: Record)
    requires Safe(d) && d.fence.Some? && record.files == Registration(d).files
    ensures Safe(d.(registration := Some(record)))
  {
    assert forall q :: Ours(d.(registration := Some(record)), q) <==> Ours(d, q);
  }

  lemma ReopenedIsSafe(d: Disk)
    requires Safe(d) && forall m :: Ours(d, Source(m)) ==> Registration(d).enabled
    ensures Safe(d.(fence := None))
  {
    assert forall q :: Ours(d.(fence := None), q) <==> Ours(d, q);
  }

  lemma KeyedAtOnce(goal: Goal, key: Option<Key>, package: Package)
    ensures Keyed(goal, goal, key, package)
  {
  }

  lemma InstalledGoal(before: Disk, d: Disk, key: Option<Key>, package: Package)
    requires d == before.(certificate := d.certificate, retired := d.retired, config := d.config)
    requires d.certificate == before.certificate || (d.certificate.Some? && d.certificate == Merged(GoalOf(before, package), key, package))
    ensures Keyed(GoalOf(before, package), GoalOf(d, package), key, package)
    ensures d.certificate.Some? && d.certificate == Merged(GoalOf(before, package), key, package) ==>
      GoalOf(d, package) == HalfKeyed(GoalOf(before, package), key, package)
  {
    assert AsRegistered(d) == AsRegistered(before);
  }

  lemma SettledGoal(before: Disk, installed: Disk, d: Disk, record: Record, out: Outcome, key: Option<Key>, package: Package)
    requires AsRegistered(before) && AsRegistered(installed) && AsRegistered(d)
    requires Registration(installed) == Registration(before) && Registration(d).enabled == Registration(before).enabled
    requires d.certificate == installed.certificate == Merged(GoalOf(before, package), key, package) && d.certificate.Some?
    requires record.primary == Some(KeyFor(GoalOf(before, package), key, package).1)
    requires Registration(d).primary in {Registration(installed).primary, record.primary} && (out.Done? ==> Registration(d).primary == record.primary)
    requires out.Done? ==> d.files == Definitions(Registration(before).enabled, package, d.certificate.value)
    ensures Keyed(GoalOf(before, package), GoalOf(d, package), key, package)
    ensures out.Done? ==> Completed(before, d, key, package)
  {
    hide Merged, KeyFor, Definitions, AsRegistered;
  }

  lemma SettledKeeps(before: Disk, installed: Disk, d: Disk, record: Record, key: Option<Key>, package: Package, rpmTrust: bool)
    requires before.registration.Some? && installed.pendingKey == before.pendingKey && installed.saved == before.saved
    requires d.config == installed.config && d.retired == installed.retired && d.saved == installed.saved && d.certificate == installed.certificate
    requires record == before.registration.value.(target := Some(package.target), manager := Some(package.manager), url := Some(package.url),
               primary := Some(KeyFor(GoalOf(before, package), key, package).1), certificate := installed.certificate)
    requires installed.config == record.primary && installed.retired == before.retired + Replaced(before.certificate, record.primary.value)
    requires d.registration == Some(record.(
               files := record.files + d.files, rpmCertificate := if Tells(record.manager, rpmTrust) then record.certificate else record.rpmCertificate))
    requires LeftPending(installed.pendingKey, d.pendingKey, record, rpmTrust)
    ensures Kept(before, d, key, package, rpmTrust)
  {
    hide LeftPending, KeyFor, GoalOf;
  }

  /** Stopped anywhere, a finish without an explicit key is on the way to the same subscription. */
  lemma OnCourse(goal: Goal, goal': Goal, package: Package)
    requires Keyed(goal, goal', None, package)
    ensures Left(goal', package) == Left(goal, package)
  {
    var key := package.key.packets;
    assert key + key == key;
    if goal.certificate.Some? {
      var held := goal.certificate.value.packets;
      assert (held + key) + key == held + key && held + held == held;
    }
  }

  lemma FinishedAlike(begun: Disk, d: Disk, out: Outcome, package: Package)
    requires begun.files == map[] && Keyed(GoalOf(begun, package), GoalOf(d, package), None, package)
    requires out.Done? ==> Completed(begun, d, None, package)
    ensures Target(d, package) == Target(begun, package)
    ensures out.Done? ==> d.certificate.Some? && Some(Subscribed(d.certificate.value, d.files)) == Target(begun, package)
  {
    hide Merged, Definitions;
    OnCourse(GoalOf(begun, package), GoalOf(d, package), package);
  }

  function KeyOf(action: Action): Option<Key> {
    match action
    case Enable(key) => key
    case RefreshKey(key) => Some(key)
    case _ => None
  }

  lemma FinishTook(before: Disk, start: Disk, d: Disk, action: Action, out: Outcome, installed: Option<Package>)
    requires !action.PackageBegin? && !action.Remove? && AsRegistered(d) && start.files == map[]
    requires forall p: Package :: GoalOf(start, p) == (if action.Enable? then GoalOf(before, p).(enabled := true) else GoalOf(before, p))
    requires Registration(start).target == Registration(before).target
    requires installed.None? ==> d == start && !out.Done?
    requires installed.Some? ==> Keyed(GoalOf(start, installed.value), GoalOf(d, installed.value), KeyOf(action), installed.value)
    requires installed.Some? ==> Registration(d).target in {Registration(start).target, Some(installed.value.target)}
    requires out.Done? ==> Completed(start, d, KeyOf(action), installed.value)
    ensures Took(before, d, action, out, installed)
    ensures out.Done? ==>
      && d.certificate == Merged(GoalOf(before, installed.value), KeyOf(action), installed.value) && d.certificate.Some?
      && Registration(d).enabled == GoalOf(start, installed.value).enabled
      && d.files == Definitions(GoalOf(start, installed.value).enabled, installed.value, d.certificate.value)
  {
    hide Definitions;
    forall p: Package | installed.None? || installed.value == p ensures TookFor(before, d, action, out, p) {
      AfterWhole(GoalOf(before, p), action, p);
      assert GoalOf(start, p) == if action.Enable? then GoalOf(before, p).(enabled := true) else GoalOf(before, p);
    }
  }

  // A change of key stopped by half

  /** The certificate on disk is of the primary on record. */
  predicate Whole(goal: Goal) {
    goal.certificate.Some? && goal.certificate.value.primary == goal.primary
  }

  /**
   * Stopped by half, a change to another primary leaves a finish that refuses the key for good where
   * the primary on record is not the package's, and that installs the package's key alone where it is.
   */
  lemma HalfChanged(goal: Goal, key: Option<Key>, package: Package)
    requires key.Some? && goal.primary != key.value.1 && Merged(goal, key, package).Some?
    ensures goal.primary != package.key.primary ==> Left(HalfKeyed(goal, key, package), package) == None
    ensures goal.primary == package.key.primary ==>
      Left(HalfKeyed(goal, key, package), package) == Some(Subscribed(package.key, Definitions(goal.enabled, package, package.key)))
  {
    hide Definitions;
  }

  /**
   * A finish after half a change of key leaves what one before or after the whole change would, exactly
   * when the key is of the primary on record, or the package's own key holds all there was to lose.
   */
  lemma HalfAKeyChangeIsHarmlessExactly(goal: Goal, key: Key, package: Package)
    requires Merged(goal, Some(key), package).Some?
    ensures var half := Left(HalfKeyed(goal, Some(key), package), package);
      half in {Left(goal, package), Left(Rekeyed(goal, Some(key), package), package)} <==>
        || key.1 == goal.primary
        || !Whole(goal)
        || (goal.primary == package.key.primary && goal.certificate.value.packets <= package.key.packets)
  {
    hide Definitions;
    if key.1 == goal.primary {
      assert HalfKeyed(goal, Some(key), package) == Rekeyed(goal, Some(key), package);
    } else {
      HalfChanged(goal, Some(key), package);
      var changed := Left(Rekeyed(goal, Some(key), package), package);
      assert changed.Some? && changed.value.certificate.primary == key.1;
      if Whole(goal) {
        var held, own := goal.certificate.value.packets, package.key.packets;
        assert held + own == own <==> held <= own;
      }
    }
  }

  /**
   * Two disks a change of key can be stopped at: primary A on record and certificate B installed, which
   * every finish refuses; and the package's own primary on record with B installed, where a finish
   * drops the packets merged into the certificate before.
   */
  lemma StoppedKeyChange(package: Package, a: Certificate, b: Certificate, merged: Certificate)
    requires a.primary != package.key.primary && b.primary != a.primary && b.primary != package.key.primary
    requires package.key.packets == {0} && merged == Certificate(package.key.primary, {0, 7})
    ensures var record := NOTHING.(primary := Some(a.primary));
      var d := Disk(Some(false), Some(record), map[], {}, {}, {}, Some(a), {}, None, None);
      var stopped := d.(certificate := Some(b), retired := {a}, config := Some(b.primary));
      Safe(d) && Safe(stopped) && Target(d, package) == Some(Subscribed(a, map[])) && Target(stopped, package) == None
    ensures var record := NOTHING.(primary := Some(package.key.primary));
      var d := Disk(Some(false), Some(record), map[], {}, {}, {}, Some(merged), {}, None, None);
      var stopped := d.(certificate := Some(b), retired := {merged}, config := Some(b.primary));
      Safe(d) && Safe(stopped) && Target(d, package) == Some(Subscribed(merged, map[])) && Target(stopped, package) == Some(Subscribed(package.key, map[]))
  {
    assert {0, 7} + {0} == {0, 7} && a.packets + a.packets == a.packets;
  }

  // Finishes on the way change nothing

  /** The effects but for those of finishes without an explicit key. */
  function Given(effects: seq<Effect>): seq<Effect> {
    if effects == [] then []
    else
      var n := |effects| - 1;
      Given(effects[..n]) + if effects[n] == Keying(None) then [] else [effects[n]]
  }

  /** Alike for every finish and every key to come. */
  predicate Alike(goal: Goal, goal': Goal, package: Package) {
    && goal.enabled == goal'.enabled && goal.primary == goal'.primary
    && (goal.certificate.Some? ==> Whole(goal)) && (goal'.certificate.Some? ==> Whole(goal'))
    && Merged(goal, None, package) == Merged(goal', None, package)
  }

  lemma AlikeKeeps(goal: Goal, goal': Goal, effect: Effect, package: Package)
    requires Alike(goal, goal', package)
    ensures effect != Keying(None) ==> Alike(With(goal, effect, package), With(goal', effect, package), package)
    ensures effect == Keying(None) ==> Alike(With(goal, effect, package), goal', package)
  {
    if effect.Keying? && effect.key.Some? {
      KeyedAlike(goal, goal', effect.key.value, package);
    } else if effect.Keying? {
      OnCourse(goal, With(goal, effect, package), package);
    }
  }

  lemma KeyedAlike(goal: Goal, goal': Goal, key: Key, package: Package)
    requires Alike(goal, goal', package)
    ensures Alike(Rekeyed(goal, Some(key), package), Rekeyed(goal', Some(key), package), package)
  {
    var own := package.key.packets;
    var held := if goal.certificate.Some? then goal.certificate.value.packets else {};
    var held' := if goal'.certificate.Some? then goal'.certificate.value.packets else {};
    assert {} + own == own && held + held == held && held' + held' == held';
    if goal.primary == package.key.primary {
      assert held + own == held' + own;
      if key.0.Some? {
        var given := key.0.value.packets;
        assert {} + given == given;
        assert (held + given) + own == (held + own) + given && (held' + given) + own == (held' + own) + given;
      }
    } else {
      assert goal.certificate == goal'.certificate;
    }
  }

  /**
   * With a certificate of the primary on record, or none, what the attempts come to is what the
   * administrator's effects alone come to, without the finishes between them.
   */
  lemma {:induction false} FinishesChangeNothing(goal: Goal, effects: seq<Effect>, package: Package)
    requires goal.certificate.Some? ==> Whole(goal)
    ensures Alike(After(goal, effects, package), After(goal, Given(effects), package), package)
    ensures Left(After(goal, effects, package), package) == Left(After(goal, Given(effects), package), package)
  {
    hide After, Given, With, Merged, Whole;
    AfterNone(goal, package);
    GivenLast(effects);
    if effects != [] {
      var n := |effects| - 1;
      var given := Given(effects[..n]);
      FinishesChangeNothing(goal, effects[..n], package);
      AlikeKeeps(After(goal, effects[..n], package), After(goal, given, package), effects[n], package);
      assert effects == effects[..n] + [effects[n]];
      AfterBoth(goal, effects[..n], [effects[n]], package);
      AfterOne(After(goal, effects[..n], package), effects[n], package);
      AfterBoth(goal, given, [effects[n]], package);
      AfterOne(After(goal, given, package), effects[n], package);
    }
  }

  lemma GivenLast(effects: seq<Effect>)
    ensures effects == [] ==> Given(effects) == []
    ensures effects != [] ==>
      var n := |effects| - 1;
      Given(effects) == if effects[n] == Keying(None) then Given(effects[..n]) else Given(effects[..n]) + [effects[n]]
  {
  }

  lemma DisabledDefinesNothing(package: Package, certificate: Certificate)
    ensures Definitions(false, package, certificate) == map[]
  {
  }

  lemma RerecordedAgrees(d: Disk, record: Record)
    requires record.files == Registration(d).files
    ensures AsRegistered(d.(registration := Some(record))) == AsRegistered(d)
    ensures AsRegistered(d.(registration := Some(record), fence := None)) == AsRegistered(d)
  {
  }

  function Published(d: Disk, p: Path, content: Content): Disk {
    d.(files := d.files[p := content], edited := d.edited - {p}, foreign := d.foreign - {p})
  }

  lemma JournaledIsSafe(d: Disk, record: Record, p: Path, content: Content)
    requires Safe(d) && d.fence.Some? && !Ours(d, p) && record.files == Registration(d).files[p := content]
    ensures Safe(d.(registration := Some(record)))
  {
    assert forall q :: Ours(d.(registration := Some(record)), q) <==> Ours(d, q);
  }

  lemma PublishedIsSafe(d: Disk, p: Path, content: Content)
    requires Safe(d) && d.fence.Some? && p in Registration(d).files && Registration(d).files[p] == content && p != Hook(Zypp)
    requires p.Source? && HasHook(p.manager) ==> Hook(p.manager) in d.files
    ensures Safe(Published(d, p, content))
  {
    assert forall q :: Ours(Published(d, p, content), q) <==> Ours(d, q) || q == p;
  }

  /** All that the definitions a finish leads to depend on. */
  function Aim(d: Disk): (bool, Option<string>, Option<Certificate>) {
    (Registration(d).enabled && AsRegistered(d), Registration(d).primary, d.certificate)
  }

  lemma AimDecidesGoal(d: Disk, d': Disk, package: Package)
    requires Aim(d) == Aim(d')
    ensures GoalOf(d, package) == GoalOf(d', package)
  {
    hide AsRegistered;
  }

  ghost predicate KeysAlike(d: Disk, d': Disk) {
    d'.certificate == d.certificate && d'.retired == d.retired && d'.config == d.config && d'.pendingKey == d.pendingKey
  }

  lemma FenceIsSafe(d: Disk, fence: Option<bool>)
    requires Safe(d) && fence.Some?
    ensures Safe(d.(fence := fence))
  {
    assert forall q :: Ours(d.(fence := fence), q) <==> Ours(d, q);
  }

  lemma FencedAlike(before: Disk, d: Disk)
    requires d == before || d == before.(fence := d.fence)
    ensures KeysAlike(before, d) && Aim(before) == Aim(d) && AsRegistered(d) == AsRegistered(before) && Registration(d) == Registration(before)
  {
  }

  lemma FencedAside(before: Disk, fenced: Disk)
    requires fenced == before.(fence := fenced.fence)
    ensures Removable(fenced) <==> Removable(before)
    ensures forall d :: (KeptAside(fenced, d) <==> KeptAside(before, d)) && (Fewer(fenced, d) <==> Fewer(before, d))
  {
    assert forall p :: Matched(fenced, p) <==> Matched(before, p);
    assert forall p :: MayGo(fenced, p) <==> MayGo(before, p);
  }

  lemma RecordedAside(before: Disk, d: Disk, record: Record)
    requires KeptAside(before, d) && Fewer(before, d)
    ensures KeptAside(before, d.(registration := Some(record))) && Fewer(before, d.(registration := Some(record)))
  {
  }

  lemma BegunNow(before: Disk, d: Disk, record: Record)
    requires KeptAside(before, d) && KeysAlike(before, d) && d.files == map[]
    requires record == Registration(before).(enabled := record.enabled)
    ensures Likewise(Begun(before, record.enabled), d.(registration := Some(record)))
  {
  }

  lemma EnabledBegun(before: Disk, begun: Disk, record: Record)
    requires Likewise(Begun(before, record.enabled), begun) || Likewise(Begun(before, !record.enabled), begun)
    requires record == Registration(begun).(enabled := true)
    ensures Likewise(Begun(before, true), begun.(registration := Some(record)))
  {
  }

  lemma KeptLikewise(begun: Disk, start: Disk, d: Disk, key: Option<Key>, package: Package, rpmTrust: bool)
    requires Likewise(begun, start) && Kept(start, d, key, package, rpmTrust)
    ensures Kept(begun, d, key, package, rpmTrust)
  {
    hide KeyFor, LeftPending;
    assert GoalOf(begun, package) == GoalOf(start, package);
  }

  lemma FewerAlike(before: Disk, fenced: Disk, d: Disk)
    requires KeysAlike(before, fenced) && Aim(before) == Aim(fenced) && OnlyFiles(fenced, d) && Fewer(fenced, d)
    requires Registration(fenced) == Registration(before) && AsRegistered(before) == AsRegistered(fenced)
    ensures KeysAlike(before, d) && d.fence == fenced.fence && Registration(d) == Registration(before)
    ensures AsRegistered(before) ==> Aim(d) == Aim(before) && AsRegistered(d)
  {
  }

  lemma EmptyIsSafe(d: Disk)
    requires d.files == map[]
    ensures Safe(d)
  {
  }

  lemma AimSelf(d: Disk)
    ensures Aim(d) in {Aim(d), Aim(d).(0 := false)}
  {
  }

  lemma RecordedAim(before: Disk, d: Disk, record: Record, removing: bool)
    requires KeysAlike(before, d) && d.files == map[]
    requires record == Registration(before).(enabled := !removing && Registration(before).enabled && AsRegistered(before))
    ensures var d' := d.(registration := Some(record)); Aim(d') == if removing then Aim(before).(0 := false) else Aim(before)
  {
    hide AsRegistered;
    EmptyAgrees(d.(registration := Some(record)));
  }

  /** The first n definitions are gone, and only those. */
  ghost predicate Cleared(before: Disk, d: Disk, n: nat)
    requires n <= |ORDER|
  {
    && (forall k :: 0 <= k < n ==> ORDER[k] !in d.files)
    && (forall p :: p in before.files && p !in d.files ==> p in ORDER[..n])
  }

  predicate Matched(d: Disk, p: Path) {
    p in d.files ==> p in Registration(d).files && Registration(d).files[p] == d.files[p]
  }

  predicate MatchedSoFar(d: Disk, n: nat)
    requires n <= |ORDER|
  {
    forall k :: 0 <= k < n ==> Matched(d, ORDER[k])
  }

  lemma MatchedNext(d: Disk, n: nat)
    requires n < |ORDER|
    ensures MatchedSoFar(d, n + 1) <==> MatchedSoFar(d, n) && Matched(d, ORDER[n])
  {
  }

  /** A definition not on disk when its turn comes was never there. */
  lemma ClearedAbsent(before: Disk, d: Disk, n: nat)
    requires n < |ORDER| && Cleared(before, d, n) && ORDER[n] !in d.files
    ensures ORDER[n] !in before.files && Matched(before, ORDER[n]) && Cleared(before, d, n + 1)
  {
    OrderOfPaths();
    assert ORDER[..n + 1] == ORDER[..n] + [ORDER[n]];
    assert forall k :: 0 <= k < n ==> ORDER[..n][k] != ORDER[n];
  }

  lemma ClearedRemoved(before: Disk, d: Disk, n: nat, saved: set<(Path, Content)>)
    requires n < |ORDER| && Cleared(before, d, n) && Fewer(before, d) && OnlyFiles(before, d) && ORDER[n] in d.files
    ensures var d' := Without(d, ORDER[n]).(saved := saved);
      Cleared(before, d', n + 1) && Fewer(before, d') && OnlyFiles(before, d')
    ensures Matched(before, ORDER[n]) <==> ORDER[n] in Registration(before).files && Registration(before).files[ORDER[n]] == d.files[ORDER[n]]
  {
    assert ORDER[..n + 1] == ORDER[..n] + [ORDER[n]];
  }

  lemma NothingAside(d: Disk)
    ensures KeptAside(d, d) && Fewer(d, d)
  {
  }

  lemma AbsentMayGo(d: Disk, p: Path)
    requires p !in d.files
    ensures MayGo(d, p)
  {
  }

  /** What becomes of one definition, and whether it may go. */
  lemma AsideOne(before: Disk, d: Disk, p: Path)
    requires Fewer(before, d) && KeptAside(before, d) && p in d.files
    ensures p in before.files && before.files[p] == d.files[p]
    ensures MayGo(before, p) <==> p in Registration(before).files && (Matched(before, p) || (p, d.files[p]) !in d.saved)
    ensures Matched(before, p) ==> KeptAside(before, Without(d, p).(saved := d.saved))
    ensures !Matched(before, p) ==> KeptAside(before, Without(d, p).(saved := d.saved + {(p, d.files[p])}))
  {
  }

  lemma AllMayGo(d: Disk)
    requires Safe(d) && forall k :: 0 <= k < 5 ==> MayGo(d, ORDER[k])
    ensures Removable(d)
  {
    OrderOfPaths();
    forall p: Path | p in d.files ensures MayGo(d, p) {
      assert p in ORDER;
      var k :| 0 <= k < |ORDER| && ORDER[k] == p;
    }
  }

  /** What is as registered can go. */
  lemma RegisteredMayGo(d: Disk)
    requires AsRegistered(d)
    ensures Removable(d)
  {
  }

  lemma HookIsFree(before: Disk, d: Disk, n: nat)
    requires n < |ORDER| && Cleared(before, d, n)
    ensures ORDER[n].Hook? ==> !Ours(d, Source(ORDER[n].manager))
  {
    OrderOfPaths();
    if ORDER[n].Hook? {
      var k :| 0 <= k < n && ORDER[..n][k] == Source(ORDER[n].manager);
    }
  }

  lemma AllCleared(before: Disk, d: Disk)
    requires Safe(d) && Fewer(before, d) && Cleared(before, d, |ORDER|)
    ensures d.files == map[]
    ensures Hook(Zypp) !in before.files ==> (MatchedSoFar(before, |ORDER|) <==> AsRegistered(before))
  {
    OrderOfPaths();
    forall p: Path | p != Hook(Zypp) ensures p !in d.files && (MatchedSoFar(before, |ORDER|) ==> Matched(before, p)) {
      assert p in ORDER;
      var k :| 0 <= k < |ORDER| && ORDER[k] == p;
      assert MatchedSoFar(before, |ORDER|) ==> Matched(before, ORDER[k]);
    }
    assert d.files == map[];
  }

  /**
   * Taking one definition away during maintenance keeps the outcome exactly when it was as
   * registered, or another changed one is still there to say so.
   */
  lemma RemovalKeepsTargetExactly(d: Disk, p: Path, saved: set<(Path, Content)>, package: Package)
    requires p in d.files && Registration(d).enabled && Merged(GoalOf(d, package), None, package).Some?
    ensures var d' := Without(d, p).(saved := saved);
      Target(d', package) == Target(d, package) <==> Matched(d, p) || !AsRegistered(d')
  {
    hide Merged;
    var d' := Without(d, p).(saved := saved);
    assert Merged(GoalOf(d', package), None, package) == Merged(GoalOf(d, package), None, package) by {
      MergedAlike(GoalOf(d, package), GoalOf(d', package), None, package);
    }
    var certificate := Merged(GoalOf(d, package), None, package).value;
    assert Source(package.manager) in Definitions(true, package, certificate);
    assert Definitions(false, package, certificate) == map[];
    assert AsRegistered(d) <==> Matched(d, p) && AsRegistered(d') by {
      forall q | q in d.files && q != p ensures q in d'.files && d'.files[q] == d.files[q] {}
    }
  }

  lemma MergedAlike(goal: Goal, goal': Goal, key: Option<Key>, package: Package)
    requires goal' == goal.(enabled := goal'.enabled)
    ensures Merged(goal', key, package) == Merged(goal, key, package)
  {
  }

  /**
   * An administrator's change to a definition disables the subscription at the next maintenance,
   * unless that maintenance is stopped after the file is set aside and before the registration is
   * written: then a repeated package-finish publishes the definition again.
   */
  lemma StoppedMaintenanceForgetsAnEdit(package: Package, text: string)
    requires package.manager == Zypp
    ensures var content := SourceText(package, package.key);
      var record := NOTHING.(enabled := true, files := map[Source(Zypp) := content]);
      var d := Disk(None, Some(record), map[Source(Zypp) := Foreign(text)], {Source(Zypp)}, {}, {}, Some(package.key), {}, None, None);
      var stopped := Without(d, Source(Zypp)).(fence := Some(true), saved := {(Source(Zypp), Foreign(text))});
      Safe(d) && Safe(stopped) && Target(d, package) == Some(Subscribed(package.key, map[])) && Source(Zypp) in Target(stopped, package).value.definitions
  {
    var content := SourceText(package, package.key);
    var record := NOTHING.(enabled := true, files := map[Source(Zypp) := content]);
    var d := Disk(None, Some(record), map[Source(Zypp) := Foreign(text)], {Source(Zypp)}, {}, {}, Some(package.key), {}, None, None);
    assert Source(Zypp) in d.files;
    assert package.key.packets + package.key.packets == package.key.packets;
  }
}
