/** One observation window: which expected values the last reports confirm. */
module ReadBack {
  import opened Wrappers

  datatype Arg = Int(number: int) | Real(value: real) | MinusInfinity | NotFinite | Text(text: string)

  datatype Report = Report(path: string, tags: string, args: seq<Arg>)

  datatype Expected = Expected(tags: string, args: seq<Arg>)

  /**
   * What the register table says of a path. `readable` is whether the device reports it, `scalar`
   * whether it has a domain of settable values, `accepts` that domain's reports, and `agrees` when
   * a report satisfies a wanted value.
   */
  datatype Register = Register(readable: bool, scalar: bool, mixLevel: bool, accepts: Arg -> bool)

  function Ends(path: string, suffix: string): bool {
    |path| >= |suffix| && path[|path| - |suffix|..] == suffix
  }

  /** An exact int32, however it is written. */
  function Integer(a: Arg): Option<int> {
    match a
    case Int(n) => if -0x8000_0000 <= n < 0x8000_0000 then Some(n) else None
    case Real(x) => if x.Floor as real == x && -0x8000_0000 <= x.Floor < 0x8000_0000 then Some(x.Floor) else None
    case _ => None
  }

  /** An argument is the integer it equals, whichever way it came, within an OSC integer's range. */
  lemma IntegerExactly(a: Arg, n: int)
    ensures Integer(a) == Some(n) <==> (a == Int(n) || a == Real(n as real)) && -0x8000_0000 <= n <= 0x7FFF_FFFF
  {
  }

  lemma EndsExactly(path: string, suffix: string)
    ensures Ends(path, suffix) <==> exists stem: string :: path == stem + suffix
  {
    if Ends(path, suffix) {
      assert path == path[..|path| - |suffix|] + suffix;
    }
  }

  predicate Number(a: Arg) {
    a.Int? || a.Real?
  }

  /** A strictly typed Boolean report. */
  predicate IsFlag(tags: string, args: seq<Arg>) {
    tags == "i" && |args| == 1 && args[0] in {Int(0), Int(1)}
  }

  /** One argument of a report under its expected tag. */
  predicate ValidArg(path: string, register: Option<Register>, index: nat, tag: char, a: Arg) {
    var mix := register.Some? && register.value.mixLevel;
    if mix && index == 0 && a == MinusInfinity then true
    else if mix && index == 1 && !(a.Int? && -100 <= a.number <= 100) then false
    else if !mix && register.Some? && register.value.scalar && !register.value.accepts(a) then false
    else if tag == 'i' then
      Integer(a).Some? && (Ends(path, "/stereo") ==> Integer(a).value in {0, 1})
    else tag == 'f' && Number(a)
  }

  predicate ValidArgs(path: string, register: Option<Register>, tags: string, args: seq<Arg>) {
    tags != "" && |args| >= |tags| && forall k :: 0 <= k < |tags| ==> ValidArg(path, register, k, tags[k], args[k])
  }

  method ArgsAreValid(path: string, register: Option<Register>, tags: string, args: seq<Arg>) returns (valid: bool)
    ensures valid == ValidArgs(path, register, tags, args)
  {
    if tags == "" || |args| < |tags| {
      return false;
    }
    for k := 0 to |tags|
      invariant forall j :: 0 <= j < k ==> ValidArg(path, register, j, tags[j], args[j])
    {
      if !ValidArg(path, register, k, tags[k], args[k]) {
        return false;
      }
    }
    valid := true;
  }

  datatype Class = Unobserved | Confirmed | Mismatched | Invalid

  /** What the device table and the comparison of values say; both are the same for the whole window. */
  datatype Table = Table(registers: map<string, Register>, agrees: (string, Expected, seq<Arg>) -> bool) {
    function At(path: string): Option<Register> {
      if path in registers then Some(registers[path]) else None
    }
  }

  /** A path the device never reports: what a cache echoes of it is no evidence. */
  predicate Blind(table: Table, path: string) {
    table.At(path).Some? && !table.At(path).value.readable && table.At(path).value.scalar
  }

  predicate Sound(table: Table, expected: Expected, r: Report) {
    && expected.tags <= r.tags && ValidArgs(r.path, table.At(r.path), expected.tags, r.args)
    && (Ends(r.path, "/autoset") ==> IsFlag(r.tags, r.args))
  }

  /** The class one report alone puts an expected path in. */
  function Judge(table: Table, expected: Expected, r: Report): Class {
    if Blind(table, r.path) then Unobserved
    else if !Sound(table, expected, r) then Invalid
    else if table.agrees(r.path, expected, r.args) then Confirmed
    else Mismatched
  }

  /** The last report for a path, if any. */
  function LastReport(history: seq<Report>, path: string): Option<Report> {
    if history == [] then None
    else if history[|history| - 1].path == path then Some(history[|history| - 1])
    else LastReport(history[..|history| - 1], path)
  }

  /** The class of a path after a history of reports: its last report alone decides. */
  function ClassOf(table: Table, wanted: map<string, Expected>, history: seq<Report>, path: string): Class {
    var last := LastReport(history, path);
    if path !in wanted || last.None? then Unobserved else Judge(table, wanted[path], last.value)
  }

  lemma LastReportThen(history: seq<Report>, r: Report)
    ensures forall path :: LastReport(history + [r], path) == if path == r.path then Some(r) else LastReport(history, path)
  {
    assert (history + [r])[..|history|] == history;
  }

  lemma {:induction false} LastReportIsOne(history: seq<Report>, path: string)
    ensures LastReport(history, path).Some? ==> LastReport(history, path).value.path == path && LastReport(history, path).value in history
    ensures LastReport(history, path).None? <==> forall k :: 0 <= k < |history| ==> history[k].path != path
  {
    if history != [] {
      LastReportIsOne(history[..|history| - 1], path);
    }
  }

  class Observation {
    const table: Table
    const expected: map<string, Expected>
    const dependencies: set<string>
    const noted: set<string>
    var latest: map<string, (string, seq<Arg>)>
    var confirmed: set<string>
    var mismatched: set<string>
    var invalid: set<string>
    ghost var history: seq<Report>

    predicate Kept(path: string) {
      path in expected || path in dependencies || path in noted
    }

    /** Where a path of this class is kept. */
    ghost predicate Placed(p: string, c: Class)
      reads this
    {
      (p in confirmed <==> c == Confirmed) && (p in mismatched <==> c in {Mismatched, Invalid}) && (p in invalid <==> c == Invalid)
    }

    ghost predicate Remembers(p: string, last: Option<Report>)
      reads this
    {
      && (p in latest <==> Kept(p) && last.Some?)
      && (p in latest ==> latest[p] == (last.value.tags, last.value.args))
    }

    /** The sets and the latest values are functions of the last report of each path. */
    ghost predicate Valid()
      reads this
    {
      forall p :: Placed(p, ClassOf(table, expected, history, p)) && Remembers(p, LastReport(history, p))
    }

    constructor (table: Table, expected: map<string, Expected>, dependencies: set<string>, noted: set<string>)
      ensures Valid() && history == [] && this.expected == expected && this.table == table
      ensures this.dependencies == dependencies && this.noted == noted
    {
      this.table, this.expected, this.dependencies, this.noted := table, expected, dependencies, noted;
      latest, confirmed, mismatched, invalid, history := map[], {}, {}, {}, [];
    }

    method Absorb(report: Report)
      requires Valid()
      modifies this
      ensures Valid() && history == old(history) + [report]
    {
      hide Judge, Sound, Blind, ClassOf;
      var path := report.path;
      ghost var before := history;
      Notice(report);
      if path !in expected {
        UnexpectedStays(table, expected, before, report);
        return;
      }
      ClassThen(table, expected, before, report);
      var register := table.At(path);
      if register.Some? && !register.value.readable && register.value.scalar {
        JudgeBlind(table, expected[path], report);
        BlindStays(table, expected, before, path);
        return;
      }
      var args := ArgsAreValid(path, register, expected[path].tags, report.args);
      var valid := expected[path].tags <= report.tags && args;
      if Ends(path, "/autoset") {
        valid := valid && IsFlag(report.tags, report.args);
      }
      JudgeSeeing(table, expected[path], report);
      File(path, valid, valid && table.agrees(path, expected[path], report.args));
    }

    /** Keep a report as the latest of its path, malformed or not. */
    method Notice(report: Report)
      requires Valid()
      modifies `latest, `history
      ensures history == old(history) + [report]
      ensures forall p :: Remembers(p, LastReport(history, p)) && Placed(p, ClassOf(table, expected, old(history), p))
    {
      hide ClassOf;
      LastReportThen(history, report);
      ghost var before := history;
      history := history + [report];
      if Kept(report.path) {
        latest := latest[report.path := (report.tags, report.args)];
      }
      forall p ensures Remembers(p, LastReport(history, p)) && Placed(p, ClassOf(table, expected, before, p)) {
        assert old(Placed(p, ClassOf(table, expected, history, p)) && Remembers(p, LastReport(history, p)));
      }
    }

    /** Sort a path into the sets by what its report was worth. */
    method File(path: string, valid: bool, matching: bool)
      requires matching ==> valid
      modifies `confirmed, `mismatched, `invalid
      ensures confirmed == if matching then old(confirmed) + {path} else old(confirmed) - {path}
      ensures mismatched == if matching then old(mismatched) - {path} else old(mismatched) + {path}
      ensures invalid == if valid then old(invalid) - {path} else old(invalid) + {path}
    {
      if matching {
        confirmed := confirmed + {path};
        mismatched := mismatched - {path};
      } else {
        confirmed := confirmed - {path};
        mismatched := mismatched + {path};
      }
      if valid {
        invalid := invalid - {path};
      } else {
        invalid := invalid + {path};
      }
    }

    function Unobserved(): set<string>
      reads this
    {
      expected.Keys - confirmed - mismatched
    }

    predicate Complete()
      reads this
    {
      |confirmed| == |expected.Keys|
    }

    /** What was reported is remembered exactly of the paths expected, depended on or noted, and only the last of it. */
    lemma LatestExactly(path: string)
      requires Valid()
      ensures path in latest <==>
        (path in expected || path in dependencies || path in noted) && exists k :: 0 <= k < |history| && history[k].path == path
      ensures path in latest ==>
        exists k :: 0 <= k < |history| && history[k].path == path && latest[path] == (history[k].tags, history[k].args)
                    && forall j :: k < j < |history| ==> history[j].path != path
    {
      hide ClassOf;
      LastReportIsOne(history, path);
      assert Remembers(path, LastReport(history, path));
      if path in latest {
        var k := LastIndex(history, path);
        LastReportAt(history, path, k);
      }
    }

    /** Confirmed, mismatched and unobserved divide the expected paths, invalid ones inside mismatched. */
    lemma Partition()
      requires Valid()
      ensures confirmed + mismatched + Unobserved() == expected.Keys
      ensures confirmed !! mismatched && confirmed !! Unobserved() && mismatched !! Unobserved() && invalid <= mismatched
      ensures forall p :: p in Unobserved() <==> p in expected && ClassOf(table, expected, history, p) == Class.Unobserved
    {
      hide Judge;
      forall p
        ensures p in confirmed || p in mismatched ==> p in expected
        ensures !(p in confirmed && p in mismatched) && (p in invalid ==> p in mismatched)
        ensures p in Unobserved() <==> p in expected && ClassOf(table, expected, history, p) == Class.Unobserved
      {
        assert Placed(p, ClassOf(table, expected, history, p));
      }
    }

    /** The count alone tells that everything expected was confirmed. */
    lemma CompleteMeansAll()
      requires Valid()
      ensures Complete() <==> mismatched == {} && Unobserved() == {}
    {
      Partition();
      if Complete() {
        SameSize(confirmed, expected.Keys);
      }
    }
  }

  lemma SameSize(a: set<string>, b: set<string>)
    requires a <= b && |a| == |b|
    ensures a == b
  {
    forall x | x in b ensures x in a {
      if x !in a {
        Smaller(a, b - {x});
      }
    }
  }

  lemma {:induction false} Smaller(a: set<string>, b: set<string>)
    requires a <= b
    ensures |a| <= |b|
  {
    if a != {} {
      var x :| x in a;
      Smaller(a - {x}, b - {x});
    }
  }

  // What a report has to be to count

  /** An argument under tag i is a whole number, of a link 0 or 1; under tag f it is a number; no other tag is known. */
  ghost predicate Typed(path: string, tag: char, a: Arg) {
    || (tag == 'f' && (a.Int? || a.Real?))
    || (tag == 'i' && Integer(a).Some? && ((exists stem: string :: path == stem + "/stereo") ==> Integer(a).value == 0 || Integer(a).value == 1))
  }

  /** The first argument of a mix register may be minus infinity, its second is a balance; a scalar's is in its domain. */
  lemma ValidExactly(path: string, register: Option<Register>, index: nat, tag: char, a: Arg)
    ensures ValidArg(path, register, index, tag, a) <==>
      if register.Some? && register.value.mixLevel then
        match index
        case 0 => a == MinusInfinity || Typed(path, tag, a)
        case 1 => Typed(path, tag, a) && a.Int? && -100 <= a.number <= 100
        case _ => Typed(path, tag, a)
      else (register.Some? && register.value.scalar ==> register.value.accepts(a)) && Typed(path, tag, a)
  {
    EndsExactly(path, "/stereo");
  }

  /** What confirms a path: a report the device gives of its own, with the tags and arguments asked for, that agrees. */
  lemma ConfirmedExactly(table: Table, expected: Expected, r: Report)
    ensures Judge(table, expected, r) == Confirmed <==>
      && (r.path in table.registers && table.registers[r.path].scalar ==> table.registers[r.path].readable)
      && expected.tags <= r.tags && 0 < |expected.tags| <= |r.args|
      && (forall k :: 0 <= k < |expected.tags| ==> ValidArg(r.path, table.At(r.path), k, expected.tags[k], r.args[k]))
      && ((exists stem: string :: r.path == stem + "/autoset") ==> r.tags == "i" && (r.args == [Int(0)] || r.args == [Int(1)]))
      && table.agrees(r.path, expected, r.args)
    ensures Judge(table, expected, r) == Class.Unobserved <==>
      r.path in table.registers && table.registers[r.path].scalar && !table.registers[r.path].readable
    ensures Judge(table, expected, r) == Mismatched ==>
      Judge(table.(agrees := (path, wanted, args) => true), expected, r) == Confirmed
    ensures Judge(table, expected, r) == Invalid ==>
      Judge(table.(agrees := (path, wanted, args) => true), expected, r) == Invalid
  {
    hide ValidArg;
    EndsExactly(r.path, "/autoset");
    FlagExactly(r.tags, r.args);
  }

  lemma FlagExactly(tags: string, args: seq<Arg>)
    ensures IsFlag(tags, args) <==> tags == "i" && (args == [Int(0)] || args == [Int(1)])
  {
  }

  lemma ClassThen(table: Table, wanted: map<string, Expected>, history: seq<Report>, r: Report)
    requires r.path in wanted
    ensures forall p :: ClassOf(table, wanted, history + [r], p) == (if p == r.path then Judge(table, wanted[p], r) else ClassOf(table, wanted, history, p))
  {
    hide Judge;
    LastReportThen(history, r);
  }

  lemma UnexpectedStays(table: Table, wanted: map<string, Expected>, history: seq<Report>, r: Report)
    requires r.path !in wanted
    ensures forall p :: ClassOf(table, wanted, history + [r], p) == ClassOf(table, wanted, history, p)
  {
    hide Judge;
    LastReportThen(history, r);
  }

  lemma JudgeBlind(table: Table, expected: Expected, r: Report)
    ensures Blind(table, r.path) ==> Judge(table, expected, r) == Class.Unobserved
    ensures Blind(table, r.path) <==> table.At(r.path).Some? && !table.At(r.path).value.readable && table.At(r.path).value.scalar
  {
  }

  lemma JudgeSeeing(table: Table, expected: Expected, r: Report)
    requires var register := table.At(r.path); !(register.Some? && !register.value.readable && register.value.scalar)
    ensures var valid := expected.tags <= r.tags && ValidArgs(r.path, table.At(r.path), expected.tags, r.args)
                         && (Ends(r.path, "/autoset") ==> IsFlag(r.tags, r.args));
      Judge(table, expected, r) ==
        if !valid then Invalid else if table.agrees(r.path, expected, r.args) then Confirmed else Mismatched
  {
  }

  /** A blind path is unobserved whatever was reported for it. */
  lemma BlindStays(table: Table, wanted: map<string, Expected>, history: seq<Report>, path: string)
    ensures Blind(table, path) ==> ClassOf(table, wanted, history, path) == Class.Unobserved
  {
    LastReportIsOne(history, path);
  }

  /** After any two histories that end alike on a path, it is classified alike. */
  lemma OnlyTheLastReportCounts(table: Table, wanted: map<string, Expected>, a: seq<Report>, b: seq<Report>, path: string)
    requires exists i, j :: 0 <= i < |a| && 0 <= j < |b| && a[i] == b[j] && a[i].path == path
                            && (forall k :: i < k < |a| ==> a[k].path != path) && (forall k :: j < k < |b| ==> b[k].path != path)
    ensures ClassOf(table, wanted, a, path) == ClassOf(table, wanted, b, path)
  {
    var i, j :| 0 <= i < |a| && 0 <= j < |b| && a[i] == b[j] && a[i].path == path
                && (forall k :: i < k < |a| ==> a[k].path != path) && (forall k :: j < k < |b| ==> b[k].path != path);
    LastReportAt(a, path, i);
    LastReportAt(b, path, j);
  }

  lemma {:induction false} LastIndex(history: seq<Report>, path: string) returns (k: nat)
    requires exists i :: 0 <= i < |history| && history[i].path == path
    ensures k < |history| && history[k].path == path && forall j :: k < j < |history| ==> history[j].path != path
  {
    k := |history| - 1;
    if history[k].path != path {
      var i :| 0 <= i < |history| && history[i].path == path;
      assert history[..k][i].path == path;
      k := LastIndex(history[..k], path);
    }
  }

  lemma {:induction false} LastReportAt(history: seq<Report>, path: string, i: nat)
    requires i < |history| && history[i].path == path && forall k :: i < k < |history| ==> history[k].path != path
    ensures LastReport(history, path) == Some(history[i])
  {
    if i < |history| - 1 {
      LastReportAt(history[..|history| - 1], path, i);
    }
  }
}
