/** The write journal: a file per user, and their merge by stamp. */
module WriteJournal {
  import opened Wrappers

  const MAX_ENTRIES: nat := 20000
  const MAX_BYTES: nat := 8 * 1024 * 1024

  /** Type tags and arguments of one write. */
  datatype Value = Value(tags: string, args: seq<string>)

  /** A write and its stamp; stamps have a fixed width, so their text orders as their time does. */
  datatype Stamped = Stamped(value: Value, at: int)

  type Journal = map<string, Stamped>

  /** A journal file: missing, not sound, or a document of so many bytes. */
  datatype File = Missing | Unsound | Sound(journal: Journal, bytes: nat)

  /** What is read of a file: one past the byte bound counts as unsound. */
  function Readable(file: File): Journal {
    if file.Sound? && file.bytes <= MAX_BYTES then file.journal else map[]
  }

  function Recorded(journal: Journal, written: map<string, Value>, at: int): Journal {
    journal + map p | p in written :: Stamped(written[p], at)
  }

  function Values(journal: Journal): map<string, Value> {
    map p | p in journal :: journal[p].value
  }

  lemma RecordedValues(journal: Journal, written: map<string, Value>, at: int)
    ensures Values(Recorded(journal, written, at)) == Values(journal) + written
  {
  }

  /**
   * Add one operation's acknowledged writes. `bytes` is the size of the document they make, None when
   * the file cannot be replaced; it then stays as it was. Nothing keeps that size within the bound.
   */
  method RecordWritten(file: Option<File>, written: map<string, Value>, now: int, bytes: Option<nat>)
      returns (stored: bool, file': Option<File>)
    ensures stored <==> file.Some? && written != map[] && bytes.Some? && |Recorded(Readable(file.value), written, now)| <= MAX_ENTRIES
    ensures stored ==>
      && file'.Some? && file'.value.Sound? && file'.value.bytes == bytes.value
      && Values(file'.value.journal) == Values(Readable(file.value)) + written
      && (forall p :: p in file'.value.journal <==> p in Readable(file.value) || p in written)
      && (forall p :: p in file'.value.journal ==>
            file'.value.journal[p] == (if p in written then Stamped(written[p], now) else Readable(file.value)[p]))
    ensures stored ==> (Values(Readable(file'.value)) == Values(Readable(file.value)) + written <==> bytes.value <= MAX_BYTES)
    ensures stored && bytes.value > MAX_BYTES ==> Readable(file'.value) == map[]
    ensures !stored ==> file' == file
  {
    if file.None? || written == map[] {
      return false, file;
    }
    var journal := Recorded(Readable(file.value), written, now);
    if |journal| > MAX_ENTRIES || bytes.None? {
      return false, file;
    }
    RecordedValues(Readable(file.value), written, now);
    WrittenRemain(Values(Readable(file.value)), written);
    return true, Some(Sound(journal, bytes.value));
  }

  lemma WrittenRemain(values: map<string, Value>, written: map<string, Value>)
    requires written != map[]
    ensures values + written != map[]
  {
    var p :| p in written;
    assert p in values + written;
  }

  // Merging the users' files

  /** The entry for p in the last of the files that stamped it latest. */
  ghost predicate IsLatest(files: seq<Journal>, p: string, e: Stamped) {
    exists i :: IsLatestAt(files, p, e, i)
  }

  ghost predicate IsLatestAt(files: seq<Journal>, p: string, e: Stamped, i: nat) {
    && i < |files| && p in files[i] && files[i][p] == e
    && forall j :: 0 <= j < |files| && p in files[j] ==> (files[j][p].at <= e.at && (j > i ==> files[j][p].at < e.at))
  }

  ghost predicate Anywhere(files: seq<Journal>, p: string) {
    exists i :: 0 <= i < |files| && p in files[i]
  }

  ghost predicate IsMerge(files: seq<Journal>, merged: Journal) {
    && (forall p :: p in merged <==> Anywhere(files, p))
    && (forall p :: p in merged ==> IsLatest(files, p, merged[p]))
  }

  /** Every user's recorded writes: per register the entry with the greatest stamp, the last file's on a tie. */
  method ReadJournals(files: seq<Journal>) returns (merged: Journal)
    ensures IsMerge(files, merged)
  {
    merged := map[];
    for n := 0 to |files|
      invariant IsMerge(files[..n], merged)
    {
      ghost var before := merged;
      merged := MergeFile(merged, files[n]);
      OneMoreFile(files[..n], files[n], before, merged);
      assert files[..n + 1] == files[..n] + [files[n]];
    }
    assert files[..|files|] == files;
  }

  /** The entry that survives one more file. */
  function Survivor(before: Journal, file: Journal, p: string): Stamped
    requires p in before || p in file
  {
    if p in file && (p !in before || file[p].at >= before[p].at) then file[p] else before[p]
  }

  method MergeFile(before: Journal, file: Journal) returns (merged: Journal)
    ensures forall p :: p in merged <==> p in before || p in file
    ensures forall p :: p in merged ==> merged[p] == Survivor(before, file, p)
  {
    merged := before;
    var names := file.Keys;
    while names != {}
      invariant names <= file.Keys
      invariant forall p :: p in merged <==> p in before || (p in file && p !in names)
      invariant forall p :: p in merged && p !in names ==> merged[p] == Survivor(before, file, p)
      invariant forall p :: p in merged && p in names ==> merged[p] == before[p]
      decreases |names|
    {
      var name :| name in names;
      names := names - {name};
      var entry := file[name];
      if name !in merged || entry.at >= merged[name].at {
        merged := merged[name := entry];
      }
    }
  }

  lemma OneMoreFile(files: seq<Journal>, file: Journal, before: Journal, after: Journal)
    requires IsMerge(files, before)
    requires forall p :: p in after <==> p in before || p in file
    requires forall p :: p in after ==> after[p] == Survivor(before, file, p)
    ensures IsMerge(files + [file], after)
  {
    var more: seq<Journal> := files + [file];
    assert more[|files|] == file;
    forall p ensures Anywhere(more, p) <==> Anywhere(files, p) || p in file {
      if Anywhere(files, p) {
        var i :| 0 <= i < |files| && p in files[i];
        assert more[i] == files[i];
      }
    }
    forall p | p in after ensures IsLatest(more, p, after[p]) {
      if p in file && (p !in before || file[p].at >= before[p].at) {
        NewIsLatest(files, file, before, p);
      } else {
        OldIsLatest(files, file, p, before[p]);
      }
    }
  }

  lemma NewIsLatest(files: seq<Journal>, file: Journal, before: Journal, p: string)
    requires IsMerge(files, before) && p in file && (p !in before || file[p].at >= before[p].at)
    ensures IsLatest(files + [file], p, file[p])
  {
    var more: seq<Journal> := files + [file];
    forall j | 0 <= j < |more| && p in more[j] ensures more[j][p].at <= file[p].at {
      if j < |files| {
        assert Anywhere(files, p);
        assert IsLatest(files, p, before[p]);
      }
    }
    assert IsLatestAt(more, p, file[p], |files|);
  }

  lemma OldIsLatest(files: seq<Journal>, file: Journal, p: string, e: Stamped)
    requires IsLatest(files, p, e) && (p in file ==> file[p].at < e.at)
    ensures IsLatest(files + [file], p, e)
  {
    var more: seq<Journal> := files + [file];
    var i: nat :| IsLatestAt(files, p, e, i);
    assert more[i] == files[i];
    forall j | 0 <= j < |more| && p in more[j] ensures more[j][p].at <= e.at && (j > i ==> more[j][p].at < e.at) {
      assert j < |files| ==> more[j] == files[j];
    }
    assert IsLatestAt(more, p, e, i);
  }

  // A history of records

  /** One operation's record: by which user, when, of which writes. */
  datatype Record = Record(user: nat, written: map<string, Value>, at: int)

  /** Every user's journal after a history of records that could all be stored. */
  function Files(users: nat, history: seq<Record>): (files: seq<Journal>)
    ensures |files| == users
  {
    if history == [] then seq(users, _ => map[])
    else
      var files := Files(users, history[..|history| - 1]);
      var r := history[|history| - 1];
      if r.user < users then files[r.user := Recorded(files[r.user], r.written, r.at)] else files
  }

  /** Entry e is what record k wrote to p. */
  ghost predicate WrittenBy(history: seq<Record>, k: nat, p: string, e: Stamped) {
    k < |history| && p in history[k].written && e == Stamped(history[k].written[p], history[k].at)
  }

  ghost predicate Later(history: seq<Record>, k: nat, user: nat, p: string) {
    exists m :: k < m < |history| && history[m].user == user && p in history[m].written
  }

  /** A user's file holds, per register, what that user's last record of it wrote. */
  lemma {:induction false} FileIsLastRecord(users: nat, history: seq<Record>, u: nat, p: string) returns (k: nat)
    requires u < users && p in Files(users, history)[u]
    ensures WrittenBy(history, k, p, Files(users, history)[u][p]) && history[k].user == u && !Later(history, k, u, p)
  {
    var n := |history| - 1;
    var r := history[n];
    if r.user == u && p in r.written {
      k := n;
    } else {
      k := FileIsLastRecord(users, history[..n], u, p);
      forall m | k < m < |history| && history[m].user == u ensures p !in history[m].written {
        if m < n {
          assert history[..n][m] == history[m];
        }
      }
    }
  }

  lemma {:induction false} RecordedIsInFile(users: nat, history: seq<Record>, k: nat, p: string)
    requires k < |history| && history[k].user < users && p in history[k].written
    ensures p in Files(users, history)[history[k].user]
  {
    var n := |history| - 1;
    if k < n {
      RecordedIsInFile(users, history[..n], k, p);
    }
  }

  lemma NothingLater(history: seq<Record>, own: nat, k: nat, u: nat, p: string)
    requires !Later(history, own, u, p) && k < |history| && history[k].user == u && p in history[k].written
    ensures k <= own
  {
  }

  function EntryOf(history: seq<Record>, k: nat, p: string): Stamped
    requires k < |history| && p in history[k].written
  {
    Stamped(history[k].written[p], history[k].at)
  }

  /** Record k is its user's last of register p. */
  ghost predicate OwnLast(history: seq<Record>, k: nat, p: string) {
    k < |history| && p in history[k].written && !Later(history, k, history[k].user, p)
  }

  /** By its stamp, or on a tie by its user's place among the files, record m comes after record k. */
  predicate Beats(history: seq<Record>, m: nat, k: nat)
    requires m < |history| && k < |history|
  {
    history[m].at > history[k].at || (history[m].at == history[k].at && history[m].user > history[k].user)
  }

  /** No other user's last record of p comes after record k. */
  ghost predicate Unbeaten(history: seq<Record>, k: nat, p: string) {
    OwnLast(history, k, p) && forall m :: OwnLast(history, m, p) ==> !Beats(history, m, k)
  }

  lemma OwnLastIsInFile(users: nat, history: seq<Record>, k: nat, p: string)
    requires OwnLast(history, k, p) && history[k].user < users
    ensures var file := Files(users, history)[history[k].user]; p in file && file[p] == EntryOf(history, k, p)
  {
    var u := history[k].user;
    RecordedIsInFile(users, history, k, p);
    var own := FileIsLastRecord(users, history, u, p);
    NothingLater(history, own, k, u, p);
    assert own == k;
  }

  /** The merge holds what the one unbeaten record of a register wrote. */
  lemma MergedIsUnbeaten(users: nat, history: seq<Record>, merged: Journal, p: string) returns (m: nat)
    requires forall i :: 0 <= i < |history| ==> history[i].user < users
    requires IsMerge(Files(users, history), merged) && p in merged
    ensures Unbeaten(history, m, p) && merged[p] == EntryOf(history, m, p)
  {
    hide IsMerge, Later;
    var files := Files(users, history);
    MergeIsLatest(files, merged, p);
    var i: nat :| IsLatestAt(files, p, merged[p], i);
    m := FileIsLastRecord(users, history, i, p);
    forall k: nat | OwnLast(history, k, p) ensures !Beats(history, k, m) {
      OwnLastIsInFile(users, history, k, p);
      assert p in files[history[k].user];
    }
  }

  lemma MergeIsLatest(files: seq<Journal>, merged: Journal, p: string)
    requires IsMerge(files, merged)
    ensures p in merged ==> IsLatest(files, p, merged[p])
    ensures p in merged <==> Anywhere(files, p)
  {
  }

  lemma OneUnbeaten(history: seq<Record>, k: nat, m: nat, p: string)
    requires Unbeaten(history, k, p) && Unbeaten(history, m, p)
    ensures k == m
  {
    assert !Beats(history, k, m) && !Beats(history, m, k);
    NothingLater(history, k, m, history[k].user, p);
    NothingLater(history, m, k, history[k].user, p);
  }

  /**
   * The merge holds what a register's last record wrote exactly when no other user's last record of it
   * has a greater stamp, or an equal one in a later file; or when the one that has wrote just the same.
   */
  lemma MergedIsTheLastWriteExactly(users: nat, history: seq<Record>, merged: Journal, p: string, k: nat)
    requires forall i :: 0 <= i < |history| ==> history[i].user < users
    requires IsMerge(Files(users, history), merged)
    requires k < |history| && p in history[k].written && forall m :: k < m < |history| ==> p !in history[m].written
    ensures p in merged
    ensures Unbeaten(history, k, p) ==> merged[p] == EntryOf(history, k, p)
    ensures merged[p] == EntryOf(history, k, p) <==> exists m :: Unbeaten(history, m, p) && EntryOf(history, m, p) == EntryOf(history, k, p)
  {
    hide IsMerge, Beats;
    var files := Files(users, history);
    assert OwnLast(history, k, p);
    OwnLastIsInFile(users, history, k, p);
    MergeIsLatest(files, merged, p);
    assert Anywhere(files, p);
    var m := MergedIsUnbeaten(users, history, merged, p);
    forall n | Unbeaten(history, n, p) ensures n == m {
      OneUnbeaten(history, m, n, p);
    }
  }

  /** Stamps that rise from user to user over the records of one register keep its last record unbeaten. */
  lemma RisingIsUnbeaten(history: seq<Record>, p: string, k: nat)
    requires k < |history| && p in history[k].written && forall m :: k < m < |history| ==> p !in history[m].written
    requires forall i :: 0 <= i < k && p in history[i].written && history[i].user != history[k].user ==> history[i].at < history[k].at
    ensures Unbeaten(history, k, p)
  {
    forall m: nat | OwnLast(history, m, p) ensures !Beats(history, m, k) {
      assert m <= k;
      if history[m].user == history[k].user {
        NothingLater(history, m, k, history[k].user, p);
      }
    }
  }

  /** What is in the merge was recorded. */
  lemma MergedWasRecorded(users: nat, history: seq<Record>, merged: Journal, p: string) returns (k: nat)
    requires IsMerge(Files(users, history), merged) && p in merged
    ensures WrittenBy(history, k, p, merged[p])
  {
    assert IsLatest(Files(users, history), p, merged[p]);
    var i: nat :| IsLatestAt(Files(users, history), p, merged[p], i);
    k := FileIsLastRecord(users, history, i, p);
  }

  /**
   * A write overtaken by an earlier one: recorded under an earlier stamp, the clock having been set
   * back, or under the same stamp in an earlier file.
   */
  lemma OvertakenWrite(users: nat, earlier: Record, later: Record, p: string, merged: Journal)
    requires earlier.user < users && later.user < users && earlier.user != later.user
    requires p in earlier.written && p in later.written && earlier.written[p] != later.written[p]
    requires later.at < earlier.at || (later.at == earlier.at && later.user < earlier.user)
    requires IsMerge(Files(users, [earlier, later]), merged)
    ensures p in merged && merged[p] == Stamped(earlier.written[p], earlier.at)
  {
    var history := [earlier, later];
    assert history[0] == earlier && history[1] == later;
    MergedIsTheLastWriteExactly(users, history, merged, p, 1);
    assert OwnLast(history, 0, p) && OwnLast(history, 1, p);
    var m := MergedIsUnbeaten(users, history, merged, p);
    assert Beats(history, 0, 1);
  }
}
