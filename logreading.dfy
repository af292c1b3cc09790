/**
 * The log reader (agents/log_reader.py): a window over the latest minutes of
 * each CSV file, a cursor that returns only rows newer than the last read, and
 * the cache of known anomalies.
 *
 * A CSV file is what pandas makes of it: a sequence of rows, each with an
 * integer timestamp in seconds, or `Unreadable` when reading or parsing it
 * raises.
 */
module LogReading {
  import opened Wrappers
  import opened Records

  datatype LogRow = LogRow(time: int, fields: Record)

  datatype Content = Table(rows: seq<LogRow>) | Unreadable

  datatype LogFile = LogFile(name: string, content: Content)

  /** The file both loops skip by name. */
  const CacheName := "log_cache.json"

  /** A file the loops look into: not the cache, and readable. */
  predicate Counted(f: LogFile) {
    f.name != CacheName && f.content.Table?
  }

  function MinTime(rows: seq<LogRow>): (m: int)
    requires |rows| > 0
    ensures forall r :: r in rows ==> m <= r.time
    ensures exists r :: r in rows && r.time == m
  {
    if |rows| == 1 then rows[0].time
    else
      var rest := MinTime(rows[1..]);
      assert forall r :: r in rows[1..] ==> r in rows;
      if rows[0].time <= rest then rows[0].time else rest
  }

  function MaxTime(rows: seq<LogRow>): (m: int)
    requires |rows| > 0
    ensures forall r :: r in rows ==> r.time <= m
    ensures exists r :: r in rows && r.time == m
  {
    if |rows| == 1 then rows[0].time
    else
      var rest := MaxTime(rows[1..]);
      assert forall r :: r in rows[1..] ==> r in rows;
      if rows[0].time >= rest then rows[0].time else rest
  }

  /** `df[df['timestamp'] > cutoff]`: the rows after the cutoff, in file order. */
  function Newer(rows: seq<LogRow>, cutoff: int): (r: seq<LogRow>)
    ensures |r| <= |rows|
    ensures forall x :: x in r <==> x in rows && x.time > cutoff
  {
    if rows == [] then []
    else (if rows[0].time > cutoff then [rows[0]] else []) + Newer(rows[1..], cutoff)
  }

  lemma AppendAssociative(a: seq<LogRow>, b: seq<LogRow>, c: seq<LogRow>)
    ensures (a + b) + c == a + (b + c)
  {
  }

  lemma {:induction false} NewerAppend(a: seq<LogRow>, b: seq<LogRow>, cutoff: int)
    ensures Newer(a + b, cutoff) == Newer(a, cutoff) + Newer(b, cutoff)
  {
    if a == [] {
      assert a + b == b;
    } else {
      assert (a + b)[1..] == a[1..] + b;
      NewerAppend(a[1..], b, cutoff);
    }
  }

  lemma {:induction false} NewerNone(rows: seq<LogRow>, cutoff: int)
    requires forall x :: x in rows ==> x.time <= cutoff
    ensures Newer(rows, cutoff) == []
  {
    if rows != [] {
      assert rows[0] in rows;
      NewerNone(rows[1..], cutoff);
    }
  }

  // ---------------------------------------------------------------------------
  // get_recent_logs
  // ---------------------------------------------------------------------------

  /** The rows of one file within `minutes` of that file's own latest timestamp. */
  function Window(rows: seq<LogRow>, minutes: int): (w: seq<LogRow>)
    ensures rows == [] ==> w == []
    ensures rows != [] ==> forall x :: x in w <==> x in rows && x.time > MaxTime(rows) - minutes * 60
    ensures rows != [] && minutes > 0 ==> exists x :: x in w && x.time == MaxTime(rows)
  {
    if rows == [] then [] else Newer(rows, MaxTime(rows) - minutes * 60)
  }

  /** The loop of `get_recent_logs` from accumulated rows `acc`; None when a file raises. */
  function Recent(acc: seq<LogRow>, files: seq<LogFile>, minutes: int): (r: Option<seq<LogRow>>)
    decreases |files|
    ensures r.Some? ==> |acc| <= |r.value| && r.value[..|acc|] == acc
  {
    if files == [] then Some(acc)
    else if files[0].name == CacheName then Recent(acc, files[1..], minutes)
    else match files[0].content
      case Unreadable => None
      case Table(rows) => Recent(acc + Window(rows, minutes), files[1..], minutes)
  }

  /** One iteration of the loop of `get_recent_logs`. */
  lemma RecentUnfold(acc: seq<LogRow>, files: seq<LogFile>, minutes: int)
    requires files != []
    ensures files[0].name == CacheName ==> Recent(acc, files, minutes) == Recent(acc, files[1..], minutes)
    ensures files[0].name != CacheName && files[0].content.Unreadable? ==> Recent(acc, files, minutes) == None
    ensures files[0].name != CacheName && files[0].content.Table? ==>
      Recent(acc, files, minutes) == Recent(acc + Window(files[0].content.rows, minutes), files[1..], minutes)
  {
  }

  /** The windows of the counted files, in file order. */
  function Windows(files: seq<LogFile>, minutes: int): seq<LogRow> {
    if files == [] then []
    else (if Counted(files[0]) then Window(files[0].content.rows, minutes) else []) + Windows(files[1..], minutes)
  }

  /** What `get_recent_logs` returns: [] when any file raises. */
  function RecentLogs(files: seq<LogFile>, minutes: int): (logs: seq<LogRow>)
    ensures (exists j :: 0 <= j < |files| && files[j].name != CacheName && files[j].content.Unreadable?) ==> logs == []
    ensures (forall j :: 0 <= j < |files| && files[j].name != CacheName ==> files[j].content.Table?) ==>
      logs == Windows(files, minutes)
  {
    RecentIsWindows([], files, minutes);
    assert [] + Windows(files, minutes) == Windows(files, minutes);
    match Recent([], files, minutes)
    case None => []
    case Some(all) => all
  }

  /** The loop fails exactly when some non-cache file is unreadable. */
  lemma {:induction false} RecentFails(acc: seq<LogRow>, files: seq<LogFile>, minutes: int)
    ensures Recent(acc, files, minutes).None? <==>
      exists j :: 0 <= j < |files| && files[j].name != CacheName && files[j].content.Unreadable?
    decreases |files|
  {
    if files != [] {
      var f := files[0];
      if f.name == CacheName {
        RecentFails(acc, files[1..], minutes);
      } else if f.content.Table? {
        RecentFails(acc + Window(f.content.rows, minutes), files[1..], minutes);
      }
      if f.name == CacheName || f.content.Table? {
        // the witness for a failure past the head moves one place along
        forall j | 0 < j < |files| && files[j].name != CacheName && files[j].content.Unreadable?
          ensures 0 <= j - 1 < |files[1..]| && files[1..][j - 1] == files[j]
        {
        }
      }
    }
  }

  /** When the loop does not fail it appends every window, in file order, to what it had. */
  lemma {:induction false} RecentValue(acc: seq<LogRow>, files: seq<LogFile>, minutes: int)
    ensures Recent(acc, files, minutes).Some? ==> Recent(acc, files, minutes).value == acc + Windows(files, minutes)
    decreases |files|
  {
    if files == [] {
      assert acc + [] == acc;
    } else if files[0].name == CacheName {
      RecentValue(acc, files[1..], minutes);
      assert [] + Windows(files[1..], minutes) == Windows(files[1..], minutes);
    } else if files[0].content.Table? {
      var w := Window(files[0].content.rows, minutes);
      RecentValue(acc + w, files[1..], minutes);
      AppendAssociative(acc, w, Windows(files[1..], minutes));
    }
  }

  /** The loop fails exactly when some non-cache file is unreadable, and otherwise appends every window in file order. */
  lemma RecentIsWindows(acc: seq<LogRow>, files: seq<LogFile>, minutes: int)
    ensures Recent(acc, files, minutes).None? <==>
      exists j :: 0 <= j < |files| && files[j].name != CacheName && files[j].content.Unreadable?
    ensures Recent(acc, files, minutes).Some? ==> Recent(acc, files, minutes).value == acc + Windows(files, minutes)
  {
    RecentFails(acc, files, minutes);
    RecentValue(acc, files, minutes);
  }

  /** A row lies in the windows exactly when some counted file holds it within `minutes` of that file's latest timestamp. */
  lemma {:induction false} WindowsMembers(files: seq<LogFile>, minutes: int, x: LogRow)
    ensures x in Windows(files, minutes) <==>
      exists j :: 0 <= j < |files| && Counted(files[j]) && files[j].content.rows != []
        && x in files[j].content.rows && x.time > MaxTime(files[j].content.rows) - minutes * 60
  {
    if files != [] {
      WindowsMembers(files[1..], minutes, x);
      if x in Windows(files[1..], minutes) {
        var j :| 0 <= j < |files[1..]| && Counted(files[1..][j]) && files[1..][j].content.rows != []
          && x in files[1..][j].content.rows && x.time > MaxTime(files[1..][j].content.rows) - minutes * 60;
        assert files[1..][j] == files[j + 1];
      }
      if exists j :: 0 <= j < |files| && Counted(files[j]) && files[j].content.rows != []
          && x in files[j].content.rows && x.time > MaxTime(files[j].content.rows) - minutes * 60 {
        var j :| 0 <= j < |files| && Counted(files[j]) && files[j].content.rows != []
          && x in files[j].content.rows && x.time > MaxTime(files[j].content.rows) - minutes * 60;
        if j > 0 {
          assert files[1..][j - 1] == files[j];
        }
      }
    }
  }

  /**
   * Every row `get_recent_logs` returns is a row of some counted, non-empty file,
   * newer than that file's latest timestamp less `minutes`; when no file raises
   * and `minutes > 0`, every counted non-empty file contributes its latest row.
   */
  lemma RecentLogsWithinWindow(files: seq<LogFile>, minutes: int)
    ensures forall x :: x in RecentLogs(files, minutes) ==>
      exists j :: 0 <= j < |files| && Counted(files[j]) && files[j].content.rows != []
        && x in files[j].content.rows && x.time > MaxTime(files[j].content.rows) - minutes * 60
    ensures (forall j :: 0 <= j < |files| && files[j].name != CacheName ==> files[j].content.Table?) && minutes > 0 ==>
      forall j :: 0 <= j < |files| && Counted(files[j]) && files[j].content.rows != [] ==>
        exists x :: x in RecentLogs(files, minutes) && x in files[j].content.rows && x.time == MaxTime(files[j].content.rows)
  {
    RecentIsWindows([], files, minutes);
    var all := RecentLogs(files, minutes);
    if Recent([], files, minutes).Some? {
      assert all == Windows(files, minutes);
      forall x | x in all
        ensures exists j :: (0 <= j < |files| && Counted(files[j]) && files[j].content.rows != []
                             && x in files[j].content.rows && x.time > MaxTime(files[j].content.rows) - minutes * 60)
      {
        WindowsMembers(files, minutes, x);
      }
      if minutes > 0 {
        forall j | 0 <= j < |files| && Counted(files[j]) && files[j].content.rows != []
          ensures exists x :: x in all && x in files[j].content.rows && x.time == MaxTime(files[j].content.rows)
        {
          var rows := files[j].content.rows;
          var w := Window(rows, minutes);
          assert exists x :: x in w && x.time == MaxTime(rows);
          var x :| x in w && x.time == MaxTime(rows);
          WindowsMembers(files, minutes, x);
        }
      }
    }
  }

  // ---------------------------------------------------------------------------
  // read_new_logs
  // ---------------------------------------------------------------------------

  /** The loop state of `read_new_logs`: the cursor and the rows so far, or the cursor when a file raised. */
  datatype ScanState = Scanning(cursor: Option<int>, got: seq<LogRow>) | Failed(cursor: Option<int>)

  /** One file of the loop: an unset cursor starts at the first non-empty file's earliest row. */
  function Visit(cursor: Option<int>, got: seq<LogRow>, f: LogFile): ScanState {
    if f.name == CacheName then Scanning(cursor, got)
    else match f.content
      case Unreadable => Failed(cursor)
      case Table(rows) =>
        if rows == [] then Scanning(cursor, got)
        else
          var c := if cursor.None? then MinTime(rows) else cursor.value;
          Scanning(Some(c), got + Newer(rows, c))
  }

  /** The rest of the loop from state `s`; it stops at the first file that raises. */
  function Scan(s: ScanState, files: seq<LogFile>): ScanState
    decreases |files|
  {
    if files == [] || s.Failed? then s
    else Scan(Visit(s.cursor, s.got, files[0]), files[1..])
  }

  /** The earliest timestamp of the first non-empty file, unless a file raises before it. */
  function FirstStart(files: seq<LogFile>): Option<int> {
    if files == [] then None
    else if files[0].name == CacheName then FirstStart(files[1..])
    else match files[0].content
      case Unreadable => None
      case Table(rows) => if rows == [] then FirstStart(files[1..]) else Some(MinTime(rows))
  }

  /** Every row of the counted files, in file order. */
  function AllRows(files: seq<LogFile>): seq<LogRow> {
    if files == [] then []
    else (if Counted(files[0]) then files[0].content.rows else []) + AllRows(files[1..])
  }

  predicate Raises(files: seq<LogFile>) {
    exists j :: 0 <= j < |files| && files[j].name != CacheName && files[j].content.Unreadable?
  }

  /** The loop fails exactly when some file raises. */
  lemma {:induction false} ScanFails(cursor: Option<int>, got: seq<LogRow>, files: seq<LogFile>)
    ensures Scan(Scanning(cursor, got), files).Failed? <==> Raises(files)
    decreases |files|
  {
    if files != [] {
      var next := Visit(cursor, got, files[0]);
      if next.Scanning? {
        ScanFails(next.cursor, next.got, files[1..]);
        forall j | 0 < j < |files| && files[j].name != CacheName && files[j].content.Unreadable?
          ensures files[1..][j - 1] == files[j]
        {
        }
        assert files[0].name == CacheName || !files[0].content.Unreadable?;
      } else {
        assert files[0].name != CacheName && files[0].content.Unreadable?;
      }
    }
  }

  /** A set cursor is never moved by the loop; an unset one becomes `FirstStart` unless a file raises. */
  lemma {:induction false} ScanCursor(cursor: Option<int>, got: seq<LogRow>, files: seq<LogFile>)
    ensures var r := Scan(Scanning(cursor, got), files);
      && (cursor.Some? ==> r.cursor == cursor)
      && (cursor.None? && r.Scanning? ==> r.cursor == FirstStart(files))
    decreases |files|
  {
    if files != [] {
      var next := Visit(cursor, got, files[0]);
      if next.Scanning? {
        ScanCursor(next.cursor, next.got, files[1..]);
      }
    }
  }

  /** One file either starts and uses the cursor, or leaves the state as it was. */
  lemma VisitRows(cursor: Option<int>, got: seq<LogRow>, f: LogFile)
    requires Visit(cursor, got, f).Scanning?
    ensures var next, head := Visit(cursor, got, f), if Counted(f) then f.content.rows else [];
      && (head != [] ==> next.cursor.Some? && next.got == got + Newer(head, next.cursor.value))
      && (head == [] ==> next == Scanning(cursor, got))
  {
  }

  /** Without a failure, and once the cursor is set, the loop gathers exactly the rows of all files newer than it. */
  lemma {:induction false} ScanRows(cursor: Option<int>, got: seq<LogRow>, files: seq<LogFile>)
    requires Scan(Scanning(cursor, got), files).Scanning?
    requires Scan(Scanning(cursor, got), files).cursor.Some?
    ensures var r := Scan(Scanning(cursor, got), files);
      r.got == got + Newer(AllRows(files), r.cursor.value)
    decreases |files|
  {
    var r := Scan(Scanning(cursor, got), files);
    var c := r.cursor.value;
    if files == [] {
      NewerNone([], c);
      assert got + [] == got;
    } else {
      var f := files[0];
      var next := Visit(cursor, got, f);
      assert r == Scan(next, files[1..]);
      ScanRows(next.cursor, next.got, files[1..]);
      ScanCursor(next.cursor, next.got, files[1..]);
      var head := if Counted(f) then f.content.rows else [];
      assert AllRows(files) == head + AllRows(files[1..]);
      VisitRows(cursor, got, f);
      NewerAppend(head, AllRows(files[1..]), c);
      if head == [] {
        NewerNone(head, c);
        assert next.got == got + Newer(head, c);
      } else {
        assert next.cursor == r.cursor;
      }
      var mine, theirs := Newer(head, c), Newer(AllRows(files[1..]), c);
      assert r.got == (got + mine) + theirs;
      AppendAssociative(got, mine, theirs);
    }
  }

  /** A loop that never sets the cursor saw no rows at all. */
  lemma {:induction false} ScanNoRows(cursor: Option<int>, got: seq<LogRow>, files: seq<LogFile>)
    requires Scan(Scanning(cursor, got), files).Scanning?
    requires Scan(Scanning(cursor, got), files).cursor.None?
    ensures Scan(Scanning(cursor, got), files).got == got && AllRows(files) == []
    decreases |files|
  {
    if files != [] {
      var f := files[0];
      var next := Visit(cursor, got, f);
      assert Scan(Scanning(cursor, got), files) == Scan(next, files[1..]);
      ScanCursor(next.cursor, next.got, files[1..]);
      ScanNoRows(next.cursor, next.got, files[1..]);
      VisitRows(cursor, got, f);
      var head := if Counted(f) then f.content.rows else [];
      assert AllRows(files) == head + AllRows(files[1..]);
    }
  }

  /** The three facts about the loop together. */
  lemma ScanMeaning(cursor: Option<int>, got: seq<LogRow>, files: seq<LogFile>)
    ensures var r := Scan(Scanning(cursor, got), files);
      && (r.Failed? <==> Raises(files))
      && (cursor.Some? ==> r.cursor == cursor)
      && (cursor.None? && r.Scanning? ==> r.cursor == FirstStart(files))
      && (r.Scanning? && r.cursor.Some? ==> r.got == got + Newer(AllRows(files), r.cursor.value))
      && (r.Scanning? && r.cursor.None? ==> r.got == got && AllRows(files) == [])
  {
    ScanFails(cursor, got, files);
    ScanCursor(cursor, got, files);
    var r := Scan(Scanning(cursor, got), files);
    if r.Scanning? && r.cursor.Some? {
      ScanRows(cursor, got, files);
    } else if r.Scanning? {
      ScanNoRows(cursor, got, files);
    }
  }

  /** The cursor after `read_new_logs`, and what it returns. */
  datatype ReadOutcome = ReadOutcome(cursor: Option<int>, logs: seq<LogRow>)

  function ReadNew(cursor: Option<int>, files: seq<LogFile>): (r: ReadOutcome)
    ensures Raises(files) ==> r.logs == []
    ensures r.logs == [] ==> r.cursor == Scan(Scanning(cursor, []), files).cursor
    ensures r.logs != [] ==> r.cursor == Some(MaxTime(r.logs))
  {
    ScanMeaning(cursor, [], files);
    match Scan(Scanning(cursor, []), files)
    case Failed(c) => ReadOutcome(c, [])
    case Scanning(c, got) => if got == [] then ReadOutcome(c, []) else ReadOutcome(Some(MaxTime(got)), got)
  }

  /**
   * `read_new_logs` returns exactly the rows of all files strictly newer than
   * the cursor it starts from (the old one, or the first non-empty file's
   * earliest row); rows equal to the cursor never come back. The cursor never
   * decreases, strictly increases when rows are returned, and an initialised
   * cursor survives a failure.
   */
  lemma ReadNewMeaning(cursor: Option<int>, files: seq<LogFile>)
    ensures var r := ReadNew(cursor, files); var start := if cursor.Some? then cursor else FirstStart(files);
      && (!Raises(files) && start.Some? ==> r.logs == Newer(AllRows(files), start.value))
      && (!Raises(files) && start.None? ==> r.logs == [] && AllRows(files) == [])
      && (forall x :: x in r.logs ==> start.Some? && x.time > start.value)
      && (cursor.Some? ==> r.cursor.Some? && r.cursor.value >= cursor.value)
      && (cursor.Some? && r.logs != [] ==> r.cursor.value > cursor.value)
      && (Raises(files) && cursor.Some? ==> r.cursor == cursor)
  {
    ScanMeaning(cursor, [], files);
    var r := ReadNew(cursor, files);
    var s := Scan(Scanning(cursor, []), files);
    if s.Scanning? && s.cursor.Some? {
      assert s.got == Newer(AllRows(files), s.cursor.value);
    }
    if r.logs != [] && cursor.Some? {
      var x :| x in r.logs && x.time == MaxTime(r.logs);
    }
  }

  /** With the files unchanged, a second `read_new_logs` returns nothing. */
  lemma SecondReadIsEmpty(cursor: Option<int>, files: seq<LogFile>)
    ensures ReadNew(ReadNew(cursor, files).cursor, files).logs == []
  {
    var first := ReadNew(cursor, files);
    ReadNewMeaning(cursor, files);
    ReadNewMeaning(first.cursor, files);
    ScanMeaning(cursor, [], files);
    if !Raises(files) && first.cursor.Some? {
      var c := first.cursor.value;
      var start := if cursor.Some? then cursor else FirstStart(files);
      if first.logs != [] {
        var z :| z in first.logs && z.time == c;
        assert c > start.value;
      }
      forall y | y in AllRows(files)
        ensures y.time <= c
      {
        assert y.time > start.value ==> y in first.logs;
      }
      NewerNone(AllRows(files), c);
    }
  }

  // ---------------------------------------------------------------------------
  // The anomaly cache and the reader object
  // ---------------------------------------------------------------------------

  datatype KnownAnomaly = KnownAnomaly(timestamp: Field, service: Field, message: Field)

  /** log_cache.json: absent, not a JSON object with a `known_anomalies` list, or its contents. */
  datatype CacheFile = CacheMissing | CacheGarbled | Cache(lastPosition: int, knownAnomalies: seq<KnownAnomaly>)

  /** `_initialize_cache`: only a missing file is created. */
  function InitialCache(file: CacheFile): (r: CacheFile)
    ensures file.CacheMissing? ==> r == Cache(0, [])
    ensures !file.CacheMissing? ==> r == file
  {
    if file.CacheMissing? then Cache(0, []) else file
  }

  /**
   * The cache after `mark_anomaly(entry)`: one entry appended; a missing key
   * or an unreadable cache changes nothing; a Timestamp among the three values
   * makes `json.dump` raise after the file was opened for writing, leaving it
   * garbled.
   */
  function Marked(cache: CacheFile, entry: Record): (r: CacheFile)
    ensures !cache.Cache? || !("timestamp" in entry && "service" in entry && "message" in entry) ==> r == cache
    ensures r.Cache? && r != cache ==>
      && cache.Cache? && r.lastPosition == cache.lastPosition
      && r.knownAnomalies == cache.knownAnomalies
           + [KnownAnomaly(entry["timestamp"], entry["service"], entry["message"])]
    ensures cache.Cache? && "timestamp" in entry && "service" in entry && "message" in entry ==>
      (r.Cache? <==> !entry["timestamp"].Time? && !entry["service"].Time? && !entry["message"].Time?)
    ensures (&& cache.Cache? && "timestamp" in entry && "service" in entry && "message" in entry
             && (entry["timestamp"].Time? || entry["service"].Time? || entry["message"].Time?)) ==>
      r == CacheGarbled
    ensures (&& cache.Cache? && "timestamp" in entry && "service" in entry && "message" in entry
             && !entry["timestamp"].Time? && !entry["service"].Time? && !entry["message"].Time?) ==>
      r == Cache(cache.lastPosition,
                 cache.knownAnomalies + [KnownAnomaly(entry["timestamp"], entry["service"], entry["message"])])
    ensures r.Cache? && r != cache ==> |r.knownAnomalies| == |cache.knownAnomalies| + 1
  {
    if !cache.Cache? || !("timestamp" in entry && "service" in entry && "message" in entry) then cache
    else
      var added := KnownAnomaly(entry["timestamp"], entry["service"], entry["message"]);
      if added.timestamp.Time? || added.service.Time? || added.message.Time? then CacheGarbled
      else Cache(cache.lastPosition, cache.knownAnomalies + [added])
  }

  class LogReader {
    var lastReadTime: Option<int>
    var cache: CacheFile

    constructor(existing: CacheFile)
      ensures lastReadTime == None && cache == InitialCache(existing)
    {
      lastReadTime := None;
      cache := InitialCache(existing);
    }

    /** `get_recent_logs`: the window of each file, in file order; [] when a file raises. */
    method GetRecentLogs(files: seq<LogFile>, minutes: int) returns (logs: seq<LogRow>)
      ensures logs == RecentLogs(files, minutes)
    {
      var all: seq<LogRow> := [];
      for i := 0 to |files|
        invariant Recent([], files, minutes) == Recent(all, files[i..], minutes)
      {
        assert files[i..][1..] == files[i + 1..];
        RecentUnfold(all, files[i..], minutes);
        var f := files[i];
        if f.name == CacheName {
          continue;
        }
        match f.content
        case Unreadable =>
          return [];
        case Table(rows) =>
          if rows == [] {
            assert all + [] == all;
            continue;
          }
          var latest := MaxTime(rows);
          var recent := Newer(rows, latest - minutes * 60);
          assert recent == Window(rows, minutes);
          if recent != [] {
            all := all + recent;
          } else {
            assert all + [] == all;
          }
      }
      return all;
    }

    /** `read_new_logs`: the rows newer than the cursor, which then moves to the newest row returned. */
    method ReadNewLogs(files: seq<LogFile>) returns (logs: seq<LogRow>)
      modifies this
      ensures ReadOutcome(lastReadTime, logs) == ReadNew(old(lastReadTime), files)
      ensures cache == old(cache)
    {
      var newLogs: seq<LogRow> := [];
      for i := 0 to |files|
        invariant Scan(Scanning(old(lastReadTime), []), files) == Scan(Scanning(lastReadTime, newLogs), files[i..])
        invariant cache == old(cache)
      {
        assert files[i..][1..] == files[i + 1..];
        assert newLogs + [] == newLogs;
        var f := files[i];
        if f.name == CacheName {
          continue;
        }
        match f.content
        case Unreadable =>
          return [];
        case Table(rows) =>
          if rows == [] {
            continue;
          }
          if lastReadTime.None? {
            lastReadTime := Some(MinTime(rows));
          }
          var newRecords := Newer(rows, lastReadTime.value);
          if newRecords != [] {
            newLogs := newLogs + newRecords;
          }
      }
      if newLogs != [] {
        lastReadTime := Some(MaxTime(newLogs));
      }
      return newLogs;
    }

    /** `mark_anomaly`: appends the entry's timestamp, service and message to the known anomalies. */
    method MarkAnomaly(entry: Record)
      modifies this
      ensures cache == Marked(old(cache), entry) && lastReadTime == old(lastReadTime)
    {
      if !cache.Cache? {
        return;
      }
      if !("timestamp" in entry && "service" in entry && "message" in entry) {
        return;
      }
      var added := KnownAnomaly(entry["timestamp"], entry["service"], entry["message"]);
      if added.timestamp.Time? || added.service.Time? || added.message.Time? {
        cache := CacheGarbled;
        return;
      }
      cache := Cache(cache.lastPosition, cache.knownAnomalies + [added]);
    }
  }
}
