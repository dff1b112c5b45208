/**
 * The plugin log and the admin-notice queue. Both live in the options
 * table (`syncfire_logs` and `syncfire_admin_notices`); here they are the
 * two list fields of a `Logger`. Timestamps are integers: the moment
 * `current_time`/`time()` stand for is an input of each call.
 */
module Logger {
  import opened Php
  import Sorting

  const LevelInfo := "info"
  const LevelWarning := "warning"
  const LevelError := "error"
  const LevelSuccess := "success"

  /** The log keeps this many entries. */
  const MaxLogs := 100

  /** Notices older than this many seconds are not shown. */
  const NoticeLifetime := 86400

  /** One `{time, message, level}` log entry; `time` is its `strtotime` value. */
  datatype LogEntry = LogEntry(time: int, message: string, level: string)

  /** One `{message, level, time}` admin notice. */
  datatype Notice = Notice(message: string, level: string, time: int)

  // ---------------------------------------------------------------------
  // store_log
  // ---------------------------------------------------------------------

  /** `array_slice($logs, -100)` once the list is longer than 100. */
  function Capped(logs: seq<LogEntry>): seq<LogEntry> {
    if |logs| > MaxLogs then logs[|logs| - MaxLogs..] else logs
  }

  /**
   * After an append and the cap, the list holds the newest entry last and
   * at most 100 entries, which are the most recent ones in their order.
   */
  lemma CappedKeepsNewest(logs: seq<LogEntry>, entry: LogEntry)
    ensures var r := Capped(logs + [entry]);
      |r| == (if |logs| + 1 > MaxLogs then MaxLogs else |logs| + 1) &&
      r[|r| - 1] == entry &&
      r == (logs + [entry])[|logs| + 1 - |r|..]
  {
  }

  /** A short list is kept whole; the cap never drops anything from it. */
  lemma CappedShort(logs: seq<LogEntry>)
    requires |logs| <= MaxLogs
    ensures Capped(logs) == logs
  {
  }

  // ---------------------------------------------------------------------
  // get_logs
  // ---------------------------------------------------------------------

  /** `array_filter` by level, when a level is given. */
  function OfLevel(logs: seq<LogEntry>, level: Option<string>): seq<LogEntry>
    decreases |logs|
  {
    if logs == [] then []
    else
      var rest := OfLevel(logs[1..], level);
      if level.None? || logs[0].level == level.value then [logs[0]] + rest else rest
  }

  /** The filter keeps exactly the entries of the level, each once per occurrence. */
  lemma {:induction false} OfLevelMembers(logs: seq<LogEntry>, level: Option<string>)
    ensures forall x :: x in OfLevel(logs, level) <==> x in logs && (level.None? || x.level == level.value)
    ensures level.None? ==> OfLevel(logs, level) == logs
    ensures |OfLevel(logs, level)| <= |logs|
    decreases |logs|
  {
    if logs != [] {
      OfLevelMembers(logs[1..], level);
      assert logs == [logs[0]] + logs[1..];
    }
  }

  /** The `usort` comparator `strtotime($b) - strtotime($a)`, as "may stay ahead". */
  function NewestFirst(): (LogEntry, LogEntry) -> bool {
    (a: LogEntry, b: LogEntry) => b.time - a.time <= 0
  }

  lemma NewestFirstTotalPreorder()
    ensures Sorting.TotalPreorder(NewestFirst())
  {
  }

  /** `get_logs($limit, $level)` over the stored list. */
  function Query(logs: seq<LogEntry>, limit: int, level: Option<string>): seq<LogEntry> {
    var sorted := Sorting.Sort(OfLevel(logs, level), NewestFirst());
    if limit > 0 && |sorted| > limit then sorted[..limit] else sorted
  }

  /**
   * The query returns stored entries of the requested level only, newest
   * first, at most `limit` of them when `limit > 0` and all of them
   * otherwise.
   */
  lemma QueryProperties(logs: seq<LogEntry>, limit: int, level: Option<string>)
    ensures var r := Query(logs, limit, level);
      (forall x :: x in r ==> x in logs) &&
      (level.Some? ==> forall x :: x in r ==> x.level == level.value) &&
      (forall i, j :: 0 <= i < j < |r| ==> r[i].time >= r[j].time) &&
      (limit > 0 ==> |r| == (if |OfLevel(logs, level)| > limit then limit else |OfLevel(logs, level)|)) &&
      (limit <= 0 ==> multiset(r) == multiset(OfLevel(logs, level)))
  {
    var f := OfLevel(logs, level);
    var sorted := Sorting.Sort(f, NewestFirst());
    OfLevelMembers(logs, level);
    NewestFirstTotalPreorder();
    Sorting.SortSorted(f, NewestFirst());
    Sorting.SortPermutation(f, NewestFirst());
    var r := Query(logs, limit, level);
    forall x | x in r ensures x in f {
      assert x in sorted;
      assert x in multiset(sorted);
    }
    forall i, j | 0 <= i < j < |r| ensures r[i].time >= r[j].time {
      assert r[i] == sorted[i] && r[j] == sorted[j];
      assert NewestFirst()(sorted[i], sorted[j]);
    }
  }

  /** A head of a newest-first list is drawn from it, and nothing after the head is newer than anything in it. */
  lemma HeadKeepsNewest(sorted: seq<LogEntry>, n: nat)
    requires n <= |sorted| && Sorting.Sorted(sorted, NewestFirst())
    ensures multiset(sorted[..n]) <= multiset(sorted)
    ensures forall x: LogEntry, y: LogEntry :: x in sorted[..n] && y in multiset(sorted) - multiset(sorted[..n]) ==> y.time <= x.time
  {
    var r, rest := sorted[..n], sorted[n..];
    assert sorted == r + rest;
    assert multiset(sorted) - multiset(r) == multiset(rest);
    forall x: LogEntry, y: LogEntry | x in r && y in multiset(sorted) - multiset(r) ensures y.time <= x.time {
      assert y in rest;
      var k :| 0 <= k < n && r[k] == x;
      var d :| 0 <= d < |rest| && rest[d] == y;
      assert NewestFirst()(sorted[k], sorted[n + d]);
    }
  }

  /**
   * The slice keeps the newest entries: the result is the head of the
   * sorted entries of the level, drawn from them, and no entry the limit
   * drops is newer than an entry it keeps.
   */
  lemma QueryKeepsNewest(logs: seq<LogEntry>, limit: int, level: Option<string>)
    ensures var f := OfLevel(logs, level);
      var r := Query(logs, limit, level);
      r == Sorting.Sort(f, NewestFirst())[..|r|] &&
      multiset(r) <= multiset(f) &&
      (forall x: LogEntry, y: LogEntry :: x in r && y in multiset(f) - multiset(r) ==> y.time <= x.time)
  {
    var f := OfLevel(logs, level);
    var sorted := Sorting.Sort(f, NewestFirst());
    var r := Query(logs, limit, level);
    NewestFirstTotalPreorder();
    Sorting.SortSorted(f, NewestFirst());
    Sorting.SortPermutation(f, NewestFirst());
    assert r == sorted[..|r|];
    HeadKeepsNewest(sorted, |r|);
  }

  // ---------------------------------------------------------------------
  // display_admin_notices
  // ---------------------------------------------------------------------

  /** The notice's CSS class: the level's own class, `notice-info` for any other level. */
  function NoticeClass(level: string): (c: string)
    ensures c == "notice notice-success" <==> level == LevelSuccess
    ensures c == "notice notice-error" <==> level == LevelError
    ensures c == "notice notice-warning" <==> level == LevelWarning
    ensures c == "notice notice-info" <==> level != LevelSuccess && level != LevelError && level != LevelWarning
  {
    if level == LevelSuccess then "notice notice-success"
    else if level == LevelError then "notice notice-error"
    else if level == LevelWarning then "notice notice-warning"
    else "notice notice-info"
  }

  /** A notice is shown unless it is more than a day old. */
  predicate Fresh(n: Notice, now: int) {
    now - n.time <= NoticeLifetime
  }

  /** What the screen shows for the first `k` notices: `(class, message)` per fresh notice. */
  function Shown(notices: seq<Notice>, k: nat, now: int): seq<(string, string)>
    requires k <= |notices|
    decreases k
  {
    if k == 0 then []
    else
      var rest := Shown(notices, k - 1, now);
      var n := notices[k - 1];
      if Fresh(n, now) then rest + [(NoticeClass(n.level), n.message)] else rest
  }

  /** Exactly the fresh notices are shown, with their class and message. */
  lemma {:induction false} ShownMembers(notices: seq<Notice>, k: nat, now: int)
    requires k <= |notices|
    ensures forall i :: 0 <= i < k && Fresh(notices[i], now) ==>
      (NoticeClass(notices[i].level), notices[i].message) in Shown(notices, k, now)
    ensures forall p :: p in Shown(notices, k, now) ==>
      exists i :: 0 <= i < k && Fresh(notices[i], now) && p == (NoticeClass(notices[i].level), notices[i].message)
    ensures |Shown(notices, k, now)| <= k
    decreases k
  {
    if k > 0 {
      ShownMembers(notices, k - 1, now);
    }
  }

  /** The only screens that show notices are SyncFire's own. */
  predicate SyncFireScreen(screen: Option<string>) {
    screen.Some? && Contains(screen.value, "syncfire")
  }

  /** `SyncFire_Logger`: the stored log and the pending notices. */
  class Logger {
    var logs: seq<LogEntry>
    var notices: seq<Notice>

    constructor (logs: seq<LogEntry>, notices: seq<Notice>)
      ensures this.logs == logs && this.notices == notices
    {
      this.logs := logs;
      this.notices := notices;
    }

    /** `store_log`: append one entry, then keep the newest 100. */
    method StoreLog(message: string, level: string, time: int)
      modifies this
      ensures logs == Capped(old(logs) + [LogEntry(time, message, level)])
      ensures notices == old(notices)
    {
      var entries := logs + [LogEntry(time, message, level)];
      if |entries| > MaxLogs {
        entries := entries[|entries| - MaxLogs..];
      }
      logs := entries;
    }

    /** `add_admin_notice`: append one notice. */
    method AddAdminNotice(message: string, level: string, now: int)
      modifies this
      ensures notices == old(notices) + [Notice(message, level, now)]
      ensures logs == old(logs)
    {
      notices := notices + [Notice(message, level, now)];
    }

    /** `log`: always stored; a notice only when `display` is set. */
    method Log(message: string, level: string, display: bool, time: int, now: int)
      modifies this
      ensures logs == Capped(old(logs) + [LogEntry(time, message, level)])
      ensures notices == if display then old(notices) + [Notice(message, level, now)] else old(notices)
    {
      StoreLog(message, level, time);
      if display {
        AddAdminNotice(message, level, now);
      }
    }

    /**
     * `display_admin_notices`: off SyncFire screens nothing happens;
     * otherwise the fresh notices are shown in order and the queue is
     * emptied, stale ones included.
     */
    method DisplayAdminNotices(screen: Option<string>, now: int) returns (shown: seq<(string, string)>)
      modifies this
      ensures !SyncFireScreen(screen) ==> shown == [] && notices == old(notices)
      ensures SyncFireScreen(screen) ==> shown == Shown(old(notices), |old(notices)|, now) && notices == []
      ensures logs == old(logs)
    {
      shown := [];
      if screen.None? || !Contains(screen.value, "syncfire") {
        return;
      }
      var pending := notices;
      var i := 0;
      while i < |pending|
        invariant 0 <= i <= |pending|
        invariant shown == Shown(pending, i, now)
        modifies {}
      {
        var n := pending[i];
        if now - n.time > NoticeLifetime {
          i := i + 1;
          continue;
        }
        var cssClass := NoticeClass(n.level);
        shown := shown + [(cssClass, n.message)];
        i := i + 1;
      }
      notices := [];
    }

    /** `get_logs`. */
    function GetLogs(limit: int, level: Option<string>): (r: seq<LogEntry>)
      reads this
      ensures forall x :: x in r ==> x in logs
    {
      QueryProperties(logs, limit, level);
      Query(logs, limit, level)
    }

    /** `clear_logs`. */
    method ClearLogs()
      modifies this
      ensures logs == [] && notices == old(notices)
    {
      logs := [];
    }
  }
}
