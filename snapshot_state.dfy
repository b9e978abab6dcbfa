/**
  * The snapshot store of the dashboard (`SnapshotStateService`): every
  * accepted snapshot in arrival order, the timestamp of the last one, and
  * the latest snapshot plus eight rolling windows that are recomputed after
  * every change.
  */
module SnapshotState {
  import opened Util
  import opened MarketSnapshot

  /** The eight windows, in seconds: 1 s, 5 s, 15 s, 30 s, 1 min, 3 min, 5 min, 15 min. */
  const Timeframes: seq<nat> := [1, 5, 15, 30, 60, 180, 300, 900]

  /**
    * `allSnapshots.filter(s => s.timestamp >= now - seconds * 1000)`: the
    * snapshots of the last `seconds` seconds, in their stored order.
    */
  function Window(all: seq<Snapshot>, now: int, seconds: nat): (w: seq<Snapshot>)
    ensures |w| <= |all|
  {
    if |all| == 0 then []
    else
      var last := all[|all| - 1];
      var w := Window(all[..|all| - 1], now, seconds);
      if last.timestamp >= now - seconds * 1000 then w + [last] else w
  }

  /** A snapshot is in a window exactly when it is stored and recent enough. */
  lemma {:induction false} WindowMembers(all: seq<Snapshot>, now: int, seconds: nat, x: Snapshot)
    ensures x in Window(all, now, seconds) <==> x in all && x.timestamp >= now - seconds * 1000
  {
    if |all| > 0 {
      assert all == all[..|all| - 1] + [all[|all| - 1]];
      WindowMembers(all[..|all| - 1], now, seconds, x);
    }
  }

  predicate Chronological(all: seq<Snapshot>)
  {
    forall i, j | 0 <= i < j < |all| :: all[i].timestamp <= all[j].timestamp
  }

  /** A window over snapshots that are all older than its bound is empty. */
  lemma {:induction false} WindowEmpty(all: seq<Snapshot>, now: int, seconds: nat)
    requires forall k | 0 <= k < |all| :: all[k].timestamp < now - seconds * 1000
    ensures Window(all, now, seconds) == []
  {
    if |all| > 0 {
      WindowEmpty(all[..|all| - 1], now, seconds);
    }
  }

  /** When the snapshots arrive in time order, each window is a suffix of the store. */
  lemma {:induction false} WindowIsSuffix(all: seq<Snapshot>, now: int, seconds: nat)
    requires Chronological(all)
    ensures Window(all, now, seconds) == all[|all| - |Window(all, now, seconds)|..]
  {
    if |all| > 0 {
      var n := |all| - 1;
      var init := all[..n];
      var last := all[n];
      assert Chronological(init);
      var w := Window(init, now, seconds);
      if last.timestamp >= now - seconds * 1000 {
        WindowIsSuffix(init, now, seconds);
        assert Window(all, now, seconds) == w + [last];
        assert all[|all| - |w| - 1..] == init[|init| - |w|..] + [last];
      } else {
        assert forall k | 0 <= k < n :: init[k].timestamp <= all[n].timestamp;
        WindowEmpty(init, now, seconds);
      }
    }
  }

  /** A shorter window is the longer window filtered again: the windows nest. */
  lemma {:induction false} WindowNested(all: seq<Snapshot>, now: int, shorter: nat, longer: nat)
    requires shorter <= longer
    ensures Window(all, now, shorter) == Window(Window(all, now, longer), now, shorter)
  {
    if |all| > 0 {
      WindowNested(all[..|all| - 1], now, shorter, longer);
    }
  }

  /** `data.length ? data[data.length - 1].timestamp : 0` */
  function LastTimestampOf(all: seq<Snapshot>): int
  {
    if |all| == 0 then 0 else all[|all| - 1].timestamp
  }

  /** `allSnapshots[allSnapshots.length - 1] || null` */
  function LatestOf(all: seq<Snapshot>): Option<Snapshot>
  {
    if |all| == 0 then None else Some(all[|all| - 1])
  }

  /** Each published window holds the filter of the store for its timeframe at time `now`. */
  predicate Refreshed(all: seq<Snapshot>, now: int, windows: seq<seq<Snapshot>>)
  {
    |windows| == |Timeframes| &&
    forall i | 0 <= i < |Timeframes| :: windows[i] == Window(all, now, Timeframes[i])
  }

  class SnapshotStore {
    var allSnapshots: seq<Snapshot>
    var lastTimestamp: int
    /** The value of `latestSnapshot$`. */
    var latest: Option<Snapshot>
    /** The values of `last1Second$` … `last15Minutes$`, in the order of `Timeframes`. */
    var windows: seq<seq<Snapshot>>
    /** The clock reading of the last refresh. */
    ghost var refreshedAt: int

    /** The dedup timestamp is the last stored one, and the subjects reflect the store. */
    ghost predicate Valid()
      reads this
    {
      lastTimestamp == LastTimestampOf(allSnapshots) &&
      latest == LatestOf(allSnapshots) &&
      Refreshed(allSnapshots, refreshedAt, windows)
    }

    /** The state before the storage read completes: nothing stored, every subject at its initial value. */
    constructor ()
      ensures allSnapshots == [] && lastTimestamp == 0 && latest == None
      ensures windows == seq(|Timeframes|, _ => [])
      ensures Valid()
    {
      allSnapshots := [];
      lastTimestamp := 0;
      latest := None;
      windows := seq(|Timeframes|, _ => []);
      refreshedAt := 0;
    }

    /** The storage callback of `loadFromChromeStorage`: `analysisData` (absent means empty) replaces the store. */
    method Load(stored: Option<seq<Snapshot>>, now: int)
      modifies this
      ensures allSnapshots == (if stored.Some? then stored.value else [])
      ensures lastTimestamp == LastTimestampOf(allSnapshots)
      ensures latest == LatestOf(allSnapshots) && Refreshed(allSnapshots, now, windows)
      ensures Valid()
    {
      allSnapshots := if stored.Some? then stored.value else [];
      lastTimestamp := if |allSnapshots| > 0 then allSnapshots[|allSnapshots| - 1].timestamp else 0;
      RefreshSubjects(now);
    }

    /**
      * `handleNewSnapshot`: a snapshot whose timestamp equals the last
      * accepted one is ignored; any other is appended (no cap) and the
      * subjects are refreshed.
      */
    method HandleNewSnapshot(s: Snapshot, now: int)
      modifies this
      ensures old(lastTimestamp) == s.timestamp ==> unchanged(this)
      ensures old(lastTimestamp) != s.timestamp ==>
        allSnapshots == old(allSnapshots) + [s] && lastTimestamp == s.timestamp &&
        latest == Some(s) && Refreshed(allSnapshots, now, windows)
      ensures old(Valid()) ==> Valid()
    {
      if s.timestamp == lastTimestamp {
        return;
      }
      lastTimestamp := s.timestamp;
      allSnapshots := allSnapshots + [s];
      RefreshSubjects(now);
    }

    /** `refreshSubjects`: publish the latest snapshot and, timeframe by timeframe, the filtered windows. */
    method RefreshSubjects(now: int)
      modifies this
      ensures allSnapshots == old(allSnapshots) && lastTimestamp == old(lastTimestamp)
      ensures latest == LatestOf(allSnapshots)
      ensures Refreshed(allSnapshots, now, windows)
      ensures lastTimestamp == LastTimestampOf(allSnapshots) ==> Valid()
    {
      latest := if |allSnapshots| > 0 then Some(allSnapshots[|allSnapshots| - 1]) else None;
      var published: seq<seq<Snapshot>> := [];
      var i := 0;
      while i < |Timeframes|
        invariant 0 <= i <= |Timeframes|
        invariant |published| == i
        invariant forall j | 0 <= j < i :: published[j] == Window(allSnapshots, now, Timeframes[j])
      {
        published := published + [Window(allSnapshots, now, Timeframes[i])];
        i := i + 1;
      }
      windows := published;
      refreshedAt := now;
    }
  }
}
