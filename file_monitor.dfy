/**
 * The workspace watcher: a filter deciding which file events matter, a per-path
 * debounce table, and the start/stop switch of the observer.
 *
 * The watchdog observer and its threads are not modelled; the clock reading and the
 * `is_file` check are inputs, and each callback invocation is recorded in a log.
 */
module FileMonitor {
  import opened Common
  import opened Strings
  import opened Paths

  const DefaultWatched: set<string> := {".md", ".py", ".js", ".ts", ".txt", ".rst"}
  const DefaultIgnored: set<string> := {
    ".git", "__pycache__", "node_modules", ".vscode", ".pytest_cache", ".mypy_cache", "dist", "build"
  }

  /** Seconds within which a second change to the same path is dropped. */
  const DebounceTime: real := 2.0

  /** A file-system event as watchdog reports it, with the file system's `is_file` answer for its path. */
  datatype Event = Event(srcPath: string, isDirectory: bool, isFile: bool)

  /** `watched or defaults`: a missing or empty argument selects the defaults. */
  function OrDefault(given: Option<set<string>>, defaults: set<string>): (r: set<string>)
    ensures given.Some? && given.value != {} ==> r == given.value
    ensures given.None? || given.value == {} ==> r == defaults
  {
    if given.Some? && given.value != {} then given.value else defaults
  }

  /** Some ignore pattern is a whole component of the path. */
  predicate Ignored(ignore: set<string>, path: string) {
    exists pattern :: pattern in ignore && pattern in Parts(path)
  }

  /** `should_process_file`: a watched suffix, no ignored component, and a regular file. */
  predicate ShouldProcessFile(watched: set<string>, ignore: set<string>, path: string, isFile: bool) {
    Suffix(path) in watched && !Ignored(ignore, path) && isFile
  }

  /** Whether `on_modified` hands the event to the callback, given the debounce table and the time. */
  predicate Delivers(watched: set<string>, ignore: set<string>, last: map<string, real>, e: Event, now: real) {
    && !e.isDirectory
    && ShouldProcessFile(watched, ignore, e.srcPath, e.isFile)
    && (e.srcPath in last ==> now - last[e.srcPath] >= DebounceTime)
  }

  /** `VSCodeFileHandler`. */
  class VSCodeFileHandler {
    const watched: set<string>
    const ignore: set<string>
    var lastModified: map<string, real>
    /** The paths passed to `on_file_changed`, in call order. */
    var delivered: seq<string>

    constructor(watched: Option<set<string>>, ignore: Option<set<string>>)
      ensures this.watched == OrDefault(watched, DefaultWatched) && this.ignore == OrDefault(ignore, DefaultIgnored)
      ensures lastModified == map[] && delivered == []
    {
      this.watched := OrDefault(watched, DefaultWatched);
      this.ignore := OrDefault(ignore, DefaultIgnored);
      lastModified := map[];
      delivered := [];
    }

    /**
     * `on_modified`: directories, filtered paths and changes within the debounce time
     * of the last accepted one are dropped untouched; otherwise the path's time is
     * recorded and the callback runs once (its exceptions are swallowed).
     */
    method OnModified(e: Event, now: real)
      modifies this
      ensures Delivers(watched, ignore, old(lastModified), e, now) ==>
        lastModified == old(lastModified)[e.srcPath := now] && delivered == old(delivered) + [e.srcPath]
      ensures !Delivers(watched, ignore, old(lastModified), e, now) ==>
        lastModified == old(lastModified) && delivered == old(delivered)
    {
      if e.isDirectory {
        return;
      }
      var path := e.srcPath;
      if !ShouldProcessFile(watched, ignore, path, e.isFile) {
        return;
      }
      if path in lastModified {
        if now - lastModified[path] < DebounceTime {
          return;
        }
      }
      lastModified := lastModified[path := now];
      delivered := delivered + [path];
    }
  }

  /** What the observer was asked to do. */
  datatype ObserverAction = ScheduleHandler | StartObserver | StopObserver | JoinObserver

  /** The monitor's switch and the observer actions issued so far. */
  datatype MonitorState = MonitorState(isRunning: bool, actions: seq<ObserverAction>)

  function Started(s: MonitorState): MonitorState {
    if s.isRunning then s else MonitorState(true, s.actions + [ScheduleHandler, StartObserver])
  }

  function Stopped(s: MonitorState): MonitorState {
    if !s.isRunning then s else MonitorState(false, s.actions + [StopObserver, JoinObserver])
  }

  /** `FileMonitor`. */
  class Monitor {
    var isRunning: bool
    var actions: seq<ObserverAction>

    constructor()
      ensures isRunning == false && actions == []
    {
      isRunning := false;
      actions := [];
    }

    /** `start`: schedule and start the observer, unless it is already running. */
    method Start()
      modifies this
      ensures MonitorState(isRunning, actions) == Started(MonitorState(old(isRunning), old(actions)))
    {
      if isRunning {
        return;
      }
      actions := actions + [ScheduleHandler, StartObserver];
      isRunning := true;
    }

    /** `stop`: stop and join the observer, unless it is not running. */
    method Stop()
      modifies this
      ensures MonitorState(isRunning, actions) == Stopped(MonitorState(old(isRunning), old(actions)))
    {
      if !isRunning {
        return;
      }
      actions := actions + [StopObserver, JoinObserver];
      isRunning := false;
    }
  }

  // ---------------------------------------------------------------------------
  // properties of the filter and the debounce table

  /** A component equal to an ignore pattern rejects the path. */
  lemma IgnoredComponentRejects(watched: set<string>, ignore: set<string>, path: string, isFile: bool, i: nat)
    requires i < |Parts(path)| && Parts(path)[i] in ignore
    ensures !ShouldProcessFile(watched, ignore, path, isFile)
  {
    assert Parts(path)[i] in Parts(path);
  }

  /** An unwatched suffix rejects the path. */
  lemma UnwatchedSuffixRejects(watched: set<string>, ignore: set<string>, path: string, isFile: bool)
    requires Suffix(path) !in watched
    ensures !ShouldProcessFile(watched, ignore, path, isFile)
  {
  }

  /** A relative path's pieces, none empty, `.` or containing `/`. */
  ghost predicate PlainPieces(pieces: seq<string>) {
    && |pieces| >= 1 && |pieces[0]| > 0 && pieces[0][0] != '/'
    && forall i :: 0 <= i < |pieces| ==> pieces[i] != "" && pieces[i] != "." && '/' !in pieces[i]
  }

  lemma {:induction false} ComponentsOfPlain(pieces: seq<string>)
    requires forall i :: 0 <= i < |pieces| ==> pieces[i] != "" && pieces[i] != "."
    ensures Components(pieces) == pieces
    decreases |pieces|
  {
    if |pieces| > 0 {
      ComponentsOfPlain(pieces[..|pieces| - 1]);
      assert pieces[..|pieces| - 1] + [pieces[|pieces| - 1]] == pieces;
    }
  }

  lemma {:induction false} JoinStartsWithFirst(pieces: seq<string>, sep: string)
    requires |pieces| >= 1 && |pieces[0]| > 0
    ensures |Join(pieces, sep)| > 0 && Join(pieces, sep)[0] == pieces[0][0]
  {
  }

  /** The parts of a relative path written from plain pieces are those pieces. */
  lemma {:induction false} PartsOfPlainPath(pieces: seq<string>)
    requires PlainPieces(pieces)
    ensures Parts(Join(pieces, "/")) == pieces
    ensures Name(Join(pieces, "/")) == pieces[|pieces| - 1]
  {
    SplitJoin(pieces, '/');
    ComponentsOfPlain(pieces);
    JoinStartsWithFirst(pieces, "/");
    assert !StartsWith(Join(pieces, "/"), "/");
  }

  /**
   * Ignore patterns match whole components, not substrings: a relative path is
   * ignored exactly when one of its pieces equals a pattern (so `dist` does not
   * ignore `src/distance/notes.md`).
   */
  lemma {:induction false} IgnoreMatchesWholeComponents(ignore: set<string>, pieces: seq<string>)
    requires PlainPieces(pieces)
    ensures Ignored(ignore, Join(pieces, "/")) <==> exists i :: 0 <= i < |pieces| && pieces[i] in ignore
  {
    PartsOfPlainPath(pieces);
    if exists i :: 0 <= i < |pieces| && pieces[i] in ignore {
      var i :| 0 <= i < |pieces| && pieces[i] in ignore;
      assert pieces[i] in Parts(Join(pieces, "/"));
    }
  }

  /** A name `stem.ext` with a non-empty stem and a dot-free, non-empty `ext` has suffix `.ext`. */
  lemma {:induction false} SuffixOfName(path: string, stem: string, ext: string)
    requires Name(path) == stem + "." + ext
    requires stem != "" && ext != "" && '.' !in ext
    ensures Suffix(path) == "." + ext
  {
    var name := stem + "." + ext;
    var i := LastIndexOf(name, '.');
    assert name[|stem|] == '.';
    assert name[|stem| + 1..] == ext;
    assert i == |stem|;
    assert name[i..] == "." + ext;
  }

  /** An accepted event leaves the path's time at `now`, so an event within 2 seconds of it is dropped. */
  lemma {:induction false} DebounceDropsRepeat(watched: set<string>, ignore: set<string>, last: map<string, real>,
                                               e: Event, now: real, later: real)
    requires now <= later < now + DebounceTime
    ensures !Delivers(watched, ignore, last[e.srcPath := now], e, later)
  {
  }

  /** Replaying timed events through the handler: the final table and the (path, time) deliveries. */
  function Replay(watched: set<string>, ignore: set<string>, last: map<string, real>, events: seq<(Event, real)>)
    : (r: (map<string, real>, seq<(string, real)>))
    decreases |events|
  {
    if |events| == 0 then (last, [])
    else
      var (table, log) := Replay(watched, ignore, last, events[..|events| - 1]);
      var (e, now) := events[|events| - 1];
      if Delivers(watched, ignore, table, e, now) then (table[e.srcPath := now], log + [(e.srcPath, now)])
      else (table, log)
  }

  /** Every time in the table is bounded by the initial times and the event times. */
  lemma {:induction false} ReplayTimesBounded(watched: set<string>, ignore: set<string>, last: map<string, real>,
                                              events: seq<(Event, real)>, bound: real)
    requires forall p :: p in last ==> last[p] <= bound
    requires forall i :: 0 <= i < |events| ==> events[i].1 <= bound
    ensures forall p :: p in Replay(watched, ignore, last, events).0 ==> Replay(watched, ignore, last, events).0[p] <= bound
    decreases |events|
  {
    if |events| > 0 {
      ReplayTimesBounded(watched, ignore, last, events[..|events| - 1], bound);
    }
  }

  /** Each delivered path is in the table, with a time no earlier than the delivery. */
  lemma {:induction false} ReplayLogInTable(watched: set<string>, ignore: set<string>, last: map<string, real>,
                                            events: seq<(Event, real)>)
    requires forall i, j :: 0 <= i < j < |events| ==> events[i].1 <= events[j].1
    ensures forall k :: 0 <= k < |Replay(watched, ignore, last, events).1| ==>
      && Replay(watched, ignore, last, events).1[k].0 in Replay(watched, ignore, last, events).0
      && Replay(watched, ignore, last, events).1[k].1
         <= Replay(watched, ignore, last, events).0[Replay(watched, ignore, last, events).1[k].0]
    decreases |events|
  {
    if |events| > 0 {
      var front := events[..|events| - 1];
      ReplayLogInTable(watched, ignore, last, front);
      var (table, log) := Replay(watched, ignore, last, front);
      var (e, now) := events[|events| - 1];
      if Delivers(watched, ignore, table, e, now) {
        var table', log' := table[e.srcPath := now], log + [(e.srcPath, now)];
        assert Replay(watched, ignore, last, events) == (table', log');
        forall k | 0 <= k < |log'| ensures log'[k].0 in table' && log'[k].1 <= table'[log'[k].0] {
          if k < |log| {
            DeliveryTimeIsEventTime(watched, ignore, last, front, k);
            var i :| 0 <= i < |front| && front[i].1 == log[k].1;
            assert events[i].1 <= events[|events| - 1].1;
          }
        }
      } else {
        assert Replay(watched, ignore, last, events) == (table, log);
      }
    }
  }

  /** Every delivery happens at the time of one of the replayed events. */
  lemma {:induction false} DeliveryTimeIsEventTime(watched: set<string>, ignore: set<string>, last: map<string, real>,
                                                   events: seq<(Event, real)>, k: nat)
    requires k < |Replay(watched, ignore, last, events).1|
    ensures exists i :: 0 <= i < |events| && events[i].1 == Replay(watched, ignore, last, events).1[k].1
    decreases |events|
  {
    var front := events[..|events| - 1];
    var log := Replay(watched, ignore, last, front).1;
    if k < |log| {
      DeliveryTimeIsEventTime(watched, ignore, last, front, k);
      var i :| 0 <= i < |front| && front[i].1 == log[k].1;
      assert events[i] == front[i];
    } else {
      assert Replay(watched, ignore, last, events).1[k].1 == events[|events| - 1].1;
    }
  }

  /**
   * With a clock that never goes back, two callbacks for the same path are at least
   * the debounce time apart.
   */
  lemma {:induction false} DebounceSpacing(watched: set<string>, ignore: set<string>, last: map<string, real>,
                                           events: seq<(Event, real)>)
    requires forall i, j :: 0 <= i < j < |events| ==> events[i].1 <= events[j].1
    ensures forall a, b ::
              (&& 0 <= a < b < |Replay(watched, ignore, last, events).1|
               && Replay(watched, ignore, last, events).1[a].0 == Replay(watched, ignore, last, events).1[b].0)
              ==> Replay(watched, ignore, last, events).1[b].1 - Replay(watched, ignore, last, events).1[a].1 >= DebounceTime
    decreases |events|
  {
    if |events| > 0 {
      var front := events[..|events| - 1];
      DebounceSpacing(watched, ignore, last, front);
      ReplayLogInTable(watched, ignore, last, front);
      var (table, log) := Replay(watched, ignore, last, front);
      var (e, now) := events[|events| - 1];
      if Delivers(watched, ignore, table, e, now) {
        var log' := log + [(e.srcPath, now)];
        forall a | 0 <= a < |log| && log[a].0 == e.srcPath ensures now - log[a].1 >= DebounceTime {
          assert log[a].1 <= table[e.srcPath];
        }
        assert Replay(watched, ignore, last, events).1 == log';
      }
    }
  }

  // ---------------------------------------------------------------------------
  // properties of the start/stop switch

  /** Starting twice is starting once, and stopping twice is stopping once. */
  lemma StartStopIdempotent(s: MonitorState)
    ensures Started(Started(s)) == Started(s) && Started(s).isRunning
    ensures Stopped(Stopped(s)) == Stopped(s) && !Stopped(s).isRunning
  {
  }

  /** How often an action occurs in a history. */
  function Count(actions: seq<ObserverAction>, a: ObserverAction): (n: nat)
    ensures n <= |actions|
    decreases |actions|
  {
    if |actions| == 0 then 0
    else Count(actions[..|actions| - 1], a) + (if actions[|actions| - 1] == a then 1 else 0)
  }

  lemma {:induction false} CountAppend(x: seq<ObserverAction>, y: seq<ObserverAction>, a: ObserverAction)
    ensures Count(x + y, a) == Count(x, a) + Count(y, a)
    decreases |y|
  {
    if |y| > 0 {
      assert (x + y)[..|x + y| - 1] == x + y[..|y| - 1];
      CountAppend(x, y[..|y| - 1], a);
    } else {
      assert x + y == x;
    }
  }

  /** The observer is started once more than it is stopped exactly while the monitor runs. */
  ghost predicate Balanced(s: MonitorState) {
    && Count(s.actions, StartObserver) == Count(s.actions, ScheduleHandler)
    && Count(s.actions, StopObserver) == Count(s.actions, JoinObserver)
    && Count(s.actions, StartObserver) == Count(s.actions, StopObserver) + (if s.isRunning then 1 else 0)
  }

  lemma {:induction false} CountPair(x: ObserverAction, y: ObserverAction, a: ObserverAction)
    ensures Count([x, y], a) == (if x == a then 1 else 0) + (if y == a then 1 else 0)
  {
    assert [x, y][..1] == [x];
    assert [x][..0] == [];
  }

  lemma {:induction false} StartStopKeepBalance(s: MonitorState)
    requires Balanced(s)
    ensures Balanced(Started(s)) && Balanced(Stopped(s))
  {
    var started, stopped := [ScheduleHandler, StartObserver], [StopObserver, JoinObserver];
    CountAppend(s.actions, started, ScheduleHandler);
    CountAppend(s.actions, started, StartObserver);
    CountAppend(s.actions, started, StopObserver);
    CountAppend(s.actions, started, JoinObserver);
    CountAppend(s.actions, stopped, ScheduleHandler);
    CountAppend(s.actions, stopped, StartObserver);
    CountAppend(s.actions, stopped, StopObserver);
    CountAppend(s.actions, stopped, JoinObserver);
    CountPair(ScheduleHandler, StartObserver, ScheduleHandler);
    CountPair(ScheduleHandler, StartObserver, StartObserver);
    CountPair(ScheduleHandler, StartObserver, StopObserver);
    CountPair(ScheduleHandler, StartObserver, JoinObserver);
    CountPair(StopObserver, JoinObserver, ScheduleHandler);
    CountPair(StopObserver, JoinObserver, StartObserver);
    CountPair(StopObserver, JoinObserver, StopObserver);
    CountPair(StopObserver, JoinObserver, JoinObserver);
  }

}
