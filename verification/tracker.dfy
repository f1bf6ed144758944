/**
 * The tracker's in-place state: the process-wide package map, the single
 * shared `currentpackage` slot that every interval reads, and one session per
 * connection with the intervals its track requests started
 * (index.js:15-16, 86-164). Each handler runs to completion without
 * interleaving; the lookups' results and the clock are parameters, and each
 * firing of an interval is an explicit call to `Server.Fire`.
 */
module Tracker {
  import opened Wrappers
  import opened Registry
  import opened Snapshots

  /** One entry of the package map, updated in place by the ticks. */
  class Snapshot {
    const baseDownloads: nat
    var currentDownloads: real
    const baseWeeklyDownloads: Option<nat>
    var weeklyDownloads: Option<real>
    const baseTotalDownloads: Option<nat>
    var totalDownloads: Option<real>
    const rate: real
    var lastUpdated: int
    const scores: ScoreDetail
    const info: Info

    /** The rate is tied to the daily base; it never changes after creation. */
    ghost predicate Valid() {
      rate * SecondsPerDay == baseDownloads as real
    }

    /** The entry as a value. */
    function View(): Record
      reads this
    {
      Record(baseDownloads, currentDownloads, baseWeeklyDownloads, weeklyDownloads,
             baseTotalDownloads, totalDownloads, rate, lastUpdated, scores, info)
    }

    /** The object literal stored at index.js:102-122. */
    constructor (r: Record)
      requires Consistent(r)
      ensures Valid() && View() == r
    {
      baseDownloads, currentDownloads := r.baseDownloads, r.currentDownloads;
      baseWeeklyDownloads, weeklyDownloads := r.baseWeeklyDownloads, r.weeklyDownloads;
      baseTotalDownloads, totalDownloads := r.baseTotalDownloads, r.totalDownloads;
      rate, lastUpdated := r.rate, r.lastUpdated;
      scores, info := r.scores, r.info;
    }

    /** The counter updates of one tick, in place (index.js:134-139). */
    method Tick(now: int)
      modifies this
      ensures View() == Advance(old(View()), now)
    {
      var elapsedSeconds := (now - lastUpdated) as real / TickDivisor;
      var delta := rate * elapsedSeconds;
      currentDownloads := currentDownloads + delta;
      weeklyDownloads := Some(Coerce(weeklyDownloads) + delta);
      totalDownloads := Some(Coerce(totalDownloads) + delta);
      lastUpdated := now;
    }
  }

  /** One connection: the number of intervals its track requests started and not yet cleared. */
  class Session {
    var timers: nat
    var connected: bool

    constructor ()
      ensures timers == 0 && connected
    {
      timers, connected := 0, true;
    }

    /** The disconnect handlers clear every interval this connection started (index.js:161-164). */
    method Disconnect()
      modifies this
      ensures timers == 0 && !connected
    {
      timers, connected := 0, false;
    }
  }

  /**
   * The property names every plain object inherits from `Object.prototype`.
   * Indexing the package map by one of them yields a truthy value, so the
   * handler treats such a name as already cached.
   */
  const Inherited: set<string> := {
    "constructor", "__proto__", "__defineGetter__", "__defineSetter__",
    "__lookupGetter__", "__lookupSetter__", "hasOwnProperty", "isPrototypeOf",
    "propertyIsEnumerable", "toLocaleString", "toString", "valueOf"}

  /** How one track request ended. */
  datatype Handled =
    | AlreadyCached          // the name was stored or inherited: no lookups, nothing stored
    | Attempted(build: BuildResult)

  /** The process-wide state shared by all connections. */
  class Server {
    var packageData: map<string, Snapshot>
    var current: Snapshot?

    /**
     * The slot refers to a stored entry, no inherited name is ever stored,
     * and every stored entry keeps its rate.
     */
    ghost predicate Valid()
      reads this
    {
      && (current != null ==> current in packageData.Values)
      && packageData.Keys !! Inherited
      && forall name :: name in packageData ==> packageData[name].Valid()
    }

    /** The truthiness test `packageData[packageName]` (index.js:89). */
    predicate Cached(name: string)
      reads this
    {
      name in packageData || name in Inherited
    }

    constructor ()
      ensures Valid() && packageData == map[] && current == null
    {
      packageData, current := map[], null;
    }

    /**
     * The `trackPackage` handler (index.js:86-132). A cached name, stored or
     * inherited, changes nothing but starts an interval. Otherwise the slot is cleared, the
     * lookups' results go through the gate, and a built record is stored under
     * the name and put in the slot; when the handler throws, no interval starts.
     */
    method TrackPackage(s: Session, name: string, resp: Responses, now: int) returns (handled: Handled)
      requires Valid() && s.connected
      modifies this, s
      ensures Valid() && s.connected
      ensures old(Cached(name)) ==>
        && handled == AlreadyCached
        && packageData == old(packageData) && current == old(current)
      ensures !old(Cached(name)) ==> handled == Attempted(Build(resp, now))
      ensures handled.Attempted? && handled.build.Built? ==>
        && packageData.Keys == old(packageData.Keys) + {name}
        && (forall n :: n in old(packageData) ==> packageData[n] == old(packageData)[n])
        && fresh(packageData[name]) && packageData[name].View() == handled.build.record
        && current == packageData[name]
      ensures handled.Attempted? && !handled.build.Built? ==>
        packageData == old(packageData) && current == null
      ensures s.timers == if handled == Attempted(Threw) then old(s.timers) else old(s.timers) + 1
    {
      if !Cached(name) {
        current := null;
        var b := Build(resp, now);
        handled := Attempted(b);
        match b
        case Skipped =>
        case Threw =>
          return;
        case Built(r) =>
          var snap := new Snapshot(r);
          packageData := packageData[name := snap];
          current := snap;
          assert packageData[name] == snap;
      } else {
        handled := AlreadyCached;
      }
      s.timers := s.timers + 1;
    }

    /**
     * One firing of an interval of session `s` (index.js:132-159): nothing
     * happens unless the session has a live interval and the shared slot is
     * set; then the slot's entry is advanced in place and its payload emitted.
     */
    method Fire(s: Session, now: int) returns (emitted: Option<Update>)
      requires Valid()
      modifies current
      ensures Valid()
      ensures packageData == old(packageData) && current == old(current)
      ensures s.timers == 0 || current == null ==>
        emitted == None && (current != null ==> current.View() == old(current.View()))
      ensures s.timers > 0 && current != null ==>
        && current.View() == Advance(old(current.View()), now)
        && emitted == Some(Project(current.View()))
    {
      emitted := None;
      if s.timers > 0 && current != null {
        current.Tick(now);
        emitted := Some(Project(current.View()));
      }
    }
  }

  /** After a disconnect no interval of that session fires, at any later instant. */
  method DisconnectStopsTicks(server: Server, s: Session, t1: int, t2: int)
    returns (e1: Option<Update>, e2: Option<Update>)
    requires server.Valid()
    modifies s, server.current
    ensures server.Valid() && !s.connected
    ensures e1 == None && e2 == None
  {
    s.Disconnect();
    e1 := server.Fire(s, t1);
    e2 := server.Fire(s, t2);
  }

  /**
   * The slot is shared: a request from any connection for an uncached name
   * whose daily lookup fails clears it, and from then on the intervals of
   * every other connection emit nothing.
   */
  method FailedRequestSilencesOthers(server: Server, a: Session, b: Session, name: string, resp: Responses, now: int)
    returns (e: Option<Update>)
    requires server.Valid() && b.connected && a != b && a.timers > 0
    requires !server.Cached(name) && resp.daily.None?
    modifies server, b
    ensures e == None
  {
    var h := server.TrackPackage(b, name, resp, now);
    e := server.Fire(a, now);
  }
}
