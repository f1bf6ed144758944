/**
 * The package snapshot as a value: how it is built from the lookups
 * (index.js:98-122), how one interval tick advances it (index.js:134-139)
 * and the payload a tick emits (index.js:141-157). The class that holds the
 * snapshot in place lives in module Tracker and is specified by these
 * functions.
 */
module Snapshots {
  import opened Wrappers
  import opened Registry

  /** Seconds in a day: the daily count is spread uniformly over it. */
  const SecondsPerDay: real := 86400.0

  /** The divisor applied to the elapsed milliseconds before scaling by the rate. */
  const TickDivisor: real := 10000.0

  /** The static descriptive fields copied from the scores and details lookups. */
  datatype Info = Info(
    description: string,
    lastPublished: string,
    license: string,
    currentVersion: string,
    maintainers: seq<string>,
    repository: string,
    versions: seq<string>)

  /** One entry of the package map. */
  datatype Record = Record(
    baseDownloads: nat,
    currentDownloads: real,
    baseWeeklyDownloads: Option<nat>,
    weeklyDownloads: Option<real>,
    baseTotalDownloads: Option<nat>,
    totalDownloads: Option<real>,
    rate: real,
    lastUpdated: int,
    scores: ScoreDetail,
    info: Info)

  /** What a track request does once the lookups are back. */
  datatype BuildResult =
    | Skipped            // a mandatory lookup is missing: nothing is stored
    | Threw              // the document lookup is missing: the handler throws before storing
    | Built(record: Record)

  /** The payload of one `packageUpdate` event. */
  datatype Update = Update(
    package: Record,
    estimatedDownloads: int,
    baseDownloads: nat,
    scores: ScoreDetail,
    info: Info,
    weeklyDownloads: int,
    totalDownloads: int)

  /** A nullable count as a number. */
  function AsReal(n: Option<nat>): Option<real> {
    match n
    case None => None
    case Some(v) => Some(v as real)
  }

  /**
   * JavaScript's coercion of `null` to 0 under `+=` and `Math.floor`; its
   * use is stated by the contracts of `Advance` and `Project`.
   */
  function Coerce(c: Option<real>): (n: real) {
    c.GetOr(0.0)
  }

  /** The rate is the daily count spread over a day, so it is never negative. */
  ghost predicate Consistent(r: Record) {
    r.rate * SecondsPerDay == r.baseDownloads as real
  }

  /** Every counter still equals its base and the stamp is the build time. */
  ghost predicate Fresh(r: Record, now: int) {
    && r.currentDownloads == r.baseDownloads as real
    && r.weeklyDownloads == AsReal(r.baseWeeklyDownloads)
    && r.totalDownloads == AsReal(r.baseTotalDownloads)
    && r.lastUpdated == now
  }

  /** Everything a tick must leave alone. */
  ghost predicate SameStatic(r: Record, r': Record) {
    && r'.baseDownloads == r.baseDownloads
    && r'.baseWeeklyDownloads == r.baseWeeklyDownloads
    && r'.baseTotalDownloads == r.baseTotalDownloads
    && r'.rate == r.rate
    && r'.scores == r.scores
    && r'.info == r.info
  }

  /**
   * The minimum-viable-data gate and record construction of a track request
   * for a name that is not cached yet. Both the daily point and the scores
   * must be present; if they are but the package document is missing, reading
   * its fields throws before anything is stored.
   */
  function Build(resp: Responses, now: int): (b: BuildResult)
    ensures b.Skipped? <==> resp.daily.None? || resp.scores.None?
    ensures b.Threw? <==> resp.daily.Some? && resp.scores.Some? && resp.details.None?
    ensures b.Built? ==> Fresh(b.record, now) && Consistent(b.record)
    ensures b.Built? ==>
      && b.record.baseDownloads == resp.daily.value.downloads
      && b.record.baseWeeklyDownloads == resp.weekly
      && b.record.baseTotalDownloads == TotalDownloads(resp.range)
      && b.record.scores == resp.scores.value.detail
      && b.record.info.description == resp.scores.value.metadata.description
      && b.record.info.license == resp.scores.value.metadata.license
      && b.record.info.maintainers == resp.scores.value.metadata.maintainers
      && b.record.info.repository == resp.scores.value.metadata.repository
      && b.record.info.lastPublished == resp.details.value.modified
      && b.record.info.currentVersion == resp.details.value.latest
      && b.record.info.versions == resp.details.value.versions
  {
    if resp.daily.None? || resp.scores.None? then Skipped
    else if resp.details.None? then Threw
    else
      var daily := resp.daily.value.downloads;
      var meta := resp.scores.value.metadata;
      var details := resp.details.value;
      var weekly := resp.weekly;
      var total := TotalDownloads(resp.range);
      Built(Record(
        daily, daily as real,
        weekly, AsReal(weekly),
        total, AsReal(total),
        daily as real / SecondsPerDay,
        now,
        resp.scores.value.detail,
        Info(meta.description, details.modified, meta.license, details.latest,
             meta.maintainers, meta.repository, details.versions)))
  }

  /**
   * The amount one tick at time `now` adds to each of the three counters
   * (`elapsedSeconds` and `delta`); its use is stated by the contract of
   * `Advance` and by `AdvanceTwice`.
   */
  function Gain(r: Record, now: int): (delta: real) {
    r.rate * ((now - r.lastUpdated) as real / TickDivisor)
  }

  /**
   * One interval tick: the same delta is added to the daily, weekly and
   * total counters (a `null` counter counts as 0), and the stamp moves to `now`.
   */
  function Advance(r: Record, now: int): (r': Record)
    ensures SameStatic(r, r') && r'.lastUpdated == now
    ensures r'.weeklyDownloads.Some? && r'.totalDownloads.Some?
    ensures r'.currentDownloads - r.currentDownloads == Gain(r, now)
    ensures Coerce(r'.weeklyDownloads) - Coerce(r.weeklyDownloads) == Gain(r, now)
    ensures Coerce(r'.totalDownloads) - Coerce(r.totalDownloads) == Gain(r, now)
  {
    var delta := Gain(r, now);
    r.(currentDownloads := r.currentDownloads + delta,
       weeklyDownloads := Some(Coerce(r.weeklyDownloads) + delta),
       totalDownloads := Some(Coerce(r.totalDownloads) + delta),
       lastUpdated := now)
  }

  /** Ticks at the successive instants `times`, in order. */
  function AdvanceAll(r: Record, times: seq<int>): Record
    decreases |times|
  {
    if times == [] then r else AdvanceAll(Advance(r, times[0]), times[1..])
  }

  /** The payload of a tick: the three counters rounded down, the rest as stored. */
  function Project(r: Record): (u: Update)
    ensures u.estimatedDownloads as real <= r.currentDownloads < u.estimatedDownloads as real + 1.0
    ensures u.weeklyDownloads as real <= Coerce(r.weeklyDownloads) < u.weeklyDownloads as real + 1.0
    ensures u.totalDownloads as real <= Coerce(r.totalDownloads) < u.totalDownloads as real + 1.0
    ensures u.package == r && u.baseDownloads == r.baseDownloads
    ensures u.scores == r.scores && u.info == r.info
  {
    Update(r, r.currentDownloads.Floor, r.baseDownloads, r.scores, r.info,
           Coerce(r.weeklyDownloads).Floor, Coerce(r.totalDownloads).Floor)
  }

  /** With a non-negative rate, a tick forward in time never lowers a counter. */
  lemma AdvanceMonotone(r: Record, now: int)
    requires Consistent(r) && r.lastUpdated <= now
    ensures Advance(r, now).currentDownloads >= r.currentDownloads
    ensures Coerce(Advance(r, now).weeklyDownloads) >= Coerce(r.weeklyDownloads)
    ensures Coerce(Advance(r, now).totalDownloads) >= Coerce(r.totalDownloads)
  {
  }

  /**
   * Two ticks are one tick: whatever the intermediate instant, advancing to
   * `t1` and then to `t2` gives the same record as advancing straight to `t2`.
   */
  lemma AdvanceTwice(r: Record, t1: int, t2: int)
    ensures Advance(Advance(r, t1), t2) == Advance(r, t2)
  {
    var a := Advance(r, t1);
    var e1 := (t1 - r.lastUpdated) as real / TickDivisor;
    var e2 := (t2 - t1) as real / TickDivisor;
    var e := (t2 - r.lastUpdated) as real / TickDivisor;
    assert e1 + e2 == e;
    assert Gain(r, t1) + Gain(a, t2) == r.rate * e1 + r.rate * e2;
    assert r.rate * e1 + r.rate * e2 == r.rate * (e1 + e2);
    assert Gain(r, t1) + Gain(a, t2) == Gain(r, t2);
  }

  /**
   * Any sequence of ticks, by any number of sessions sharing the snapshot,
   * leaves it as a single tick at the last instant would: the counters grow by
   * `rate * (last - lastUpdated) / 10000` in all.
   */
  lemma {:induction false} TicksTelescope(r: Record, times: seq<int>)
    requires times != []
    ensures AdvanceAll(r, times) == Advance(r, times[|times| - 1])
    decreases |times|
  {
    if |times| > 1 {
      TicksTelescope(Advance(r, times[0]), times[1..]);
      AdvanceTwice(r, times[0], times[|times| - 1]);
    }
  }

  /**
   * With a non-negative rate, none of the three emitted counters goes down
   * from one tick to a later one.
   */
  lemma EmittedNonDecreasing(r: Record, t1: int, t2: int)
    requires Consistent(r) && r.lastUpdated <= t1 <= t2
    ensures Project(Advance(r, t1)).estimatedDownloads
         <= Project(Advance(Advance(r, t1), t2)).estimatedDownloads
    ensures Project(Advance(r, t1)).weeklyDownloads
         <= Project(Advance(Advance(r, t1), t2)).weeklyDownloads
    ensures Project(Advance(r, t1)).totalDownloads
         <= Project(Advance(Advance(r, t1), t2)).totalDownloads
  {
  }

  /**
   * An illustration of the divisor of 10000, not a general property: ticking
   * a fresh record with 1000 daily downloads 100 seconds later grows the
   * counter by about 0.116, so the emitted estimate is still 1000.
   */
  lemma HundredSecondsOfThousandDaily(r: Record, now: int)
    requires Fresh(r, now) && Consistent(r) && r.baseDownloads == 1000
    ensures Project(Advance(r, now + 100000)).estimatedDownloads == 1000
  {
  }
}
