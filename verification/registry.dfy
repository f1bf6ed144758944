/**
 * The shapes of the registry responses the tracker consumes, and the one
 * piece of logic in the registry client: summing a ranged download response
 * into a cumulative count (`fetchTotalDownloads`, index.js:64-80).
 *
 * The HTTP lookups themselves are not modelled: each lookup is an input that
 * is `None` when the request failed (the `catch` paths return `null`).
 */
module Registry {
  import opened Wrappers

  /** Body of the last-day point lookup; only `downloads` is used. */
  datatype DailyPoint = DailyPoint(downloads: nat)

  /** `score.detail` of the scores lookup. */
  datatype ScoreDetail = ScoreDetail(popularity: real, quality: real, maintenance: real)

  /** `collected.metadata` of the scores lookup (`links.repository` flattened). */
  datatype Metadata = Metadata(description: string, license: string, maintainers: seq<string>, repository: string)

  /** Body of the scores lookup. */
  datatype PackageScores = PackageScores(detail: ScoreDetail, metadata: Metadata)

  /** Body of the package document lookup: `time.modified`, `dist-tags.latest`, `versions`. */
  datatype PackageDetails = PackageDetails(modified: string, latest: string, versions: seq<string>)

  /** One element of the `downloads` array of a ranged lookup. */
  datatype DayCount = DayCount(day: string, downloads: nat)

  /** Body of the ranged lookup; `downloads` is `None` when the field is missing. */
  datatype RangeBody = RangeBody(downloads: Option<seq<DayCount>>)

  /** What the five lookups of one track request returned. */
  datatype Responses = Responses(
    daily: Option<DailyPoint>,
    scores: Option<PackageScores>,
    weekly: Option<nat>,
    range: Option<RangeBody>,
    details: Option<PackageDetails>)

  /** Reference definition: the sum of the per-day counts. */
  function SumDays(days: seq<DayCount>): nat {
    if days == [] then 0 else days[0].downloads + SumDays(days[1..])
  }

  /**
   * `days.reduce((acc, item) => acc + item.downloads, acc)`: a left fold.
   * What it computes is stated by `ReduceIsSum`.
   */
  function Reduce(acc: int, days: seq<DayCount>): (total: int)
    decreases |days|
  {
    if days == [] then acc else Reduce(acc + days[0].downloads, days[1..])
  }

  /** The left fold adds exactly the reference sum to its accumulator. */
  lemma {:induction false} ReduceIsSum(acc: int, days: seq<DayCount>)
    ensures Reduce(acc, days) == acc + SumDays(days)
    decreases |days|
  {
    if days != [] {
      ReduceIsSum(acc + days[0].downloads, days[1..]);
    }
  }

  /**
   * The cumulative download count of a ranged response: `None` when the
   * lookup failed or the body has no `downloads` array, otherwise the sum of
   * the per-day counts (an empty array gives 0).
   */
  function TotalDownloads(resp: Option<RangeBody>): (total: Option<nat>)
    ensures total.Some? <==> resp.Some? && resp.value.downloads.Some?
    ensures total.Some? ==> total.value == SumDays(resp.value.downloads.value)
  {
    match resp
    case None => None
    case Some(body) =>
      match body.downloads
      case None => None
      case Some(days) =>
        ReduceIsSum(0, days);
        Some(Reduce(0, days))
  }
}
