/**
  Value model of the server's rating bookkeeping and calibration state
  (server/server.py): the None-guard and clamp of `calculate_posture_rating`,
  the bounded `rating_over_time` history, the action dispatch of the `/ws/`
  endpoint over `baseline_neck_length`, and the status classification of the
  `/ws/` and `/ws/rating` replies.

  Neck lengths are abstract integers and the rating before clamping is an input:
  the distance computation, the scaling and the float-to-int conversion that
  produce it are not part of this model.
 */
module PostureModel {
  import opened Optional

  /** A neck length in the server's units. */
  type Length = int

  /** One entry of `rating_over_time`: `(time.time(), rating)`. */
  datatype Sample = Sample(timestamp: int, rating: int)

  /** The module-level globals this part of the server reads and writes. */
  datatype Globals = Globals(
    currentNeckLength: Option<Length>,
    baselineNeckLength: Option<Length>,
    ratingOverTime: seq<Sample>)

  const HistoryLimit: nat := 1000

  // ---------------------------------------------------------------------------
  // calculate_posture_rating
  // ---------------------------------------------------------------------------

  /** `max(0, min(100, rating))` */
  function Clamp(rating: int): (r: int)
    ensures 0 <= r <= 100
    ensures 0 <= rating <= 100 ==> r == rating
    ensures rating < 0 ==> r == 0
    ensures rating > 100 ==> r == 100
  {
    var capped := if rating < 100 then rating else 100;
    if 0 < capped then capped else 0
  }

  /** Append a sample to the history, then drop the oldest entry if there are more than 1000. */
  function Record(history: seq<Sample>, sample: Sample): (r: seq<Sample>)
    ensures |r| > 0 && r[|r| - 1] == sample
    ensures |history| < HistoryLimit ==> r == history + [sample]
    ensures |history| >= HistoryLimit ==> r == history[1..] + [sample]
    ensures |history| <= HistoryLimit ==> |r| <= HistoryLimit
  {
    var appended := history + [sample];
    if |appended| > HistoryLimit then appended[1..] else appended
  }

  /** What the history holds between calls: at most 1000 entries, each rating in 0..100. */
  predicate HistoryValid(history: seq<Sample>) {
    |history| <= HistoryLimit &&
    forall i :: 0 <= i < |history| ==> 0 <= history[i].rating <= 100
  }

  /**
    `calculate_posture_rating(current, baseline)` at time `now`, given the rating
    the formula yields before clamping. Returns the rating and the new history.
   */
  function PostureRating(current: Option<Length>, baseline: Option<Length>, rawRating: int, now: int,
                         history: seq<Sample>): (r: (int, seq<Sample>))
    ensures 0 <= r.0 <= 100
    ensures current.None? || baseline.None? ==> r == (0, history)
    ensures current.Some? && baseline.Some? ==>
              r.0 == Clamp(rawRating) && r.1 == Record(history, Sample(now, r.0))
    ensures HistoryValid(history) ==> HistoryValid(r.1)
  {
    if current.None? || baseline.None? then
      (0, history)
    else
      var rating := Clamp(rawRating);
      (rating, Record(history, Sample(now, rating)))
  }

  /** Record a run of samples, oldest first. */
  function RecordAll(history: seq<Sample>, samples: seq<Sample>): seq<Sample>
    decreases |samples|
  {
    if samples == [] then history else RecordAll(Record(history, samples[0]), samples[1..])
  }

  /** The last `n` entries of `s` (all of `s` when it is shorter). */
  function LastN(s: seq<Sample>, n: nat): (r: seq<Sample>)
    ensures |r| <= n && |r| <= |s|
    ensures |s| <= n ==> r == s
  {
    if |s| <= n then s else s[|s| - n..]
  }

  /**
    The history is a sliding window: starting from at most 1000 entries, after
    any run of recordings it holds exactly the latest 1000 of all samples seen,
    oldest first.
   */
  lemma {:induction false} RecordAllKeepsLatest(history: seq<Sample>, samples: seq<Sample>)
    requires |history| <= HistoryLimit
    ensures RecordAll(history, samples) == LastN(history + samples, HistoryLimit)
    decreases |samples|
  {
    if samples != [] {
      var next := Record(history, samples[0]);
      RecordAllKeepsLatest(next, samples[1..]);
      assert history + samples == (history + [samples[0]]) + samples[1..];
      if |history| == HistoryLimit {
        assert next + samples[1..] == (history + samples)[1..];
      }
    }
  }

  // ---------------------------------------------------------------------------
  // Status classification
  // ---------------------------------------------------------------------------

  datatype RatingStatus = Good | Moderate | Poor | NotCalibrated | NoPose

  /** The two cut-offs of a rating reply: `good` at or above the first, `moderate` at or above the second. */
  datatype Thresholds = Thresholds(good: int, moderate: int)

  /** The thresholds of the `/ws/` endpoint's "rating" action. */
  const CalibrationThresholds := Thresholds(80, 60)

  /** The thresholds of the `/ws/rating` stream. */
  const StreamThresholds := Thresholds(95, 70)

  /** `"good" if rating >= good else "moderate" if rating >= moderate else "poor"` */
  function Classify(rating: int, t: Thresholds): (r: RatingStatus)
    ensures r == Good <==> rating >= t.good
    ensures r == Moderate <==> t.moderate <= rating < t.good
    ensures r == Poor <==> rating < t.good && rating < t.moderate
  {
    if rating >= t.good then Good else if rating >= t.moderate then Moderate else Poor
  }

  /** The status of a reply made without both lengths. */
  function MissingStatus(baseline: Option<Length>): (r: RatingStatus)
    ensures r == NotCalibrated <==> baseline.None?
    ensures r == NoPose <==> baseline.Some?
  {
    if baseline.None? then NotCalibrated else NoPose
  }

  /** The status as it is written on the wire. */
  function StatusName(status: RatingStatus): string {
    match status
    case Good => "good"
    case Moderate => "moderate"
    case Poor => "poor"
    case NotCalibrated => "not_calibrated"
    case NoPose => "no_pose"
  }

  /** On the `/ws/` endpoint: "good" iff at least 80, "moderate" iff 60..79, "poor" otherwise. */
  lemma CalibrationEndpointStatus(rating: int)
    ensures StatusName(Classify(rating, CalibrationThresholds)) == "good" <==> rating >= 80
    ensures StatusName(Classify(rating, CalibrationThresholds)) == "moderate" <==> 60 <= rating < 80
    ensures StatusName(Classify(rating, CalibrationThresholds)) == "poor" <==> rating < 60
  {
  }

  /** On the `/ws/rating` stream: "good" iff at least 95, "moderate" iff 70..94, "poor" otherwise. */
  lemma StreamEndpointStatus(rating: int)
    ensures StatusName(Classify(rating, StreamThresholds)) == "good" <==> rating >= 95
    ensures StatusName(Classify(rating, StreamThresholds)) == "moderate" <==> 70 <= rating < 95
    ensures StatusName(Classify(rating, StreamThresholds)) == "poor" <==> rating < 70
  {
  }

  // ---------------------------------------------------------------------------
  // Replies and the action dispatch
  // ---------------------------------------------------------------------------

  /** The JSON replies the `/ws/` and `/ws/rating` endpoints send. */
  datatype Reply =
    | Calibrated(baseline: Length)
    | CalibrationFailed
    | BaselineReset
    | RatingReport(rating: int, currentLength: Option<Length>, baselineLength: Option<Length>,
                   difference: int, status: RatingStatus)
    | GraphData(data: seq<Sample>)

  /** The reply's `"status"` field, where it has one. */
  function ReplyStatus(reply: Reply): Option<string> {
    match reply
    case Calibrated(_) => Some("success")
    case CalibrationFailed => Some("error")
    case BaselineReset => Some("success")
    case RatingReport(_, _, _, _, status) => Some(StatusName(status))
    case GraphData(_) => None
  }

  /** `x if x else None`: Python reads a zero length as missing. */
  function Truthy(length: Option<Length>): (r: Option<Length>)
    ensures r.Some? <==> length.Some? && length.value != 0
    ensures r.Some? ==> r == length
  {
    if length.Some? && length.value != 0 then length else None
  }

  /**
    One rating reply, as both endpoints build it: with both lengths present the
    rating is computed (and recorded) and classified with `t`; otherwise the
    reply carries rating 0 and difference 0 and nothing is recorded.
   */
  function RatingResponse(g: Globals, rawRating: int, now: int, t: Thresholds): (r: (Globals, Reply))
    ensures r.1.RatingReport? && 0 <= r.1.rating <= 100
    ensures r.0.currentNeckLength == g.currentNeckLength && r.0.baselineNeckLength == g.baselineNeckLength
    ensures g.currentNeckLength.None? || g.baselineNeckLength.None? ==>
              && r.0 == g
              && r.1.rating == 0 && r.1.difference == 0
              && r.1.currentLength == Truthy(g.currentNeckLength)
              && r.1.baselineLength == Truthy(g.baselineNeckLength)
              && r.1.status == MissingStatus(g.baselineNeckLength)
    ensures g.currentNeckLength.Some? && g.baselineNeckLength.Some? ==>
              && r.1.rating == Clamp(rawRating)
              && r.1.currentLength == g.currentNeckLength
              && r.1.baselineLength == g.baselineNeckLength
              && r.1.status == Classify(r.1.rating, t)
              && r.1.difference == g.currentNeckLength.value - g.baselineNeckLength.value
              && r.0.ratingOverTime == Record(g.ratingOverTime, Sample(now, r.1.rating))
    ensures HistoryValid(g.ratingOverTime) ==> HistoryValid(r.0.ratingOverTime)
  {
    if g.baselineNeckLength.Some? && g.currentNeckLength.Some? then
      var rated := PostureRating(g.currentNeckLength, g.baselineNeckLength, rawRating, now, g.ratingOverTime);
      var difference := g.currentNeckLength.value - g.baselineNeckLength.value;
      (g.(ratingOverTime := rated.1),
       RatingReport(rated.0, g.currentNeckLength, g.baselineNeckLength, difference, Classify(rated.0, t)))
    else
      (g, RatingReport(0, Truthy(g.currentNeckLength), Truthy(g.baselineNeckLength), 0,
                       MissingStatus(g.baselineNeckLength)))
  }

  /**
    One message on the `/ws/` endpoint, by its `"action"` field: "calibrate",
    "reset", "rating", "graph"; anything else (or no action) is ignored and gets
    no reply.
   */
  function HandleAction(g: Globals, action: Option<string>, rawRating: int, now: int): (r: (Globals, Option<Reply>))
    ensures r.0.currentNeckLength == g.currentNeckLength
    ensures action == Some("calibrate") && g.currentNeckLength.Some? ==>
              r == (g.(baselineNeckLength := g.currentNeckLength), Some(Calibrated(g.currentNeckLength.value)))
    ensures action == Some("calibrate") && g.currentNeckLength.None? ==> r == (g, Some(CalibrationFailed))
    ensures action == Some("reset") ==> r == (g.(baselineNeckLength := None), Some(BaselineReset))
    ensures action == Some("rating") ==>
              r.1.Some? && (r.0, r.1.value) == RatingResponse(g, rawRating, now, CalibrationThresholds)
    ensures action == Some("graph") ==> r == (g, Some(GraphData(g.ratingOverTime)))
    ensures action !in {Some("calibrate"), Some("reset"), Some("rating"), Some("graph")} ==> r == (g, None)
    ensures HistoryValid(g.ratingOverTime) ==> HistoryValid(r.0.ratingOverTime)
  {
    if action == Some("calibrate") then
      if g.currentNeckLength.Some? then
        (g.(baselineNeckLength := g.currentNeckLength), Some(Calibrated(g.currentNeckLength.value)))
      else
        (g, Some(CalibrationFailed))
    else if action == Some("reset") then
      (g.(baselineNeckLength := None), Some(BaselineReset))
    else if action == Some("rating") then
      var rated := RatingResponse(g, rawRating, now, CalibrationThresholds);
      (rated.0, Some(rated.1))
    else if action == Some("graph") then
      (g, Some(GraphData(g.ratingOverTime)))
    else
      (g, None)
  }

  /** "reset" is idempotent: a second reset changes nothing and replies the same. */
  lemma ResetIsIdempotent(g: Globals, rawRating: int, now: int)
    ensures var once := HandleAction(g, Some("reset"), rawRating, now);
            HandleAction(once.0, Some("reset"), rawRating, now) == once
  {
  }

  /** After "reset", a "rating" request reports not_calibrated with rating 0 and records nothing. */
  lemma RatingAfterResetIsNotCalibrated(g: Globals, rawRating: int, now: int)
    ensures var reset := HandleAction(g, Some("reset"), rawRating, now).0;
            var rated := HandleAction(reset, Some("rating"), rawRating, now);
            rated.0 == reset &&
            rated.1 == Some(RatingReport(0, Truthy(g.currentNeckLength), None, 0, NotCalibrated)) &&
            ReplyStatus(rated.1.value) == Some("not_calibrated")
  {
  }

  /** The calibrate reply's status is "success" exactly when a current length was available. */
  lemma CalibrateStatus(g: Globals, rawRating: int, now: int)
    ensures var r := HandleAction(g, Some("calibrate"), rawRating, now);
            r.1.Some? &&
            (ReplyStatus(r.1.value) == Some("success") <==> g.currentNeckLength.Some?) &&
            (ReplyStatus(r.1.value) == Some("error") <==> g.currentNeckLength.None?)
  {
  }

  /** A `/ws/` request as the loop receives it: the action, the rating its formula yields then, and the time. */
  datatype Request = Request(action: Option<string>, rawRating: int, now: int)

  /** A run of `/ws/` requests, handled one after the other. */
  function HandleAll(g: Globals, requests: seq<Request>): Globals
    decreases |requests|
  {
    if requests == [] then g
    else HandleAll(HandleAction(g, requests[0].action, requests[0].rawRating, requests[0].now).0, requests[1..])
  }

  /** Over any run of requests the history keeps at most 1000 entries, each rating in 0..100. */
  lemma {:induction false} HandleAllKeepsHistoryValid(g: Globals, requests: seq<Request>)
    requires HistoryValid(g.ratingOverTime)
    ensures HistoryValid(HandleAll(g, requests).ratingOverTime)
    decreases |requests|
  {
    if requests != [] {
      var first := requests[0];
      HandleAllKeepsHistoryValid(HandleAction(g, first.action, first.rawRating, first.now).0, requests[1..]);
    }
  }
}
