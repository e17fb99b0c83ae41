/**
  The server's module-level state as an object: `current_neck_length`,
  `baseline_neck_length` and the list `rating_over_time`, which
  `calculate_posture_rating` appends to and trims in place and the `/ws/` loop
  reassigns. Each method is proved to move `Model()` as PostureModel says.
 */
module Server {
  import opened Optional
  import opened PostureModel

  class PostureServer {
    /** Written by the camera thread whenever a pose is detected; read here. */
    var currentNeckLength: Option<Length>
    var baselineNeckLength: Option<Length>
    var ratingOverTime: seq<Sample>

    function Model(): Globals
      reads this
    {
      Globals(currentNeckLength, baselineNeckLength, ratingOverTime)
    }

    ghost predicate Valid()
      reads this
    {
      HistoryValid(ratingOverTime)
    }

    constructor ()
      ensures Valid()
      ensures Model() == Globals(None, None, [])
    {
      currentNeckLength := None;
      baselineNeckLength := None;
      ratingOverTime := [];
    }

    /** `calculate_posture_rating(current_length, baseline_length)` */
    method CalculatePostureRating(currentLength: Option<Length>, baselineLength: Option<Length>, rawRating: int, now: int)
      returns (rating: int)
      requires Valid()
      modifies this`ratingOverTime
      ensures Valid()
      ensures (rating, ratingOverTime) == PostureRating(currentLength, baselineLength, rawRating, now, old(ratingOverTime))
    {
      if currentLength.None? || baselineLength.None? {
        return 0;
      }
      rating := Clamp(rawRating);
      ratingOverTime := ratingOverTime + [Sample(now, rating)];
      if |ratingOverTime| > HistoryLimit {
        ratingOverTime := ratingOverTime[1..];
      }
    }

    /** The reply both endpoints build for a rating, classified with thresholds `t`. */
    method RatingReply(rawRating: int, now: int, t: Thresholds) returns (reply: Reply)
      requires Valid()
      modifies this`ratingOverTime
      ensures Valid()
      ensures (Model(), reply) == RatingResponse(old(Model()), rawRating, now, t)
    {
      if baselineNeckLength.Some? && currentNeckLength.Some? {
        var rating := CalculatePostureRating(currentNeckLength, baselineNeckLength, rawRating, now);
        var difference := currentNeckLength.value - baselineNeckLength.value;
        reply := RatingReport(rating, currentNeckLength, baselineNeckLength, difference, Classify(rating, t));
      } else {
        reply := RatingReport(0, Truthy(currentNeckLength), Truthy(baselineNeckLength), 0,
                              MissingStatus(baselineNeckLength));
      }
    }

    /** One pass of the `/ws/` loop (`websocket_calibrate`) for a received message. */
    method HandleCalibrationMessage(action: Option<string>, rawRating: int, now: int) returns (reply: Option<Reply>)
      requires Valid()
      modifies this`baselineNeckLength, this`ratingOverTime
      ensures Valid()
      ensures (Model(), reply) == HandleAction(old(Model()), action, rawRating, now)
    {
      if action == Some("calibrate") {
        if currentNeckLength.Some? {
          baselineNeckLength := currentNeckLength;
          reply := Some(Calibrated(baselineNeckLength.value));
        } else {
          reply := Some(CalibrationFailed);
        }
      } else if action == Some("reset") {
        baselineNeckLength := None;
        reply := Some(BaselineReset);
      } else if action == Some("rating") {
        var report := RatingReply(rawRating, now, CalibrationThresholds);
        reply := Some(report);
      } else if action == Some("graph") {
        reply := Some(GraphData(ratingOverTime));
      } else {
        reply := None;
      }
    }

    /** One pass of the `/ws/rating` loop (`websocket_rating`). */
    method StreamRating(rawRating: int, now: int) returns (reply: Reply)
      requires Valid()
      modifies this`ratingOverTime
      ensures Valid()
      ensures (Model(), reply) == RatingResponse(old(Model()), rawRating, now, StreamThresholds)
    {
      reply := RatingReply(rawRating, now, StreamThresholds);
    }
  }
}
