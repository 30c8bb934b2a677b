/** The stick-drift measurement: per-stick records of sampled positions with
    a running maximum distance from centre, their summary once measuring
    ends, and the four-level severity rating shown for each stick and overall. */
module DriftAnalysis {

  /** One sampled stick position, its y axis inverted, and its distance from centre. */
  datatype DriftSample = DriftSample(x: real, y: real, distance: real)

  /** The distance is the Euclidean norm of the position (`Math.sqrt(x*x + y*y)`). */
  predicate WellFormed(s: DriftSample) {
    s.distance >= 0.0 && s.distance * s.distance == s.x * s.x + s.y * s.y
  }

  /** The running maximum the sampler keeps: it starts at 0 and is raised by
      every sample that lies further out. */
  function MaxDistance(samples: seq<DriftSample>): (r: real)
    ensures r >= 0.0
  {
    if samples == [] then 0.0
    else
      var before := MaxDistance(samples[..|samples| - 1]);
      var d := samples[|samples| - 1].distance;
      if d > before then d else before
  }

  /** `samples.reduce((sum, s) => sum + s.distance, 0)`. */
  function SumDistance(samples: seq<DriftSample>): real {
    if samples == [] then 0.0 else SumDistance(samples[..|samples| - 1]) + samples[|samples| - 1].distance
  }

  /** `samples.reduce((sum, s) => sum + s.x, 0)`. */
  function SumX(samples: seq<DriftSample>): real {
    if samples == [] then 0.0 else SumX(samples[..|samples| - 1]) + samples[|samples| - 1].x
  }

  /** `samples.reduce((sum, s) => sum + s.y, 0)`. */
  function SumY(samples: seq<DriftSample>): real {
    if samples == [] then 0.0 else SumY(samples[..|samples| - 1]) + samples[|samples| - 1].y
  }

  predicate AllWellFormed(samples: seq<DriftSample>) {
    forall i :: 0 <= i < |samples| ==> WellFormed(samples[i])
  }

  /** The running maximum is the largest sample distance: no sample lies
      further out, and (for a non-empty record) some sample lies exactly
      there; with no samples it is 0. */
  lemma {:induction false} MaxDistanceIsMaximum(samples: seq<DriftSample>)
    requires AllWellFormed(samples)
    ensures MaxDistance(samples) >= 0.0
    ensures forall i :: 0 <= i < |samples| ==> samples[i].distance <= MaxDistance(samples)
    ensures samples != [] ==> exists i :: 0 <= i < |samples| && samples[i].distance == MaxDistance(samples)
  {
    if samples != [] {
      var front := samples[..|samples| - 1];
      assert AllWellFormed(front) by {
        forall i | 0 <= i < |front| ensures WellFormed(front[i]) {
          assert front[i] == samples[i];
        }
      }
      MaxDistanceIsMaximum(front);
      assert forall i :: 0 <= i < |front| ==> front[i] == samples[i];
      if front == [] || samples[|samples| - 1].distance > MaxDistance(front) {
        assert samples[|samples| - 1].distance == MaxDistance(samples);
      } else {
        var j :| 0 <= j < |front| && front[j].distance == MaxDistance(front);
        assert samples[j].distance == MaxDistance(samples);
      }
    }
  }

  /** The total distance is at most the number of samples times the maximum. */
  lemma {:induction false} SumAtMostCountTimesMax(samples: seq<DriftSample>)
    requires AllWellFormed(samples)
    ensures 0.0 <= SumDistance(samples) <= |samples| as real * MaxDistance(samples)
  {
    if samples != [] {
      var front := samples[..|samples| - 1];
      assert AllWellFormed(front) by {
        forall i | 0 <= i < |front| ensures WellFormed(front[i]) {
          assert front[i] == samples[i];
        }
      }
      SumAtMostCountTimesMax(front);
      var d := samples[|samples| - 1].distance;
      assert WellFormed(samples[|samples| - 1]);
      AddOneBelowMax(SumDistance(front), |front| as real, MaxDistance(front), d, MaxDistance(samples));
    }
  }

  /** Adding one more term `d` to a total of `n` terms each at most `mf`,
      where both `d` and `mf` are at most `m`, keeps the total within
      `(n + 1) * m`. */
  lemma AddOneBelowMax(total: real, n: real, mf: real, d: real, m: real)
    requires n >= 0.0 && 0.0 <= total <= n * mf && mf <= m && 0.0 <= d <= m
    ensures 0.0 <= total + d <= (n + 1.0) * m
  {
    assert n * (m - mf) >= 0.0;
  }

  /** The mean distance lies between 0 and the maximum distance. */
  lemma MeanAtMostMax(samples: seq<DriftSample>)
    requires AllWellFormed(samples) && samples != []
    ensures 0.0 <= SumDistance(samples) / |samples| as real <= MaxDistance(samples)
  {
    SumAtMostCountTimesMax(samples);
    QuotientBounds(SumDistance(samples), |samples| as real, MaxDistance(samples));
  }

  /** A total between 0 and `n * m`, shared out over `n > 0`, gives a share
      between 0 and `m`. */
  lemma QuotientBounds(total: real, n: real, m: real)
    requires n > 0.0 && 0.0 <= total <= n * m
    ensures 0.0 <= total / n <= m
  {
    var q := total / n;
    assert q * n == total;
    assert (m - q) * n == n * m - total;
  }

  /** The samples and summary of one stick, updated in place while measuring. */
  class StickDrift {
    var samples: seq<DriftSample>
    var maxDrift: real
    var avgDrift: real
    var centerX: real
    var centerY: real

    /** Every sample's distance is its norm, and `maxDrift` is their running maximum. */
    ghost predicate Valid()
      reads this
    {
      AllWellFormed(samples) && maxDrift == MaxDistance(samples)
    }

    /** The cleared record `resetDriftData` installs. */
    ghost predicate Cleared()
      reads this
    {
      samples == [] && maxDrift == 0.0 && avgDrift == 0.0 && centerX == 0.0 && centerY == 0.0
    }

    constructor ()
      ensures Valid() && Cleared()
    {
      samples, maxDrift, avgDrift, centerX, centerY := [], 0.0, 0.0, 0.0, 0.0;
    }

    /** `sampleDrift`: record the position with y inverted and its distance
        `distance` (the square root of x*x + y*y), raising the maximum if this
        sample lies further out. */
    method SampleDrift(x: real, y: real, distance: real)
      requires Valid()
      requires distance >= 0.0 && distance * distance == x * x + y * y
      modifies this
      ensures Valid()
      ensures samples == old(samples) + [DriftSample(x, -y, distance)]
      ensures avgDrift == old(avgDrift) && centerX == old(centerX) && centerY == old(centerY)
    {
      var adjustedY := -y;
      samples := samples + [DriftSample(x, adjustedY, distance)];
      assert samples[..|samples| - 1] == old(samples);
      if distance > maxDrift {
        maxDrift := distance;
      }
    }

    /** The per-stick part of `finalizeMeasurement`: with at least one sample,
        the mean distance and the mean position; with none, nothing changes. */
    method Finalize()
      requires Valid()
      modifies this
      ensures Valid() && samples == old(samples) && maxDrift == old(maxDrift)
      ensures |samples| > 0 ==>
        && avgDrift == SumDistance(samples) / |samples| as real
        && centerX == SumX(samples) / |samples| as real
        && centerY == SumY(samples) / |samples| as real
        && 0.0 <= avgDrift <= maxDrift
      ensures |samples| == 0 ==>
        avgDrift == old(avgDrift) && centerX == old(centerX) && centerY == old(centerY)
    {
      if |samples| > 0 {
        var n := |samples| as real;
        avgDrift := SumDistance(samples) / n;
        centerX := SumX(samples) / n;
        centerY := SumY(samples) / n;
        MeanAtMostMax(samples);
      }
    }
  }

  /** The drift threshold: 5% of full stick travel. */
  const DriftThreshold: real := 0.05

  /** The status shown for a stick, by its maximum drift. */
  datatype Severity = NoDrift | MinorDrift | ModerateDrift | SevereDrift

  /** The status badge of `updateDriftUI` and the text of `showOverallAssessment`:
      thresholds at 1, 2 and 4 times the drift threshold. */
  function Classify(maxDrift: real): (r: Severity)
    ensures r == NoDrift <==> maxDrift < 0.05
    ensures Rank(r) <= 1 <==> maxDrift < 0.1
    ensures Rank(r) <= 2 <==> maxDrift < 0.2
  {
    if maxDrift < DriftThreshold then NoDrift
    else if maxDrift < DriftThreshold * 2.0 then MinorDrift
    else if maxDrift < DriftThreshold * 4.0 then ModerateDrift
    else SevereDrift
  }

  function Rank(s: Severity): nat {
    match s
    case NoDrift => 0
    case MinorDrift => 1
    case ModerateDrift => 2
    case SevereDrift => 3
  }

  /** The classification cuts the line at 0.05, 0.1 and 0.2 and is monotone:
      more drift never gives a milder status. */
  lemma ClassifyIsMonotone(a: real, b: real)
    requires a <= b
    ensures Rank(Classify(a)) <= Rank(Classify(b))
    ensures Classify(a) == NoDrift <==> a < 0.05
    ensures Rank(Classify(a)) <= 1 <==> a < 0.1
    ensures Rank(Classify(a)) <= 2 <==> a < 0.2
  {
  }

  /** The colour classes `updateDriftUI` gives a badge. */
  datatype BadgeColor = Success | Warning | Danger

  /** The colour of the percentage badge (three levels). */
  function PercentageBadge(maxDrift: real): BadgeColor {
    if maxDrift < DriftThreshold then Success
    else if maxDrift < DriftThreshold * 2.0 then Warning
    else Danger
  }

  /** The colour of the status badge for each status. */
  function StatusBadge(s: Severity): BadgeColor {
    match s
    case NoDrift => Success
    case MinorDrift => Warning
    case ModerateDrift => Danger
    case SevereDrift => Danger
  }

  /** The two badges of a stick never disagree in colour. */
  lemma BadgesAgree(maxDrift: real)
    ensures PercentageBadge(maxDrift) == StatusBadge(Classify(maxDrift))
  {
  }

  /** The milder-or-worse of two statuses: the worse one. */
  function Worse(a: Severity, b: Severity): Severity {
    if Rank(a) >= Rank(b) then a else b
  }

  /** `showOverallAssessment`: the classification of the larger of the two
      sticks' maximum drifts. */
  function OverallAssessment(leftMax: real, rightMax: real): (r: Severity)
    ensures r == Classify(leftMax) || r == Classify(rightMax)
    ensures Rank(r) >= Rank(Classify(leftMax)) && Rank(r) >= Rank(Classify(rightMax))
  {
    ClassifyIsMonotone(leftMax, if leftMax >= rightMax then leftMax else rightMax);
    ClassifyIsMonotone(rightMax, if leftMax >= rightMax then leftMax else rightMax);
    Classify(if leftMax >= rightMax then leftMax else rightMax)
  }

  /** The overall assessment is the worse of the two sticks' statuses. */
  lemma OverallIsWorseStick(leftMax: real, rightMax: real)
    ensures OverallAssessment(leftMax, rightMax) == Worse(Classify(leftMax), Classify(rightMax))
  {
    if leftMax >= rightMax {
      ClassifyIsMonotone(rightMax, leftMax);
    } else {
      ClassifyIsMonotone(leftMax, rightMax);
    }
  }

  /** A stick's summary after `finalizeMeasurement`: the mean distance and
      the mean position of its samples, the mean lying between 0 and the
      maximum. */
  ghost predicate Summarised(d: StickDrift)
    reads d
  {
    && |d.samples| > 0
    && d.avgDrift == SumDistance(d.samples) / |d.samples| as real
    && d.centerX == SumX(d.samples) / |d.samples| as real
    && d.centerY == SumY(d.samples) / |d.samples| as real
    && 0.0 <= d.avgDrift <= d.maxDrift
  }

  /** `driftData`: the records of the two sticks. */
  class DriftSession {
    var left: StickDrift
    var right: StickDrift

    /** Both records are valid, distinct, and hold as many samples each: the
        sampler always records the two sticks together. */
    ghost predicate Valid()
      reads this, left, right
    {
      left != right && left.Valid() && right.Valid() && |left.samples| == |right.samples|
    }

    constructor ()
      ensures Valid() && left.Cleared() && right.Cleared()
    {
      left := new StickDrift();
      right := new StickDrift();
    }

    /** `resetDriftData`: both sticks get fresh, cleared records. */
    method ResetDriftData()
      modifies this
      ensures Valid() && fresh(left) && fresh(right)
      ensures left.Cleared() && right.Cleared()
    {
      left := new StickDrift();
      right := new StickDrift();
    }

    /** One sampling step of the measurement loop: the left stick, then the
        right one, each with its distance from centre. */
    method SampleSticks(leftX: real, leftY: real, leftDistance: real, rightX: real, rightY: real, rightDistance: real)
      requires Valid()
      requires leftDistance >= 0.0 && leftDistance * leftDistance == leftX * leftX + leftY * leftY
      requires rightDistance >= 0.0 && rightDistance * rightDistance == rightX * rightX + rightY * rightY
      modifies left, right
      ensures Valid()
      ensures left.samples == old(left.samples) + [DriftSample(leftX, -leftY, leftDistance)]
      ensures right.samples == old(right.samples) + [DriftSample(rightX, -rightY, rightDistance)]
      ensures left.avgDrift == old(left.avgDrift) && left.centerX == old(left.centerX) && left.centerY == old(left.centerY)
      ensures right.avgDrift == old(right.avgDrift) && right.centerX == old(right.centerX) && right.centerY == old(right.centerY)
    {
      left.SampleDrift(leftX, leftY, leftDistance);
      right.SampleDrift(rightX, rightY, rightDistance);
    }

    /** `finalizeMeasurement`: summarise both sticks and rate the worse one. */
    method FinalizeMeasurement() returns (overall: Severity)
      requires Valid()
      modifies left, right
      ensures Valid()
      ensures left.samples == old(left.samples) && right.samples == old(right.samples)
      ensures left.maxDrift == old(left.maxDrift) && right.maxDrift == old(right.maxDrift)
      ensures |left.samples| > 0 ==> Summarised(left)
      ensures |right.samples| > 0 ==> Summarised(right)
      ensures |left.samples| == 0 ==>
        left.avgDrift == old(left.avgDrift) && left.centerX == old(left.centerX) && left.centerY == old(left.centerY)
      ensures |right.samples| == 0 ==>
        right.avgDrift == old(right.avgDrift) && right.centerX == old(right.centerX) && right.centerY == old(right.centerY)
      ensures overall == OverallAssessment(left.maxDrift, right.maxDrift)
      ensures overall == Worse(Classify(left.maxDrift), Classify(right.maxDrift))
    {
      left.Finalize();
      right.Finalize();
      overall := OverallAssessment(left.maxDrift, right.maxDrift);
      OverallIsWorseStick(left.maxDrift, right.maxDrift);
    }
  }
}
