/** The deadzone arithmetic of the deadzone dialog: the per-axis response
    curve, the rescaling of the circularity limits of the 12-value fine-tune
    array, and the rule that an inner radius must lie below its outer radius. */
module Deadzone {
  import opened JsText
  import opened Optional

  /** One stick's deadzone radii, as fractions of full stick travel. */
  datatype StickDeadzone = StickDeadzone(inner: real, outer: real)

  /** The deadzone of both sticks. */
  datatype DeadzoneSettings = DeadzoneSettings(left: StickDeadzone, right: StickDeadzone)

  /** The settings the dialog starts from: no inner deadzone, full outer range. */
  function DefaultSettings(): (s: DeadzoneSettings)
    ensures ValidSettings(s)
  {
    DeadzoneSettings(StickDeadzone(0.0, 1.0), StickDeadzone(0.0, 1.0))
  }

  /** The rule both the save and the write-to-controller paths enforce. It is
      what keeps the response curve of both sticks free of NaN. */
  predicate ValidSettings(s: DeadzoneSettings)
    ensures ValidSettings(s) ==>
      forall v :: ApplyDeadzone(v, s.left.inner, s.left.outer).Num? && ApplyDeadzone(v, s.right.inner, s.right.outer).Num?
  {
    s.left.inner < s.left.outer && s.right.inner < s.right.outer
  }

  /** The settings read from the four percentage sliders (`value / 100`). */
  function SettingsFromSliders(leftInner: int, leftOuter: int, rightInner: int, rightOuter: int): (s: DeadzoneSettings)
    ensures ValidSettings(s) <==> leftInner < leftOuter && rightInner < rightOuter
  {
    DeadzoneSettings(
      StickDeadzone(leftInner as real / 100.0, leftOuter as real / 100.0),
      StickDeadzone(rightInner as real / 100.0, rightOuter as real / 100.0))
  }

  function Abs(x: real): real {
    if x < 0.0 then -x else x
  }

  /** `Math.sign`. */
  function Sign(x: real): real {
    if x > 0.0 then 1.0 else if x < 0.0 then -1.0 else 0.0
  }

  /** `applyDeadzone`: a stick value snaps to 0 inside the inner radius,
      saturates to its sign beyond the outer radius, and is rescaled linearly
      from [inner, outer] onto [0, 1] in between. When inner and outer are
      equal and the value sits exactly on them the division is 0 / 0, NaN. */
  function ApplyDeadzone(value: real, inner: real, outer: real): (r: JsNumber)
    ensures r.NaN? <==> Abs(value) == inner == outer
    ensures r.Num? ==> -1.0 <= r.value <= 1.0
  {
    var absValue := Abs(value);
    if absValue < inner then Num(0.0)
    else if absValue > outer then Num(Sign(value))
    else if outer == inner then NaN
    else
      ScaledFraction(absValue, inner, outer);
      Num(Sign(value) * ((absValue - inner) / (outer - inner)))
  }

  /** Inside the inner radius the output is exactly 0. */
  lemma InsideInnerIsZero(value: real, inner: real, outer: real)
    requires Abs(value) < inner
    ensures ApplyDeadzone(value, inner, outer) == Num(0.0)
  {
  }

  /** Beyond the outer radius (and not inside the inner one) the output is
      exactly +1 or -1, with the sign of the input. */
  lemma BeyondOuterSaturates(value: real, inner: real, outer: real)
    requires Abs(value) > outer && Abs(value) >= inner && outer >= 0.0
    ensures ApplyDeadzone(value, inner, outer) == Num(if value > 0.0 then 1.0 else -1.0)
  {
  }

  /** The linear part maps [inner, outer] into [0, 1]. */
  lemma ScaledFraction(a: real, inner: real, outer: real)
    requires inner <= a <= outer && inner < outer
    ensures 0.0 <= (a - inner) / (outer - inner) <= 1.0
  {
    var d := outer - inner;
    var q := (a - inner) / d;
    assert q * d == a - inner;
    if q > 1.0 {
      assert q * d > d;
    }
  }

  /** With inner < outer the curve is defined everywhere, stays within
      [-1, 1] and never flips the sign of its input. */
  lemma CurveIsBoundedAndSignPreserving(value: real, inner: real, outer: real)
    requires inner < outer
    ensures ApplyDeadzone(value, inner, outer).Num?
    ensures var r := ApplyDeadzone(value, inner, outer).value;
      -1.0 <= r <= 1.0 && (value >= 0.0 ==> r >= 0.0) && (value <= 0.0 ==> r <= 0.0)
  {
    var a := Abs(value);
    if inner <= a <= outer {
      ScaledFraction(a, inner, outer);
      var q := (a - inner) / (outer - inner);
      assert ApplyDeadzone(value, inner, outer) == Num(Sign(value) * q);
    }
  }

  /** The curve is odd for every choice of radii, NaN included. */
  lemma CurveIsOdd(value: real, inner: real, outer: real)
    ensures ApplyDeadzone(-value, inner, outer) == Negate(ApplyDeadzone(value, inner, outer))
  {
  }

  /** With no inner deadzone and full outer range the curve is the identity
      on [-1, 1]. */
  lemma DefaultCurveIsIdentity(value: real)
    requires -1.0 <= value <= 1.0
    ensures ApplyDeadzone(value, DefaultSettings().left.inner, DefaultSettings().left.outer) == Num(value)
  {
  }

  /** On non-negative values the curve is monotone. */
  lemma MonotoneOnPositives(a: real, b: real, inner: real, outer: real)
    requires inner < outer && 0.0 <= a <= b
    ensures ApplyDeadzone(a, inner, outer).Num? && ApplyDeadzone(b, inner, outer).Num?
    ensures ApplyDeadzone(a, inner, outer).value <= ApplyDeadzone(b, inner, outer).value
  {
    CurveIsBoundedAndSignPreserving(a, inner, outer);
    CurveIsBoundedAndSignPreserving(b, inner, outer);
    if inner <= a <= outer && inner <= b <= outer && a > 0.0 {
      var d := outer - inner;
      QuotientIsMonotone(a - inner, b - inner, d);
      assert ApplyDeadzone(a, inner, outer) == Num((a - inner) / d);
      assert ApplyDeadzone(b, inner, outer) == Num((b - inner) / d);
    }
  }

  /** Dividing by a positive number keeps the order. */
  lemma QuotientIsMonotone(x: real, y: real, d: real)
    requires d > 0.0 && x <= y
    ensures x / d <= y / d
  {
    var qx, qy := x / d, y / d;
    assert qx * d == x && qy * d == y;
    assert (qy - qx) * d == y - x;
  }

  /** With inner < outer the curve is monotone: a larger stick value never
      gives a smaller output. */
  lemma CurveIsMonotone(v: real, w: real, inner: real, outer: real)
    requires inner < outer && v <= w
    ensures ApplyDeadzone(v, inner, outer).Num? && ApplyDeadzone(w, inner, outer).Num?
    ensures ApplyDeadzone(v, inner, outer).value <= ApplyDeadzone(w, inner, outer).value
  {
    CurveIsBoundedAndSignPreserving(v, inner, outer);
    CurveIsBoundedAndSignPreserving(w, inner, outer);
    if 0.0 <= v {
      MonotoneOnPositives(v, w, inner, outer);
    } else if w <= 0.0 {
      MonotoneOnPositives(-w, -v, inner, outer);
      CurveIsOdd(v, inner, outer);
      CurveIsOdd(w, inner, outer);
    }
  }

  /** The number of 16-bit values in the fine-tune array, in the order
      LL, LT, LR, LB, RL, RT, RR, RB, LX, LY, RX, RY. */
  const FinetuneLength: nat := 12

  /** The largest value one fine-tune entry can hold. */
  const MaxFinetuneValue: int := 65535

  /** `Math.round`: the nearest integer, halves rounded up. */
  function Round(x: real): int {
    (x + 0.5).Floor
  }

  /** `Math.round` gives the nearest integer: it is within one half of `x`. */
  lemma RoundIsNearest(x: real)
    ensures x - 0.5 < Round(x) as real <= x + 0.5
  {
  }

  /** One entry of the fine-tune array after `applyDeadzoneToFinetuneData`:
      entries 0-3 (left circularity) scaled by the left outer radius, entries
      4-7 (right circularity) by the right one, centres 8-11 kept. */
  function ScaledEntry(data: seq<int>, s: DeadzoneSettings, i: nat): int
    requires i < |data|
  {
    if i < 4 then Round(data[i] as real * s.left.outer)
    else if i < 8 then Round(data[i] as real * s.right.outer)
    else data[i]
  }

  /** The whole fine-tune array after `applyDeadzoneToFinetuneData`. */
  function ScaledFinetune(data: seq<int>, s: DeadzoneSettings): (r: seq<int>)
    ensures |r| == |data|
    ensures forall i :: 8 <= i < |data| ==> r[i] == data[i]
  {
    seq(|data|, i requires 0 <= i < |data| => ScaledEntry(data, s, i))
  }

  /** Scaling a 16-bit value by a factor in [0, 1] and rounding lands between
      0 and the original value. */
  lemma {:induction false} RoundedScaleBounds(orig: int, scale: real)
    requires 0 <= orig && 0.0 <= scale <= 1.0
    ensures 0 <= Round(orig as real * scale) <= orig
  {
    var x := orig as real * scale;
    assert 0.0 <= x by {
      assert 0.0 <= orig as real;
    }
    assert x <= orig as real by {
      assert orig as real * (1.0 - scale) >= 0.0;
    }
  }

  /** `applyDeadzoneToFinetuneData` with outer radii in [0, 1] shrinks each
      circularity entry towards 0 and keeps the centres, so the result is
      still a valid array of 16-bit values. */
  lemma {:induction false} ScaledFinetuneInRange(data: seq<int>, s: DeadzoneSettings)
    requires |data| == FinetuneLength
    requires forall i :: 0 <= i < |data| ==> 0 <= data[i] <= MaxFinetuneValue
    requires 0.0 <= s.left.outer <= 1.0 && 0.0 <= s.right.outer <= 1.0
    ensures forall i :: 0 <= i < 8 ==> 0 <= ScaledFinetune(data, s)[i] <= data[i]
    ensures forall i :: 8 <= i < FinetuneLength ==> ScaledFinetune(data, s)[i] == data[i]
    ensures forall i :: 0 <= i < FinetuneLength ==> 0 <= ScaledFinetune(data, s)[i] <= MaxFinetuneValue
  {
    forall i | 0 <= i < 8
      ensures 0 <= ScaledFinetune(data, s)[i] <= data[i]
    {
      RoundedScaleBounds(data[i], if i < 4 then s.left.outer else s.right.outer);
    }
  }

  /** Only the outer radii matter: the inner radii have no effect on the
      fine-tune output. */
  lemma InnerRadiusIrrelevant(data: seq<int>, s: DeadzoneSettings, t: DeadzoneSettings)
    requires s.left.outer == t.left.outer && s.right.outer == t.right.outer
    ensures ScaledFinetune(data, s) == ScaledFinetune(data, t)
  {
    assert forall i :: 0 <= i < |data| ==> ScaledFinetune(data, s)[i] == ScaledFinetune(data, t)[i];
  }

  /** The default settings leave the fine-tune array unchanged. */
  lemma {:induction false} DefaultKeepsFinetune(data: seq<int>)
    ensures ScaledFinetune(data, DefaultSettings()) == data
  {
    forall i | 0 <= i < |data|
      ensures ScaledFinetune(data, DefaultSettings())[i] == data[i]
    {
      assert data[i] as real * 1.0 == data[i] as real;
    }
  }

  /** `applyDeadzoneToFinetuneData`: copy the array, then overwrite the left
      and then the right circularity entries in two loops. The input array
      is left as it was. */
  method ApplyDeadzoneToFinetuneData(finetune: array<int>, settings: DeadzoneSettings) returns (modified: array<int>)
    requires finetune.Length == FinetuneLength
    ensures fresh(modified)
    ensures modified.Length == finetune.Length
    ensures modified[..] == ScaledFinetune(finetune[..], settings)
  {
    ghost var data := finetune[..];
    modified := new int[finetune.Length];
    forall i | 0 <= i < finetune.Length {
      modified[i] := finetune[i];
    }
    var leftOuterScale := settings.left.outer;
    for i := 0 to 4
      invariant forall k :: 0 <= k < i ==> modified[k] == ScaledEntry(data, settings, k)
      invariant forall k :: i <= k < FinetuneLength ==> modified[k] == data[k]
    {
      modified[i] := Round(finetune[i] as real * leftOuterScale);
      assert modified[i] == ScaledEntry(data, settings, i);
    }
    var rightOuterScale := settings.right.outer;
    for i := 4 to 8
      invariant forall k :: 0 <= k < i ==> modified[k] == ScaledEntry(data, settings, k)
      invariant forall k :: i <= k < FinetuneLength ==> modified[k] == data[k]
    {
      modified[i] := Round(finetune[i] as real * rightOuterScale);
      assert modified[i] == ScaledEntry(data, settings, i);
    }
    assert forall k :: 0 <= k < FinetuneLength ==> modified[..][k] == ScaledFinetune(data, settings)[k];
    assert modified[..] == ScaledFinetune(data, settings);
    assert finetune[..] == data;
  }

  /** What `saveDeadzoneSettings` hands on to the save callback, if anything;
      `callbackRegistered` says whether the dialog has one. */
  function SaveDeadzoneSettings(s: DeadzoneSettings, callbackRegistered: bool): (r: Option<DeadzoneSettings>)
    ensures r.Some? <==> ValidSettings(s) && callbackRegistered
    ensures r.Some? ==> r.value == s
  {
    if s.left.inner >= s.left.outer || s.right.inner >= s.right.outer then None
    else if !callbackRegistered then None
    else Some(s)
  }

  /** How `applyDeadzoneToController` ends. */
  datatype ApplyOutcome =
    | Rejected              // inner >= outer on a stick: an alert, nothing read or written
    | Cancelled             // the user declined the confirmation
    | ManagerMissing        // no controller manager: the error path, nothing written
    | Written(data: seq<int>)  // the fine-tune array written back to controller memory

  /** `applyDeadzoneToController`: validate, confirm, read the controller's
      fine-tune array (`None` when there is no controller manager), rescale
      it and write it back. */
  function ApplyDeadzoneToController(s: DeadzoneSettings, confirmed: bool, moduleData: Option<seq<int>>): (r: ApplyOutcome)
    requires moduleData.Some? ==> |moduleData.value| == FinetuneLength
    ensures !ValidSettings(s) ==> r == Rejected
    ensures r.Written? <==> ValidSettings(s) && confirmed && moduleData.Some?
    ensures r.Written? ==> r.data == ScaledFinetune(moduleData.value, s)
  {
    if s.left.inner >= s.left.outer || s.right.inner >= s.right.outer then Rejected
    else if !confirmed then Cancelled
    else if moduleData.None? then ManagerMissing
    else Written(ScaledFinetune(moduleData.value, s))
  }
}
