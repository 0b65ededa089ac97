/** The EXPRESSIONS pose table of the server, the lookup of interpolation methods by name
    and the emotion names the `show` tool accepts. */
module Poses {
  import opened Wrappers

  /** The SDK's interpolation techniques. */
  datatype Interpolation = Linear | MinJerk | EaseInOut | Cartoon

  /** A head target: vertical offset `z` and roll, pitch and yaw in degrees. */
  datatype HeadPose = HeadPose(z: real, roll: real, pitch: real, yaw: real)

  /** One EXPRESSIONS entry: head target, [left, right] antenna angles in degrees,
      transition time in seconds and the name of an interpolation technique (the `"method"` key). */
  datatype Pose = Pose(head: HeadPose, antennas: (real, real), duration: real, technique: string)

  /** The keys of EXPRESSIONS, in the table's order. */
  const ExpressionNames: seq<string> :=
    ["neutral", "curious", "uncertain", "recognition", "joy", "thinking",
     "listening", "agreeing", "disagreeing", "sleepy", "surprised", "focused"]

  /** The names `show` declares for its `emotion` argument. */
  const ShowEmotions: seq<string> :=
    ["neutral", "curious", "uncertain", "recognition", "joy",
     "thinking", "listening", "agreeing", "disagreeing",
     "sleepy", "surprised", "focused"]

  /** The method names the interpolation lookup knows. */
  const MethodKeys: seq<string> := ["linear", "minjerk", "ease_in_out", "cartoon"]

  /** `EXPRESSIONS.get(name)`. */
  function Expression(name: string): (r: Option<Pose>)
    ensures r.Some? <==> name in ExpressionNames
  {
    match name
    case "neutral" => Some(Pose(HeadPose(0.0, 0.0, 0.0, 0.0), (0.0, 0.0), 1.5, "minjerk"))
    case "curious" => Some(Pose(HeadPose(0.0, 0.0, 10.0, 8.0), (20.0, 20.0), 1.2, "ease_in_out"))
    case "uncertain" => Some(Pose(HeadPose(0.0, 8.0, -3.0, 3.0), (-15.0, 15.0), 2.0, "minjerk"))
    case "recognition" => Some(Pose(HeadPose(0.0, 0.0, 5.0, 0.0), (30.0, 30.0), 0.8, "cartoon"))
    case "joy" => Some(Pose(HeadPose(0.0, -3.0, 8.0, 0.0), (40.0, 40.0), 1.0, "cartoon"))
    case "thinking" => Some(Pose(HeadPose(0.0, 5.0, 3.0, 12.0), (8.0, -8.0), 1.5, "ease_in_out"))
    case "listening" => Some(Pose(HeadPose(0.0, -3.0, 8.0, 0.0), (25.0, 25.0), 1.0, "minjerk"))
    case "agreeing" => Some(Pose(HeadPose(0.0, 0.0, 8.0, 0.0), (20.0, 20.0), 0.5, "ease_in_out"))
    case "disagreeing" => Some(Pose(HeadPose(0.0, 0.0, 0.0, 12.0), (-8.0, -8.0), 0.4, "ease_in_out"))
    case "sleepy" => Some(Pose(HeadPose(0.0, 8.0, -10.0, 0.0), (-20.0, -20.0), 2.5, "minjerk"))
    case "surprised" => Some(Pose(HeadPose(0.0, 0.0, -8.0, 0.0), (45.0, 45.0), 0.3, "cartoon"))
    case "focused" => Some(Pose(HeadPose(0.0, 0.0, 6.0, 0.0), (18.0, 18.0), 1.0, "minjerk"))
    case _ => None
  }

  /** What every entry of the table promises the motor collaborator. */
  predicate ValidPose(p: Pose)
  {
    && p.duration > 0.0
    && -45.0 <= p.antennas.0 <= 90.0 && -45.0 <= p.antennas.1 <= 90.0
    && p.technique in MethodKeys
  }

  /** `get_interpolation_method`: the four known names, anything else min-jerk. */
  function InterpolationFor(name: string): (r: Interpolation)
    ensures name !in MethodKeys ==> r == MinJerk
    ensures r == MinJerk <==> name !in ["linear", "ease_in_out", "cartoon"]
  {
    match name
    case "linear" => Linear
    case "minjerk" => MinJerk
    case "ease_in_out" => EaseInOut
    case "cartoon" => Cartoon
    case _ => MinJerk
  }

  /** The techniques the known method names select, in the order of `MethodKeys`. */
  function KnownTechniques(): (r: seq<Interpolation>)
    ensures |r| == |MethodKeys|
  {
    seq(|MethodKeys|, i requires 0 <= i < |MethodKeys| => InterpolationFor(MethodKeys[i]))
  }

  /** The known method names and the techniques correspond one to one. */
  lemma InterpolationKeysBijective()
    ensures forall i, j :: 0 <= i < j < |MethodKeys| ==> KnownTechniques()[i] != KnownTechniques()[j]
    ensures forall m: Interpolation :: m in KnownTechniques()
  {
    var ks := KnownTechniques();
    assert ks == [Linear, MinJerk, EaseInOut, Cartoon];
    forall m: Interpolation ensures m in ks {
      match m
      case Linear => assert ks[0] == m;
      case MinJerk => assert ks[1] == m;
      case EaseInOut => assert ks[2] == m;
      case Cartoon => assert ks[3] == m;
    }
  }

  /** Every emotion `show` offers has exactly one table entry, and every entry is valid. */
  lemma ShowEmotionsCovered()
    ensures forall e :: e in ShowEmotions ==> Expression(e).Some? && ValidPose(Expression(e).value)
    ensures forall i, j :: 0 <= i < j < |ExpressionNames| ==> ExpressionNames[i] != ExpressionNames[j]
    ensures forall n :: n in ExpressionNames <==> n in ShowEmotions
  {
  }
}
