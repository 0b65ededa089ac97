/** The safety clamps the tools apply to untrusted numbers before they reach the motors or
    the recorder, and the defaults the WAV header falls back to. */
module Clamps {
  import opened Poses

  /** `max(lo, min(hi, x))`. */
  function Clamp(x: real, lo: real, hi: real): (r: real)
    requires lo <= hi
    ensures lo <= r <= hi
    ensures lo <= x <= hi ==> r == x
    ensures x < lo ==> r == lo
    ensures hi < x ==> r == hi
  {
    var m := if x < hi then x else hi;
    if lo < m then m else lo
  }

  /** The arguments of the `look` tool. */
  datatype LookRequest = LookRequest(roll: real, pitch: real, yaw: real, z: real, duration: real)

  predicate SafeLook(a: LookRequest)
  {
    && -45.0 <= a.roll <= 45.0
    && -30.0 <= a.pitch <= 30.0
    && -90.0 <= a.yaw <= 90.0
    && -20.0 <= a.z <= 20.0
    && 0.1 <= a.duration <= 5.0
  }

  /** `look`'s clamps: roll, pitch, yaw, z and duration each into its safe range. */
  function ClampLook(a: LookRequest): (r: LookRequest)
    ensures SafeLook(r)
    ensures SafeLook(a) ==> r == a
  {
    LookRequest(
      Clamp(a.roll, -45.0, 45.0),
      Clamp(a.pitch, -30.0, 30.0),
      Clamp(a.yaw, -90.0, 90.0),
      Clamp(a.z, -20.0, 20.0),
      Clamp(a.duration, 0.1, 5.0))
  }

  /** Clamping twice changes nothing more than clamping once. */
  lemma ClampLookIdempotent(a: LookRequest)
    ensures ClampLook(ClampLook(a)) == ClampLook(a)
  {
  }

  /** Each field of a clamped request depends on that field alone and moves only when it
      lay outside its range, to the nearer bound. */
  lemma ClampLookSaturates(a: LookRequest)
    ensures a.roll < -45.0 ==> ClampLook(a).roll == -45.0
    ensures 45.0 < a.roll ==> ClampLook(a).roll == 45.0
    ensures a.pitch < -30.0 ==> ClampLook(a).pitch == -30.0
    ensures 30.0 < a.pitch ==> ClampLook(a).pitch == 30.0
    ensures a.yaw < -90.0 ==> ClampLook(a).yaw == -90.0
    ensures 90.0 < a.yaw ==> ClampLook(a).yaw == 90.0
    ensures a.z < -20.0 ==> ClampLook(a).z == -20.0
    ensures 20.0 < a.z ==> ClampLook(a).z == 20.0
    ensures a.duration < 0.1 ==> ClampLook(a).duration == 0.1
    ensures 5.0 < a.duration ==> ClampLook(a).duration == 5.0
    ensures -45.0 <= a.roll <= 45.0 ==> ClampLook(a).roll == a.roll
    ensures -30.0 <= a.pitch <= 30.0 ==> ClampLook(a).pitch == a.pitch
    ensures -90.0 <= a.yaw <= 90.0 ==> ClampLook(a).yaw == a.yaw
    ensures -20.0 <= a.z <= 20.0 ==> ClampLook(a).z == a.z
    ensures 0.1 <= a.duration <= 5.0 ==> ClampLook(a).duration == a.duration
  {
  }

  /** `_do_listen`'s clamp of the recording time into [1, 30] seconds. */
  function ClampListen(seconds: real): (r: real)
    ensures 1.0 <= r <= 30.0
    ensures 1.0 <= seconds <= 30.0 ==> r == seconds
  {
    Clamp(seconds, 1.0, 30.0)
  }

  lemma ClampListenIdempotent(seconds: real)
    ensures ClampListen(ClampListen(seconds)) == ClampListen(seconds)
    ensures seconds < 1.0 ==> ClampListen(seconds) == 1.0
    ensures 30.0 < seconds ==> ClampListen(seconds) == 30.0
  {
  }

  /** The WAV layout handed to transcription: channel count, bytes per sample, frame rate. */
  datatype WavFormat = WavFormat(channels: int, sampleWidth: int, rate: int)

  /** The header `_do_listen` writes: a non-positive channel count becomes mono and a
      non-positive sample rate becomes 16 kHz; samples are always 16-bit. */
  function WavFormatFor(channels: int, rate: int): (f: WavFormat)
    ensures f.channels > 0 && f.rate > 0 && f.sampleWidth == 2
    ensures channels > 0 ==> f.channels == channels
    ensures channels <= 0 ==> f.channels == 1
    ensures rate > 0 ==> f.rate == rate
    ensures rate <= 0 ==> f.rate == 16000
  {
    WavFormat(if channels > 0 then channels else 1, 2, if rate > 0 then rate else 16000)
  }

  /** Defaulting is idempotent: a header built from a header's own values is that header. */
  lemma WavFormatStable(channels: int, rate: int)
    ensures var f := WavFormatFor(channels, rate); WavFormatFor(f.channels, f.rate) == f
  {
  }

  /** Every built-in expression already lies inside the ranges `look` enforces, so the
      table never asks for a head position a direct request could not reach. */
  lemma ExpressionsWithinLookRanges(name: string)
    requires name in ExpressionNames
    ensures var p := Expression(name).value;
      SafeLook(LookRequest(p.head.roll, p.head.pitch, p.head.yaw, p.head.z, p.duration))
  {
  }
}
