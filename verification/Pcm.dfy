/** The 16-bit PCM formats of the stream: uplink decoding (api/ws/stream.py), int16
    quantisation and 100 ms downlink framing (audio/resample.py). Samples are exact reals. */
module Pcm {
  import opened Prelude

  const BYTES_PER_FRAME := 3200
  const SAMPLES_PER_FRAME := 1600

  // ----- quantisation -----

  /** Round to nearest, ties to the even neighbour, as Python and numpy round. */
  function RoundHalfEven(x: real): (r: int)
    ensures -0.5 <= x - r as real <= 0.5
    ensures x - r as real == 0.5 || x - r as real == -0.5 ==> r % 2 == 0
  {
    var f := x.Floor;
    var d := x - f as real;
    if d < 0.5 || (d == 0.5 && f % 2 == 0) then f else f + 1
  }

  lemma RoundUnique(x: real, n: int)
    requires -0.5 < x - n as real < 0.5
    ensures RoundHalfEven(x) == n
  {
    var gap := (RoundHalfEven(x) - n) as real;
    assert -1.0 < gap < 1.0;
  }

  lemma RoundMonotone(x: real, y: real)
    requires x <= y
    ensures RoundHalfEven(x) <= RoundHalfEven(y)
  {
    var i, j := RoundHalfEven(x), RoundHalfEven(y);
    if i > j {
      assert i as real - j as real <= 1.0;
      assert i == j + 1;
    }
  }

  function Clip(x: real): real {
    if x < -1.0 then -1.0 else if 1.0 < x then 1.0 else x
  }

  /** Full-scale scaling of one sample to int16. */
  function Quantise(x: real): (s: Int16)
    ensures -32767 <= s
  {
    var v := Clip(x) * 32767.0;
    assert -32767.0 <= v <= 32767.0;
    RoundHalfEven(v)
  }

  lemma QuantiseMonotone(x: real, y: real)
    requires x <= y
    ensures Quantise(x) <= Quantise(y)
  {
    RoundMonotone(Clip(x) * 32767.0, Clip(y) * 32767.0);
  }

  // ----- little-endian coding -----

  function EncodeSample(s: Int16): seq<Byte> {
    var u := if s < 0 then s + 65536 else s;
    [u % 256, u / 256]
  }

  function DecodeSample(lo: Byte, hi: Byte): Int16 {
    var u := lo + 256 * hi;
    if u < 32768 then u else u - 65536
  }

  /** The bytes of an int16 buffer, low byte first. */
  function EncodePcm(pcm: seq<Int16>): (raw: seq<Byte>)
    ensures |raw| == 2 * |pcm|
  {
    if pcm == [] then [] else EncodeSample(pcm[0]) + EncodePcm(pcm[1..])
  }

  /** Reads a byte buffer as little-endian int16. */
  function DecodePcm(raw: seq<Byte>): (pcm: seq<Int16>)
    requires |raw| % 2 == 0
    ensures |pcm| == |raw| / 2
  {
    if raw == [] then [] else [DecodeSample(raw[0], raw[1])] + DecodePcm(raw[2..])
  }

  /** The uplink decoder: int16 little-endian bytes to samples in [-1, 1). */
  function DecodeUplink(raw: seq<Byte>): (audio: seq<real>)
    requires |raw| % 2 == 0
    ensures |audio| == |raw| / 2
    ensures forall i :: 0 <= i < |audio| ==> -1.0 <= audio[i] < 1.0
  {
    var pcm := DecodePcm(raw);
    seq(|pcm|, i requires 0 <= i < |pcm| => pcm[i] as real / 32768.0)
  }

  lemma {:induction false} DecodeEncode(pcm: seq<Int16>)
    ensures DecodePcm(EncodePcm(pcm)) == pcm
  {
    if pcm != [] {
      var raw := EncodePcm(pcm);
      DecodeEncode(pcm[1..]);
      assert raw[2..] == EncodePcm(pcm[1..]);
    }
  }

  lemma {:induction false} DecodeAppend(a: seq<Byte>, b: seq<Byte>)
    requires |a| % 2 == 0 && |b| % 2 == 0
    ensures DecodePcm(a + b) == DecodePcm(a) + DecodePcm(b)
  {
    if a == [] {
      assert a + b == b;
    } else {
      assert (a + b)[2..] == a[2..] + b;
      DecodeAppend(a[2..], b);
    }
  }

  /** Decoding one int16 sample and quantising it again moves it by at most one step towards
      zero, and leaves it alone exactly when its magnitude is at most 16384. */
  lemma RequantiseSample(s: Int16)
    ensures var q := Quantise(s as real / 32768.0);
      && (q == s <==> -16384 <= s <= 16384)
      && (s > 16384 ==> q == s - 1)
      && (s < -16384 ==> q == s + 1)
  {
    var x := s as real / 32768.0;
    var v := Clip(x) * 32767.0;
    assert v == s as real - x;
    if s > 16384 {
      RoundUnique(v, s - 1);
    } else if s < -16384 {
      RoundUnique(v, s + 1);
    } else if s == 16384 || s == -16384 {
      var r := RoundHalfEven(v);
      assert v - s as real == 0.5 || v - s as real == -0.5;
    } else {
      RoundUnique(v, s);
    }
  }

  /** The sample two bytes stand for: their little-endian value, as a signed 16-bit number. */
  predicate StandsFor(lo: Byte, hi: Byte, s: Int16) {
    lo + 256 * hi == if s < 0 then s + 65536 else s
  }

  /** Uplink bytes are read in pairs, low byte first, and scaled by 1 / 32768. */
  lemma {:induction false} UplinkIsLittleEndian(raw: seq<Byte>, i: nat)
    requires |raw| % 2 == 0 && i < |raw| / 2
    ensures StandsFor(raw[2 * i], raw[2 * i + 1], DecodePcm(raw)[i])
    ensures DecodeUplink(raw)[i] == DecodePcm(raw)[i] as real / 32768.0
  {
    if i > 0 { UplinkIsLittleEndian(raw[2..], i - 1); }
  }

  /** And downlink samples are written in pairs the same way. */
  lemma {:induction false} DownlinkIsLittleEndian(pcm: seq<Int16>, i: nat)
    requires i < |pcm|
    ensures StandsFor(EncodePcm(pcm)[2 * i], EncodePcm(pcm)[2 * i + 1], pcm[i])
  {
    if i > 0 {
      DownlinkIsLittleEndian(pcm[1..], i - 1);
      assert EncodePcm(pcm)[2..] == EncodePcm(pcm[1..]);
    }
  }

  /** Quantising picks an integer nearest to 32767 times the sample, the even one of two, and full scale for a
      sample outside [-1, 1]. */
  lemma QuantiseIsNearest(x: real)
    ensures x > 1.0 ==> Quantise(x) == 32767
    ensures x < -1.0 ==> Quantise(x) == -32767
    ensures -1.0 <= x <= 1.0 ==>
      var gap := Quantise(x) as real - 32767.0 * x;
      -0.5 <= gap <= 0.5 && (gap == 0.5 || gap == -0.5 ==> Quantise(x) % 2 == 0)
  {
  }

  // ----- 100 ms frames -----

  /** Slices of `BYTES_PER_FRAME` bytes; the last one may be short. */
  function Chunks(raw: seq<Byte>): (frames: seq<seq<Byte>>)
    ensures |frames| == (|raw| + BYTES_PER_FRAME - 1) / BYTES_PER_FRAME
  {
    seq((|raw| + BYTES_PER_FRAME - 1) / BYTES_PER_FRAME,
        k requires 0 <= k < (|raw| + BYTES_PER_FRAME - 1) / BYTES_PER_FRAME =>
          raw[k * BYTES_PER_FRAME..if (k + 1) * BYTES_PER_FRAME <= |raw| then (k + 1) * BYTES_PER_FRAME else |raw|])
  }

  function Chunk100ms(pcm: seq<Int16>): seq<seq<Byte>> {
    Chunks(EncodePcm(pcm))
  }

  lemma {:induction false} FlattenChunks(raw: seq<Byte>)
    ensures Flatten(Chunks(raw)) == raw
    decreases |raw|
  {
    var frames := Chunks(raw);
    if |raw| <= BYTES_PER_FRAME {
      if raw != [] {
        assert |frames| == 1 && frames[0] == raw && frames[1..] == [];
        assert Flatten(frames) == raw + Flatten<Byte>([]);
      }
    } else {
      var rest := raw[BYTES_PER_FRAME..];
      var tail := Chunks(rest);
      assert |frames[1..]| == |tail|;
      forall k | 0 <= k < |tail|
        ensures frames[1..][k] == tail[k]
      {
        assert frames[1..][k] == frames[k + 1];
      }
      assert frames[1..] == tail;
      FlattenChunks(rest);
      assert frames[0] == raw[..BYTES_PER_FRAME];
    }
  }

  /** What the edge receives for a clip: the frames carry exactly the clip, every frame is whole
      samples, all but a nonempty last one are full, and there are ceil(n / 1600) of them. */
  lemma DownlinkFraming(pcm: seq<Int16>)
    ensures var frames := Chunk100ms(pcm);
      && |Flatten(frames)| % 2 == 0
      && DecodePcm(Flatten(frames)) == pcm
      && |frames| == (|pcm| + SAMPLES_PER_FRAME - 1) / SAMPLES_PER_FRAME
      && (forall k :: 0 <= k < |frames| ==> |frames[k]| % 2 == 0 && 0 < |frames[k]| <= BYTES_PER_FRAME)
      && (forall k :: 0 <= k < |frames| - 1 ==> |frames[k]| == BYTES_PER_FRAME)
  {
    FlattenChunks(EncodePcm(pcm));
    DecodeEncode(pcm);
  }
}
