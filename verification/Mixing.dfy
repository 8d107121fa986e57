/**
 * One round of the bridge's mix (audio/utils.go, bridge.go): saturating 16-bit sums written over
 * their own input, and for each stream the mix without its own frame, written over its read buffer.
 */
module Mixing {
  import opened Basics

  const MAX_SAMPLE := 32767
  const MIN_SAMPLE := -32768

  type Sample = x: int | -32768 <= x <= 32767

  function Clamp(x: int): Sample {
    if x > MAX_SAMPLE then MAX_SAMPLE else if x < MIN_SAMPLE then MIN_SAMPLE else x
  }

  /** A little-endian signed 16-bit sample. */
  function Decode(lo: Byte, hi: Byte): Sample {
    var u := lo + 256 * hi;
    if u < 32768 then u else u - 65536
  }

  function Low(x: Sample): Byte {
    x % 256
  }

  function High(x: Sample): Byte {
    if x >= 0 then x / 256 else (x + 65536) / 256
  }

  lemma DecodeEncoded(x: Sample)
    ensures Decode(Low(x), High(x)) == x
  {
  }

  /** Samples are little-endian two's complement, and writing back what was read changes no byte. */
  lemma SampleBytes(lo: Byte, hi: Byte)
    ensures Low(Decode(lo, hi)) == lo && High(Decode(lo, hi)) == hi
    ensures Decode(1, 0) == 1 && Decode(0, 1) == 256 && Decode(0, 128) == -32768 && Decode(255, 255) == -1
  {
  }

  /** Sample `k` of a frame. */
  function At(frame: seq<Byte>, k: nat): Sample
    requires 2 * k + 1 < |frame|
  {
    Decode(frame[2 * k], frame[2 * k + 1])
  }

  /** Sample `k` of a frame, zero past its end. */
  function Extended(frame: seq<Byte>, k: nat): Sample {
    if 2 * k + 1 < |frame| then At(frame, k) else 0
  }

  // ---------- what a round computes ----------

  /** The running saturating sum PCMMix leaves after the given frames. */
  function Mixed(frames: seq<seq<Byte>>, k: nat): Sample {
    if frames == [] then 0
    else Clamp(Mixed(frames[..|frames| - 1], k) + Extended(frames[|frames| - 1], k))
  }

  function Total(frames: seq<seq<Byte>>, k: nat): int {
    if frames == [] then 0
    else Total(frames[..|frames| - 1], k) + Extended(frames[|frames| - 1], k)
  }

  /** What stream `i` hears of sample `k`: the mix without its own frame, saturated. */
  function Heard(frames: seq<seq<Byte>>, i: nat, k: nat): Sample
    requires i < |frames|
  {
    Clamp(Mixed(frames, k) - Extended(frames[i], k))
  }

  /** The sum of every other stream's sample. */
  function Others(frames: seq<seq<Byte>>, i: nat, k: nat): int
    requires i < |frames|
  {
    Total(frames[..i], k) + Total(frames[i + 1..], k)
  }

  /** No sum of the first streams leaves 16 bits. */
  predicate NeverSaturates(frames: seq<seq<Byte>>, k: nat) {
    forall j :: 0 <= j <= |frames| ==> MIN_SAMPLE <= Total(frames[..j], k) <= MAX_SAMPLE
  }

  lemma {:induction false} MixedIsTotal(frames: seq<seq<Byte>>, k: nat)
    requires NeverSaturates(frames, k)
    ensures Mixed(frames, k) == Total(frames, k)
    decreases |frames|
  {
    if frames == [] {
    } else {
      var front := frames[..|frames| - 1];
      assert forall j :: 0 <= j <= |front| ==> front[..j] == frames[..j];
      MixedIsTotal(front, k);
      assert frames[..|frames|] == frames;
    }
  }

  lemma {:induction false} TotalSplits(a: seq<seq<Byte>>, b: seq<seq<Byte>>, k: nat)
    ensures Total(a + b, k) == Total(a, k) + Total(b, k)
    decreases |b|
  {
    if b == [] {
      assert a + b == a;
    } else {
      assert (a + b)[..|a + b| - 1] == a + b[..|b| - 1];
      TotalSplits(a, b[..|b| - 1], k);
    }
  }

  lemma OthersAreTheRest(frames: seq<seq<Byte>>, i: nat, k: nat)
    requires i < |frames|
    ensures Others(frames, i, k) == Total(frames, k) - Extended(frames[i], k)
  {
    assert frames == frames[..i] + ([frames[i]] + frames[i + 1..]);
    TotalSplits(frames[..i], [frames[i]] + frames[i + 1..], k);
    TotalSplits([frames[i]], frames[i + 1..], k);
    assert Total([frames[i]], k) == Total([frames[i]][..0], k) + Extended(frames[i], k);
  }

  /**
   * While the running sum stays within 16 bits, a stream hears the saturated sum of all the
   * others, so exactly their sum if and only if that fits.
   */
  lemma HearsTheOthers(frames: seq<seq<Byte>>, i: nat, k: nat)
    requires i < |frames| && NeverSaturates(frames, k)
    ensures Heard(frames, i, k) == Clamp(Others(frames, i, k))
    ensures Heard(frames, i, k) == Others(frames, i, k) <==> MIN_SAMPLE <= Others(frames, i, k) <= MAX_SAMPLE
  {
    MixedIsTotal(frames, k);
    OthersAreTheRest(frames, i, k);
  }

  // ---------- exactly when a round is undistorted ----------

  /** The sums of the first streams, none to all, which a caller can add up without mixing. */
  function Sums(frames: seq<seq<Byte>>, k: nat): seq<int> {
    seq(|frames| + 1, j requires 0 <= j <= |frames| => Total(frames[..j], k))
  }

  function Negated(sums: seq<int>): seq<int> {
    seq(|sums|, j requires 0 <= j < |sums| => -sums[j])
  }

  predicate ReturnsFrom(sums: seq<int>, j: nat, back: int) {
    exists u :: j <= u < |sums| && sums[u] <= back
  }

  /** Every sum above `over` is followed by one at or below `back`. */
  predicate Undone(sums: seq<int>, over: int, back: int) {
    forall j :: 0 <= j < |sums| && sums[j] > over ==> ReturnsFrom(sums, j, back)
  }

  /** Every sum above 16 bits is followed by one at or below their lower end, which saturates back. */
  predicate HighsUndone(frames: seq<seq<Byte>>, k: nat) {
    Undone(Sums(frames, k), MAX_SAMPLE, MIN_SAMPLE)
  }

  /** Every sum below 16 bits is followed by one at or above their upper end. */
  predicate LowsUndone(frames: seq<seq<Byte>>, k: nat) {
    Undone(Negated(Sums(frames, k)), -MIN_SAMPLE, -MAX_SAMPLE)
  }

  lemma UndoneStep(sums: seq<int>, x: int, over: int, back: int)
    requires back < over
    ensures Undone(sums + [x], over, back) <==> x <= over && (x <= back || Undone(sums, over, back))
  {
    var grown := sums + [x];
    if Undone(grown, over, back) {
      assert grown[|sums|] == x;
      forall j | 0 <= j < |sums| && sums[j] > over && x > back
        ensures ReturnsFrom(sums, j, back)
      {
        assert grown[j] > over;
        var u :| j <= u < |grown| && grown[u] <= back;
        assert sums[u] <= back;
      }
    }
    if x <= over && (x <= back || Undone(sums, over, back)) {
      forall j | 0 <= j < |grown| && grown[j] > over
        ensures ReturnsFrom(grown, j, back)
      {
        assert sums[j] > over && grown[|sums|] == x;
        if x > back {
          var u :| j <= u < |sums| && sums[u] <= back;
          assert grown[u] <= back;
        }
      }
    }
  }

  lemma SumsStep(frames: seq<seq<Byte>>, k: nat)
    requires frames != []
    ensures var front := frames[..|frames| - 1];
            && Sums(frames, k) == Sums(front, k) + [Total(frames, k)]
            && Negated(Sums(frames, k)) == Negated(Sums(front, k)) + [-Total(frames, k)]
  {
    hide Total;
    var front := frames[..|frames| - 1];
    assert frames[..|frames|] == frames;
    assert forall j :: 0 <= j <= |front| ==> front[..j] == frames[..j];
  }

  /** The mix is short of the true total exactly when a high is left, and above it when a low is. */
  lemma {:induction false} MixedAgainstTotal(frames: seq<seq<Byte>>, k: nat)
    ensures Mixed(frames, k) >= Total(frames, k) <==> HighsUndone(frames, k)
    ensures Mixed(frames, k) <= Total(frames, k) <==> LowsUndone(frames, k)
    decreases |frames|
  {
    if frames == [] {
      assert forall j :: 0 <= j <= |frames| ==> frames[..j] == [];
      assert Total([], k) == 0;
    } else {
      var front := frames[..|frames| - 1];
      MixedAgainstTotal(front, k);
      hide Undone, Sums, Negated;
      SumsStep(frames, k);
      UndoneStep(Sums(front, k), Total(frames, k), MAX_SAMPLE, MIN_SAMPLE);
      UndoneStep(Negated(Sums(front, k)), -Total(frames, k), -MIN_SAMPLE, -MAX_SAMPLE);
    }
  }

  /** The sum of the others fits and every excess on the way is undone, an end of the range hiding one kind. */
  predicate Undistorted(frames: seq<seq<Byte>>, i: nat, k: nat)
    requires i < |frames|
  {
    && MIN_SAMPLE <= Others(frames, i, k) <= MAX_SAMPLE
    && (HighsUndone(frames, k) || Others(frames, i, k) == MIN_SAMPLE)
    && (LowsUndone(frames, k) || Others(frames, i, k) == MAX_SAMPLE)
  }

  /** For any streams, what a stream hears is exactly the sum of the others if and only if Undistorted. */
  lemma HeardIsExactWhen(frames: seq<seq<Byte>>, i: nat, k: nat)
    requires i < |frames|
    ensures Heard(frames, i, k) == Others(frames, i, k) <==> Undistorted(frames, i, k)
  {
    hide HighsUndone, LowsUndone, Mixed, Total;
    OthersAreTheRest(frames, i, k);
    MixedAgainstTotal(frames, k);
  }

  /**
   * No running sum leaves 16 bits exactly when a listener that sends nothing hears every first part
   * of the streams as their sum.
   */
  lemma NeverSaturatesExactlyWhen(frames: seq<seq<Byte>>, k: nat)
    ensures NeverSaturates(frames, k) <==>
            forall j :: 0 <= j <= |frames| ==> Heard(frames[..j] + [[]], j, k) == Others(frames[..j] + [[]], j, k)
  {
    forall j | 0 <= j <= |frames|
      ensures Heard(frames[..j] + [[]], j, k) == Mixed(frames[..j], k) && Others(frames[..j] + [[]], j, k) == Total(frames[..j], k)
      ensures NeverSaturates(frames, k) ==> Mixed(frames[..j], k) == Total(frames[..j], k)
    {
      ListenerHears(frames[..j], k);
      if NeverSaturates(frames, k) {
        assert forall i :: 0 <= i <= j ==> frames[..j][..i] == frames[..i];
        MixedIsTotal(frames[..j], k);
      }
    }
    forall j | 0 <= j <= |frames| && Heard(frames[..j] + [[]], j, k) == Others(frames[..j] + [[]], j, k)
      ensures MIN_SAMPLE <= Total(frames[..j], k) <= MAX_SAMPLE
    {
    }
  }

  lemma ListenerHears(frames: seq<seq<Byte>>, k: nat)
    ensures var all := frames + [[]];
            Heard(all, |frames|, k) == Mixed(frames, k) && Others(all, |frames|, k) == Total(frames, k)
  {
    var all: seq<seq<Byte>> := frames + [[]];
    assert all[..|frames|] == frames && all[|frames| + 1..] == [];
  }

  /** A running sum that saturates is heard: the last two of these cancel out, yet the first hears noise. */
  lemma SaturationIsHeard()
    ensures var loud, low := [Low(30000), High(30000)], [Low(-30000), High(-30000)];
            Others([loud, loud, low], 0, 0) == 0 && Heard([loud, loud, low], 0, 0) == -27233
  {
    var loud, low := [Low(30000), High(30000)], [Low(-30000), High(-30000)];
    DecodeEncoded(30000);
    DecodeEncoded(-30000);
    var frames: seq<seq<Byte>> := [loud, loud, low];
    assert frames[..2] == [loud, loud] && frames[..2][..1] == [loud] && frames[..2][..1][..0] == [];
    assert frames[1..] == [loud, low] && frames[1..][..1] == [loud] && frames[..0] == [];
    assert Mixed(frames[..2][..1], 0) == 30000 && Mixed(frames[..2], 0) == 32767;
    assert Total(frames[1..][..1], 0) == 30000;
  }

  /** Saturation that is undone is not heard: the second sum leaves 16 bits, yet the second and last streams hear true. */
  lemma SaturationCanCancel()
    ensures var frames := seq(5, i requires 0 <= i < 5 => var x: Sample := [32767, 1, -32768, -32768, 20000][i]; [Low(x), High(x)]);
            && !NeverSaturates(frames, 0)
            && Heard(frames, 1, 0) == Others(frames, 1, 0) && Heard(frames, 4, 0) == Others(frames, 4, 0)
  {
    var samples: seq<Sample> := [32767, 1, -32768, -32768, 20000];
    var frames: seq<seq<Byte>> := seq(5, i requires 0 <= i < 5 => var x: Sample := [32767, 1, -32768, -32768, 20000][i]; [Low(x), High(x)]);
    forall i | 0 <= i < 5
      ensures Extended(frames[i], 0) == samples[i]
    {
      DecodeEncoded(samples[i]);
    }
    hide Extended, Decode, Low, High;
    assert forall j :: 0 <= j < 5 ==> frames[..j + 1][..j] == frames[..j];
    assert Total(frames[..0], 0) == 0 && Mixed(frames[..0], 0) == 0;
    assert Total(frames[..1], 0) == 32767 && Mixed(frames[..1], 0) == 32767;
    assert Total(frames[..2], 0) == 32768 && Mixed(frames[..2], 0) == 32767;
    assert Total(frames[..3], 0) == 0 && Mixed(frames[..3], 0) == -1;
    assert Total(frames[..4], 0) == -32768 && Mixed(frames[..4], 0) == -32768;
    assert frames[..5] == frames;
    assert Total(frames, 0) == -12768 && Mixed(frames, 0) == -12768;
    OthersAreTheRest(frames, 1, 0);
    OthersAreTheRest(frames, 4, 0);
  }

  // ---------- in place ----------

  /** `dst` may be `mixed` or `read` itself. */
  method PCMMix(dst: array<Byte>, mixed: array<Byte>, read: array<Byte>, n: nat) returns (m: nat)
    requires n % 2 == 0 && n <= read.Length && n <= mixed.Length && n <= dst.Length
    modifies dst
    ensures m == n
    ensures forall k :: 0 <= 2 * k < n ==> At(dst[..], k) == Clamp(At(old(mixed[..]), k) + At(old(read[..]), k))
    ensures forall i :: n <= i < dst.Length ==> dst[i] == old(dst[i])
  {
    hide Decode, Low, High, Clamp;
    var i := 0;
    while i < n
      invariant 0 <= i <= n && i % 2 == 0
      invariant forall j :: i <= j < mixed.Length ==> mixed[j] == old(mixed[j])
      invariant forall j :: i <= j < read.Length ==> read[j] == old(read[j])
      invariant forall j :: i <= j < dst.Length ==> dst[j] == old(dst[j])
      invariant forall k :: 0 <= 2 * k < i ==>
                  Decode(dst[2 * k], dst[2 * k + 1]) == Clamp(At(old(mixed[..]), k) + At(old(read[..]), k))
    {
      var current: int, frame: int := Decode(mixed[i], mixed[i + 1]), Decode(read[i], read[i + 1]);
      var sum := Clamp(current + frame);
      DecodeEncoded(sum);
      dst[i], dst[i + 1] := Low(sum), High(sum);
      assert current == At(old(mixed[..]), i / 2) && frame == At(old(read[..]), i / 2);
      i := i + 2;
    }
    m := n;
  }

  method PCMUnmix(dst: array<Byte>, mixed: array<Byte>, read: array<Byte>, n: nat)
    requires n % 2 == 0 && n <= read.Length && n <= mixed.Length && n <= dst.Length
    modifies dst
    ensures forall k :: 0 <= 2 * k < n ==> At(dst[..], k) == Clamp(At(old(mixed[..]), k) - At(old(read[..]), k))
    ensures forall i :: n <= i < dst.Length ==> dst[i] == old(dst[i])
  {
    hide Decode, Low, High, Clamp;
    var i := 0;
    while i < n
      invariant 0 <= i <= n && i % 2 == 0
      invariant forall j :: i <= j < mixed.Length ==> mixed[j] == old(mixed[j])
      invariant forall j :: i <= j < read.Length ==> read[j] == old(read[j])
      invariant forall j :: i <= j < dst.Length ==> dst[j] == old(dst[j])
      invariant forall k :: 0 <= 2 * k < i ==>
                  Decode(dst[2 * k], dst[2 * k + 1]) == Clamp(At(old(mixed[..]), k) - At(old(read[..]), k))
    {
      var current: int, frame: int := Decode(mixed[i], mixed[i + 1]), Decode(read[i], read[i + 1]);
      var difference := Clamp(current - frame);
      DecodeEncoded(difference);
      dst[i], dst[i + 1] := Low(difference), High(difference);
      assert current == At(old(mixed[..]), i / 2) && frame == At(old(read[..]), i / 2);
      i := i + 2;
    }
  }

  /** unmixStream: `buf` holds a stream's frame of `n` bytes and gets what the stream hears. */
  method UnmixStream(buf: array<Byte>, n: nat, mixed: array<Byte>, m: nat)
    requires buf != mixed && n % 2 == 0 && m % 2 == 0 && n <= m <= mixed.Length && m <= buf.Length
    modifies buf
    ensures forall k :: 0 <= 2 * k < m ==>
              At(buf[..], k) == Clamp(At(mixed[..], k) - Extended(old(buf[..n]), k))
  {
    ghost var frame := buf[..n];
    PCMUnmix(buf, mixed, buf, n);
    ghost var unmixed := buf[..];
    var i := n;
    while i < m
      invariant n <= i <= m
      invariant forall j :: 0 <= j < n ==> buf[j] == unmixed[j]
      invariant forall j :: n <= j < i ==> buf[j] == mixed[j]
    {
      buf[i] := mixed[i];
      i := i + 1;
    }
    forall k | 0 <= 2 * k < m
      ensures At(buf[..], k) == Clamp(At(mixed[..], k) - Extended(frame, k))
    {
      if 2 * k < n {
        assert At(buf[..], k) == At(unmixed, k);
        assert At(old(buf[..]), k) == At(frame, k);
      } else {
        assert At(buf[..], k) == At(mixed[..], k);
      }
    }
  }

  /** bridgePCMStream */
  class Stream {
    const buf: array<Byte>
    var n: nat
    var gone: bool

    constructor (capacity: nat)
      ensures buf.Length == capacity && n == 0 && !gone && fresh(buf)
    {
      buf := new Byte[capacity](_ => 0);
      n, gone := 0, false;
    }
  }

  /** What a stream's reader has for this round. */
  datatype Input = Frame(bytes: seq<Byte>) | NoPacket | Closed

  /** The frame a stream puts into the round, empty for one that is gone or has none. */
  function RoundFrame(gone: bool, input: Input, capacity: nat): seq<Byte> {
    if gone || !input.Frame? then [] else input.bytes[..Min(|input.bytes|, capacity)]
  }

  function RoundFrames(gone: seq<bool>, inputs: seq<Input>, capacity: nat): (frames: seq<seq<Byte>>)
    requires |gone| == |inputs|
    ensures |frames| == |inputs|
    ensures forall i :: 0 <= i < |frames| ==> frames[i] == RoundFrame(gone[i], inputs[i], capacity)
  {
    seq(|inputs|, i requires 0 <= i < |inputs| => RoundFrame(gone[i], inputs[i], capacity))
  }

  function Longest(frames: seq<seq<Byte>>): nat {
    if frames == [] then 0 else Max(Longest(frames[..|frames| - 1]), |frames[|frames| - 1]|)
  }

  /** The streams are different objects over different buffers, none of them the mix's. */
  ghost predicate Separate(streams: seq<Stream>, mixed: array<Byte>) {
    && (forall i :: 0 <= i < |streams| ==> streams[i].buf != mixed && streams[i].buf.Length == mixed.Length)
    && (forall i, j :: 0 <= i < |streams| && 0 <= j < |streams| && i != j ==>
          streams[i] != streams[j] && streams[i].buf != streams[j].buf)
  }

  method CopyInto(buf: array<Byte>, bytes: seq<Byte>) returns (n: nat)
    modifies buf
    ensures n == Min(|bytes|, buf.Length) && buf[..n] == bytes[..n]
  {
    n := Min(|bytes|, buf.Length);
    var i := 0;
    while i < n
      invariant 0 <= i <= n && forall j :: 0 <= j < i ==> buf[j] == bytes[j]
    {
      buf[i] := bytes[i];
      i := i + 1;
    }
  }

  method Silence(mixed: array<Byte>)
    modifies mixed
    ensures HoldsMix(mixed, [])
  {
    var i := 0;
    while i < mixed.Length
      invariant 0 <= i <= mixed.Length && forall j :: 0 <= j < i ==> mixed[j] == 0
    {
      mixed[i] := 0;
      i := i + 1;
    }
  }

  /** The mix holds the running sum of the given frames. */
  ghost predicate HoldsMix(mixed: array<Byte>, frames: seq<seq<Byte>>)
    reads mixed
  {
    forall k :: 0 <= 2 * k && 2 * k + 1 < mixed.Length ==> At(mixed[..], k) == Mixed(frames, k)
  }

  /** A stream after its turn: its frame in its buffer, or gone. */
  ghost predicate Took(s: Stream, gone: bool, input: Input, frame: seq<Byte>)
    reads s, s.buf
  {
    && s.gone == (gone || input.Closed?)
    && (!s.gone ==> s.n == |frame| && s.n <= s.buf.Length && s.buf[..s.n] == frame)
  }

  /** One stream's turn of mixAllStreams. */
  method MixOne(s: Stream, mixed: array<Byte>, input: Input, ghost frames: seq<seq<Byte>>) returns (n: nat)
    requires s.buf != mixed && s.buf.Length == mixed.Length && mixed.Length % 2 == 0
    requires input.Frame? ==> |input.bytes| % 2 == 0
    requires HoldsMix(mixed, frames)
    modifies s, s.buf, mixed
    ensures var frame := RoundFrame(old(s.gone), input, mixed.Length);
            && Took(s, old(s.gone), input, frame) && n == |frame| && n % 2 == 0 && n <= mixed.Length
            && HoldsMix(mixed, frames + [frame])
  {
    hide Decode, Clamp, Mixed;
    ghost var frame := RoundFrame(s.gone, input, mixed.Length);
    ghost var before := mixed[..];
    n := 0;
    if !s.gone {
      s.n := 0;
      match input {
        case Closed => s.gone := true;
        case NoPacket =>
        case Frame(bytes) =>
          n := CopyInto(s.buf, bytes);
          s.n := n;
          assert mixed[..] == before;
          n := PCMMix(mixed, mixed, s.buf, n);
      }
    }
    forall k | 0 <= 2 * k && 2 * k + 1 < mixed.Length
      ensures At(mixed[..], k) == Mixed(frames + [frame], k)
    {
      MixedAppend(frames, frame, k);
      if 2 * k < n {
        assert At(s.buf[..], k) == At(frame, k);
      } else {
        assert At(mixed[..], k) == At(before, k);
      }
    }
  }

  lemma MixedAppend(frames: seq<seq<Byte>>, frame: seq<Byte>, k: nat)
    ensures Mixed(frames + [frame], k) == Clamp(Mixed(frames, k) + Extended(frame, k))
    ensures |frame| <= 2 * k ==> Mixed(frames + [frame], k) == Mixed(frames, k)
  {
    assert (frames + [frame])[..|frames|] == frames;
  }

  /** How many streams had not gone before this round. */
  function Handled(gone: seq<bool>): (h: nat)
    ensures h <= |gone|
  {
    if gone == [] then 0 else Handled(gone[..|gone| - 1]) + if gone[|gone| - 1] then 0 else 1
  }

  lemma FramesShape(gone: seq<bool>, inputs: seq<Input>, capacity: nat)
    requires |gone| == |inputs| && capacity % 2 == 0
    requires forall i :: 0 <= i < |inputs| && inputs[i].Frame? ==> |inputs[i].bytes| % 2 == 0
    ensures var frames := RoundFrames(gone, inputs, capacity);
            forall i :: 0 <= i < |frames| ==> |frames[i]| % 2 == 0 && |frames[i]| <= capacity
  {
  }

  lemma {:induction false} LongestBounds(frames: seq<seq<Byte>>, capacity: nat)
    requires forall i :: 0 <= i < |frames| ==> |frames[i]| % 2 == 0 && |frames[i]| <= capacity
    ensures Longest(frames) % 2 == 0 && Longest(frames) <= capacity
    ensures forall i :: 0 <= i < |frames| ==> |frames[i]| <= Longest(frames)
    decreases |frames|
  {
    if frames == [] {
    } else {
      var front := frames[..|frames| - 1];
      LongestBounds(front, capacity);
      assert forall i :: 0 <= i < |front| ==> front[i] == frames[i];
    }
  }

  lemma LongestAppend(frames: seq<seq<Byte>>, i: nat)
    requires i < |frames|
    ensures frames[..i + 1] == frames[..i] + [frames[i]]
    ensures Longest(frames[..i + 1]) == Max(Longest(frames[..i]), |frames[i]|)
  {
    assert frames[..i + 1][..i] == frames[..i];
  }

  lemma HandledAppend(gone: seq<bool>, i: nat)
    requires i < |gone|
    ensures Handled(gone[..i + 1]) == Handled(gone[..i]) + if gone[i] then 0 else 1
  {
    assert gone[..i + 1][..i] == gone[..i];
  }

  /** mixAllStreams, polling; `running` is whether the mix has not been stopped. */
  method MixAllStreams(streams: seq<Stream>, mixed: array<Byte>, inputs: seq<Input>, ghost gone: seq<bool>, running: bool)
    returns (maxN: nat, ok: bool)
    requires |inputs| == |streams| == |gone| && Separate(streams, mixed) && mixed.Length % 2 == 0
    requires forall i :: 0 <= i < |streams| ==> gone[i] == streams[i].gone
    requires forall i :: 0 <= i < |inputs| && inputs[i].Frame? ==> |inputs[i].bytes| % 2 == 0
    modifies mixed, streams, set s | s in streams :: s.buf
    ensures var frames := RoundFrames(gone, inputs, mixed.Length);
            && HoldsMix(mixed, frames) && maxN == Longest(frames) && maxN % 2 == 0 && maxN <= mixed.Length
            && (forall i :: 0 <= i < |streams| ==> Took(streams[i], gone[i], inputs[i], frames[i]))
            && (forall i :: 0 <= i < |frames| ==> |frames[i]| % 2 == 0 && |frames[i]| <= maxN)
    ensures ok <==> Handled(gone) > 0 && (running || (Handled(gone) == |streams| && maxN > 0))
  {
    hide HoldsMix, Took, RoundFrame;
    ghost var frames := RoundFrames(gone, inputs, mixed.Length);
    Silence(mixed);
    assert frames[..0] == [];
    maxN := 0;
    var handled := |streams|;
    var i := 0;
    while i < |streams|
      invariant 0 <= i <= |streams|
      invariant HoldsMix(mixed, frames[..i]) && maxN == Longest(frames[..i])
      invariant handled == |streams| - i + Handled(gone[..i])
      invariant forall j :: 0 <= j < i ==> Took(streams[j], gone[j], inputs[j], frames[j])
      invariant forall j :: i <= j < |streams| ==> streams[j].gone == gone[j]
    {
      LongestAppend(frames, i);
      HandledAppend(gone, i);
      if streams[i].gone {
        handled := handled - 1;
      }
      var n := MixOne(streams[i], mixed, inputs[i], frames[..i]);
      maxN := Max(maxN, n);
      i := i + 1;
    }
    assert frames[..i] == frames && gone[..i] == gone;
    FramesShape(gone, inputs, mixed.Length);
    LongestBounds(frames, mixed.Length);
    ok := handled > 0 && !((handled < |streams| || maxN == 0) && !running);
  }

  /**
   * The broadcast of a round: what each stream that is not gone is written, in place over the
   * buffers the frames were read into.
   */
  method Broadcast(streams: seq<Stream>, mixed: array<Byte>, maxN: nat, ghost frames: seq<seq<Byte>>)
    returns (heard: seq<Option<seq<Byte>>>)
    requires |frames| == |streams| && Separate(streams, mixed) && HoldsMix(mixed, frames)
    requires maxN <= mixed.Length && maxN % 2 == 0
    requires forall i :: 0 <= i < |streams| ==> |frames[i]| % 2 == 0 && |frames[i]| <= maxN
    requires forall i :: 0 <= i < |streams| && !streams[i].gone ==>
               streams[i].n == |frames[i]| && streams[i].buf[..streams[i].n] == frames[i]
    modifies set s | s in streams :: s.buf
    ensures |heard| == |streams|
    ensures forall i :: 0 <= i < |streams| ==> (heard[i].Some? <==> !streams[i].gone)
    ensures forall i :: 0 <= i < |streams| && heard[i].Some? ==>
              |heard[i].value| == maxN && forall k :: 0 <= 2 * k < maxN ==> At(heard[i].value, k) == Heard(frames, i, k)
  {
    heard := [];
    var i := 0;
    while i < |streams|
      invariant 0 <= i == |heard| <= |streams|
      invariant mixed[..] == old(mixed[..])
      invariant forall j :: 0 <= j < i ==> (heard[j].Some? <==> !streams[j].gone)
      invariant forall j :: 0 <= j < i && heard[j].Some? ==>
                  |heard[j].value| == maxN && forall k :: 0 <= 2 * k < maxN ==> At(heard[j].value, k) == Heard(frames, j, k)
      invariant forall j :: i <= j < |streams| ==> streams[j].buf[..] == old(streams[j].buf[..])
    {
      var h := HearOne(streams[i], mixed, maxN, frames, i);
      heard := heard + [h];
      i := i + 1;
    }
  }

  method HearOne(s: Stream, mixed: array<Byte>, maxN: nat, ghost frames: seq<seq<Byte>>, ghost i: nat)
    returns (h: Option<seq<Byte>>)
    requires i < |frames| && HoldsMix(mixed, frames) && s.buf != mixed && s.buf.Length == mixed.Length
    requires maxN <= mixed.Length && maxN % 2 == 0 && |frames[i]| % 2 == 0 && |frames[i]| <= maxN
    requires !s.gone ==> s.n == |frames[i]| && s.buf[..s.n] == frames[i]
    modifies s.buf
    ensures h.Some? <==> !s.gone
    ensures h.Some? ==> |h.value| == maxN && forall k :: 0 <= 2 * k < maxN ==> At(h.value, k) == Heard(frames, i, k)
  {
    if s.gone {
      return None;
    }
    if s.n > 0 {
      UnmixStream(s.buf, s.n, mixed, maxN);
      h := Some(s.buf[..maxN]);
      forall k | 0 <= 2 * k < maxN
        ensures At(h.value, k) == Heard(frames, i, k)
      {
        assert At(h.value, k) == At(s.buf[..], k);
      }
    } else {
      h := Some(mixed[..maxN]);
      forall k | 0 <= 2 * k < maxN
        ensures At(h.value, k) == Heard(frames, i, k)
      {
        assert At(h.value, k) == At(mixed[..], k);
      }
    }
  }

  /**
   * A whole round; a mix of one stream has none and is only read. One that ends the mix or in which nothing was read writes nothing; any other
   * writes each stream left what IsSumOfOthers says.
   */
  method MixRound(streams: seq<Stream>, mixed: array<Byte>, inputs: seq<Input>, ghost gone: seq<bool>, running: bool)
    returns (heard: seq<Option<seq<Byte>>>, maxN: nat, ok: bool)
    requires |streams| != 1
    requires |inputs| == |streams| == |gone| && Separate(streams, mixed) && mixed.Length % 2 == 0
    requires forall i :: 0 <= i < |streams| ==> gone[i] == streams[i].gone
    requires forall i :: 0 <= i < |inputs| && inputs[i].Frame? ==> |inputs[i].bytes| % 2 == 0
    modifies mixed, streams, set s | s in streams :: s.buf
    ensures var frames := RoundFrames(gone, inputs, mixed.Length);
            && |heard| == |streams| && maxN == Longest(frames)
            && (ok <==> Handled(gone) > 0 && (running || (Handled(gone) == |streams| && maxN > 0)))
            && (forall i :: 0 <= i < |streams| ==>
                  (heard[i].Some? <==> ok && maxN > 0 && !gone[i] && !inputs[i].Closed?))
            && (forall i :: 0 <= i < |streams| && heard[i].Some? ==> |heard[i].value| == maxN)
            && (forall i :: 0 <= i < |streams| && heard[i].Some? ==> IsSumOfOthers(heard[i].value, frames, i))
  {
    ghost var frames := RoundFrames(gone, inputs, mixed.Length);
    maxN, ok := MixAllStreams(streams, mixed, inputs, gone, running);
    if !ok || maxN == 0 {
      heard := seq(|streams|, _ => None);
      return;
    }
    heard := Broadcast(streams, mixed, maxN, frames);
    forall i | 0 <= i < |streams| && heard[i].Some?
      ensures IsSumOfOthers(heard[i].value, frames, i)
    {
      HeardIsSum(heard[i].value, frames, i);
    }
  }

  /**
   * Every sample is the sum of the other streams' exactly under the condition of HeardIsExactWhen,
   * and the saturated sum wherever the mix did not saturate.
   */
  ghost predicate IsSumOfOthers(heard: seq<Byte>, frames: seq<seq<Byte>>, i: nat)
    requires i < |frames|
  {
    forall k: nat :: 2 * k + 1 < |heard| ==>
      && (At(heard, k) == Others(frames, i, k) <==> Undistorted(frames, i, k))
      && (NeverSaturates(frames, k) ==> At(heard, k) == Clamp(Others(frames, i, k)))
  }

  lemma HeardIsSum(heard: seq<Byte>, frames: seq<seq<Byte>>, i: nat)
    requires i < |frames| && |heard| % 2 == 0
    requires forall k :: 0 <= 2 * k < |heard| ==> At(heard, k) == Heard(frames, i, k)
    ensures IsSumOfOthers(heard, frames, i)
  {
    hide NeverSaturates, Undistorted;
    forall k: nat | 2 * k + 1 < |heard|
      ensures At(heard, k) == Others(frames, i, k) <==> Undistorted(frames, i, k)
      ensures NeverSaturates(frames, k) ==> At(heard, k) == Clamp(Others(frames, i, k))
    {
      HeardIsExactWhen(frames, i, k);
      if NeverSaturates(frames, k) {
        HearsTheOthers(frames, i, k);
      }
    }
  }
}
