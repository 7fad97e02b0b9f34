/**
 * From decoded audio to the stored waveform: the worker copies PCM under a limit while counting it, checks
 * the peaks against the count, and prints a result that the runner and then the database contract check
 * again. Durations are exact rationals here; the worker's float is exact enough not to differ.
 */
module PcmProjection {
  import opened Wrappers

  const RATE := 24_000
  const BUCKET := 480
  const MAX_PCM := RATE * 2 * 3600
  const MAX_JSON := 4 * 1024 * 1024

  datatype Peaks = Peaks(version: int, channels: Option<int>, sampleRate: int, samplesPerPixel: int, bits: int, length: int, data: seq<int>)

  datatype Result = Result(durationMs: nat, bucketSizeMs: nat, peaks: Peaks)

  datatype Waveform = Waveform(result: Result, videoId: string, generationVersion: nat)

  // ---------------------------------------------------------------- arithmetic

  /** The nearest integer to n / d, the even one of two equally near. */
  function RoundTiesEven(n: nat, d: nat): nat
    requires d > 0
  {
    var q, r := n / d, n % d;
    if 2 * r < d || (2 * r == d && q % 2 == 0) then q else q + 1
  }

  lemma RoundsToTheNearest(n: nat, d: nat)
    requires d > 0
    ensures -(d as int) <= 2 * (RoundTiesEven(n, d) * d - n) <= d
    ensures 2 * (RoundTiesEven(n, d) * d - n) in {d as int, -(d as int)} ==> RoundTiesEven(n, d) % 2 == 0
  {
    assert n == n / d * d + n % d;
    assert (n / d + 1) * d == n / d * d + d;
  }

  function DivCeil(n: nat, d: nat): nat
    requires d > 0
  {
    if n % d == 0 then n / d else n / d + 1
  }

  /** Bytes of 16-bit mono samples at the fixed rate, in milliseconds. */
  function DurationMs(count: nat): nat { RoundTiesEven(count * 1000, RATE * 2) }

  function Length(count: nat): nat { DivCeil(count, BUCKET * 2) }

  // ---------------------------------------------------------------- the worker

  predicate PairsOrdered(data: seq<int>) {
    forall i :: 0 <= i < |data| / 2 ==> -128 <= data[2 * i] <= data[2 * i + 1] <= 127
  }

  predicate PeaksMatch(peaks: Peaks, count: nat) {
    && peaks.version in {1, 2} && (peaks.channels.Some? ==> peaks.channels.value == 1)
    && (peaks.version == 2 ==> peaks.channels.Some?)
    && peaks.sampleRate == RATE && peaks.samplesPerPixel == BUCKET && peaks.bits == 8
    && peaks.length == Length(count) && |peaks.data| == peaks.length * 2 && PairsOrdered(peaks.data)
  }

  /** `encoded` is the size of the peaks file; `peaks` what it decodes to, if it does. */
  function Project(count: nat, encoded: nat, peaks: Option<Peaks>): Option<Result> {
    if count > MAX_PCM || count % 2 != 0 || DurationMs(count) == 0 || encoded > MAX_JSON then None
    else if peaks.None? || !PeaksMatch(peaks.value, count) then None
    else
      var result := Result(DurationMs(count), 20, peaks.value);
      if |ResultText(result)| > MAX_JSON then None else Some(result)
  }

  // ---------------------------------------------------------------- JSON text

  function Digits(n: nat): string {
    if n < 10 then ["0123456789"[n]] else Digits(n / 10) + ["0123456789"[n % 10]]
  }

  function Number(n: int): string { if n < 0 then "-" + Digits(-n) else Digits(n) }

  function Numbers(data: seq<int>): string {
    if data == [] then "" else Numbers(data[..|data| - 1]) + (if |data| == 1 then "" else ",") + Number(data[|data| - 1])
  }

  function Member(name: string, value: string): (t: string)
    ensures |t| == |name| + |value| + 3
  {
    "\"" + name + "\":" + value
  }

  function LayoutText(p: Peaks): string {
    Member("version", Number(p.version)) + (if p.channels.Some? then "," + Member("channels", Number(p.channels.value)) else "")
  }

  function RatesText(p: Peaks): string {
    Member("sample_rate", Number(p.sampleRate)) + "," + Member("samples_per_pixel", Number(p.samplesPerPixel))
  }

  function SizesText(p: Peaks): string {
    Member("bits", Number(p.bits)) + "," + Member("length", Number(p.length))
  }

  function PeaksText(p: Peaks): string {
    "{" + LayoutText(p) + "," + RatesText(p) + "," + SizesText(p) + "," + Member("data", "[" + Numbers(p.data) + "]") + "}"
  }

  function ResultFields(r: Result): string {
    Member("durationMs", Number(r.durationMs)) + "," + Member("bucketSizeMs", Number(r.bucketSizeMs)) + ","
    + Member("peaks", PeaksText(r.peaks))
  }

  function ResultText(r: Result): string { "{" + ResultFields(r) + "}" }

  function SourceText(id: string): string {
    "{" + Member("type", "\"youtube\"") + "," + Member("id", "\"" + id + "\"") + "}"
  }

  function WaveformText(w: Waveform): string {
    "{" + ResultFields(w.result) + "," + Member("source", SourceText(w.videoId)) + ","
    + Member("generationVersion", Number(w.generationVersion)) + "}"
  }

  // ---------------------------------------------------------------- the runner and the contract

  /** The runner adds the source to the worker's line and checks the size again. */
  function ProjectWorkerResult(r: Result, id: string): Option<Waveform> {
    var w := Waveform(r, id, 1);
    if |ResultText(r)| + 1 > MAX_JSON || !(1 <= r.durationMs <= 3_600_000) || r.bucketSizeMs <= 0 then None
    else if |WaveformText(w)| > MAX_JSON then None
    else Some(w)
  }

  predicate IdChar(c: char) {
    'A' <= c <= 'Z' || 'a' <= c <= 'z' || '0' <= c <= '9' || c == '_' || c == '-'
  }

  predicate VideoId(id: string) {
    |id| == 11 && forall i :: 0 <= i < |id| ==> IdChar(id[i])
  }

  /** Every field's own limits. */
  predicate FieldsOk(w: Waveform) {
    && 1 <= w.result.durationMs <= 3_600_000 && w.result.bucketSizeMs > 0
    && var p := w.result.peaks;
    && p.version in {1, 2} && (p.channels.Some? ==> p.channels.value == 1)
    && 1 <= p.sampleRate <= 192_000 && p.samplesPerPixel > 0 && p.bits == 8 && 1 <= p.length <= 180_000
    && |p.data| <= 360_000 && (forall i :: 0 <= i < |p.data| ==> -128 <= p.data[i] <= 127)
    && VideoId(w.videoId) && w.generationVersion == 1
  }

  /** The bucket is the exact quotient of the two rates. */
  predicate TimesOk(durationMs: int, bucketSizeMs: int, p: Peaks)
    requires p.sampleRate > 0
  {
    var bucket := (p.samplesPerPixel * 1000) as real / p.sampleRate as real;
    && -0.001 <= bucket - bucketSizeMs as real <= 0.001
    && durationMs as real <= p.length as real * bucket + 1.0
    && durationMs as real > (p.length - 1) as real * bucket - 1.0
  }

  /** The relations between the fields. */
  predicate RelationsOk(w: Waveform)
    requires w.result.peaks.sampleRate > 0
  {
    var p := w.result.peaks;
    && (p.version == 2 ==> p.channels == Some(1))
    && |p.data| == p.length * 2
    && TimesOk(w.result.durationMs, w.result.bucketSizeMs, p)
    && |WaveformText(w)| <= MAX_JSON
    && (forall i :: 0 <= i < |p.data| / 2 ==> p.data[2 * i] <= p.data[2 * i + 1])
  }

  predicate ContractOk(w: Waveform) {
    FieldsOk(w) && RelationsOk(w)
  }

  // ---------------------------------------------------------------- what is accepted

  /** A count and its number of buckets give a duration within both limits of the contract. */
  lemma DurationFitsTheBuckets(count: nat)
    requires count > 0
    ensures 20 * (Length(count) - 1) <= DurationMs(count) <= 20 * Length(count)
    ensures 1 <= Length(count)
    ensures count <= MAX_PCM ==> DurationMs(count) <= 3_600_000 && Length(count) <= 180_000
  {
    RoundsToTheNearest(count * 1000, RATE * 2);
    assert count == count / 960 * 960 + count % 960;
  }

  lemma SmallNumbers(n: int)
    requires -128 <= n <= 127
    ensures |Number(n)| <= 4
  {
    var m := if n < 0 then -n else n;
    assert Power10(3) == 1000;
    DigitsBelow(m, 3);
  }

  lemma {:induction false} NumbersAreShort(data: seq<int>)
    requires forall i :: 0 <= i < |data| ==> -128 <= data[i] <= 127
    ensures |Numbers(data)| <= 5 * |data|
  {
    if data != [] {
      NumbersAreShort(data[..|data| - 1]);
      SmallNumbers(data[|data| - 1]);
    }
  }

  lemma {:induction false} DigitsAreShort(n: nat)
    requires n < 10_000_000
    ensures |Digits(n)| <= 7
  {
    DigitsBelow(n, 7);
  }

  function Power10(k: nat): nat { if k == 0 then 1 else 10 * Power10(k - 1) }

  lemma {:induction false} DigitsBelow(n: nat, k: nat)
    requires 1 <= k && n < Power10(k)
    ensures |Digits(n)| <= k
  {
    if n >= 10 {
      assert k > 1;
      DigitsBelow(n / 10, k - 1);
    }
  }

  lemma OrderedPairsAreInRange(data: seq<int>)
    requires |data| % 2 == 0 && PairsOrdered(data)
    ensures forall i :: 0 <= i < |data| ==> -128 <= data[i] <= 127
  {
    forall i | 0 <= i < |data|
      ensures -128 <= data[i] <= 127
    {
      assert i == 2 * (i / 2) || i == 2 * (i / 2) + 1;
      assert 0 <= i / 2 < |data| / 2;
    }
  }

  /** Every field the worker writes is a short number. */
  predicate ShortFields(r: Result) {
    && r.durationMs <= 3_600_000 && r.bucketSizeMs == 20
    && r.peaks.version in {1, 2} && (r.peaks.channels.Some? ==> r.peaks.channels.value == 1)
    && r.peaks.sampleRate == RATE && r.peaks.samplesPerPixel == BUCKET && r.peaks.bits == 8 && 0 <= r.peaks.length <= 180_000
    && |r.peaks.data| <= 360_000 && (forall i :: 0 <= i < |r.peaks.data| ==> -128 <= r.peaks.data[i] <= 127)
  }

  lemma LayoutIsShort(p: Peaks)
    requires p.version in {1, 2} && (p.channels.Some? ==> p.channels.value == 1)
    ensures |LayoutText(p)| <= 40
  {
  }

  lemma RatesAreShort(p: Peaks)
    requires p.sampleRate == RATE && p.samplesPerPixel == BUCKET
    ensures |RatesText(p)| <= 60
  {
  }

  lemma SizesAreShort(p: Peaks)
    requires p.bits == 8 && 0 <= p.length <= 180_000
    ensures |SizesText(p)| <= 40
  {
    DigitsAreShort(8);
    DigitsAreShort(p.length);
  }

  lemma PeaksAreShort(r: Result)
    requires ShortFields(r)
    ensures |PeaksText(r.peaks)| <= 1_800_200
  {
    LayoutIsShort(r.peaks);
    RatesAreShort(r.peaks);
    SizesAreShort(r.peaks);
    NumbersAreShort(r.peaks.data);
  }

  lemma SourceIsShort(id: string)
    requires |id| == 11
    ensures |SourceText(id)| <= 60
  {
  }

  /** An hour of peaks is at most 1.8 million characters, far below the size limit. */
  lemma TextsAreShort(r: Result, id: string)
    requires ShortFields(r) && |id| == 11
    ensures |ResultText(r)| + 1 <= MAX_JSON && |WaveformText(Waveform(r, id, 1))| <= MAX_JSON
  {
    PeaksAreShort(r);
    SourceIsShort(id);
    DigitsAreShort(r.durationMs);
    DigitsAreShort(20);
    DigitsAreShort(1);
    assert |ResultFields(r)| <= 1_800_300;
  }

  /** What the worker's own checks say of a result it prints. */
  predicate Projected(count: nat, r: Result) {
    && 0 < count <= MAX_PCM && PeaksMatch(r.peaks, count) && r.durationMs == DurationMs(count) && 1 <= r.durationMs
    && r.bucketSizeMs == 20
  }

  lemma ProjectionChecks(count: nat, encoded: nat, peaks: Option<Peaks>)
    requires Project(count, encoded, peaks).Some?
    ensures Projected(count, Project(count, encoded, peaks).value)
  {
    assert RoundTiesEven(0, RATE * 2) == 0;
  }

  lemma FieldsFollow(count: nat, r: Result, id: string)
    requires Projected(count, r) && VideoId(id)
    ensures ShortFields(r) && FieldsOk(Waveform(r, id, 1))
  {
    DurationFitsTheBuckets(count);
    OrderedPairsAreInRange(r.peaks.data);
  }

  lemma RunnerAccepts(r: Result, id: string)
    requires ShortFields(r) && 1 <= r.durationMs && |id| == 11
    ensures ProjectWorkerResult(r, id) == Some(Waveform(r, id, 1)) && |WaveformText(Waveform(r, id, 1))| <= MAX_JSON
  {
    TextsAreShort(r, id);
  }

  /**
   * Whatever the worker accepts, for every count and every peaks file, the runner accepts as well and the
   * contract holds of what it sends; none of the three size checks ever decides.
   */
  lemma AcceptedResultsMeetTheContract(count: nat, encoded: nat, peaks: Option<Peaks>, id: string)
    requires VideoId(id) && Project(count, encoded, peaks).Some?
    ensures ProjectWorkerResult(Project(count, encoded, peaks).value, id).Some?
    ensures ContractOk(ProjectWorkerResult(Project(count, encoded, peaks).value, id).value)
  {
    var r := Project(count, encoded, peaks).value;
    ProjectionChecks(count, encoded, peaks);
    FieldsFollow(count, r, id);
    RunnerAccepts(r, id);
    RelationsFollow(count, r, id);
  }

  lemma RelationsFollow(count: nat, r: Result, id: string)
    requires Projected(count, r)
    requires |WaveformText(Waveform(r, id, 1))| <= MAX_JSON
    ensures RelationsOk(Waveform(r, id, 1))
  {
    TimesFollow(count, r.peaks);
  }

  lemma TimesFollow(count: nat, p: Peaks)
    requires 0 < count && p.length == Length(count) && p.sampleRate == RATE && p.samplesPerPixel == BUCKET
    ensures TimesOk(DurationMs(count), 20, p)
  {
    DurationFitsTheBuckets(count);
    var n := p.length;
    var bucket := (p.samplesPerPixel * 1000) as real / p.sampleRate as real;
    assert bucket == 20.0;
    assert n as real * bucket == (20 * n) as real;
    assert (n - 1) as real * bucket == (20 * (n - 1)) as real;
  }

  lemma ShortestClip(count: nat)
    requires count % 2 == 0
    ensures DurationMs(count) > 0 <==> count >= 26
  {
    RoundsToTheNearest(count * 1000, RATE * 2);
  }

  lemma MatchingPeaksAreShort(count: nat, peaks: Peaks)
    requires 0 < count <= MAX_PCM && PeaksMatch(peaks, count)
    ensures |ResultText(Result(DurationMs(count), 20, peaks))| <= MAX_JSON
  {
    DurationFitsTheBuckets(count);
    OrderedPairsAreInRange(peaks.data);
    TextsAreShort(Result(DurationMs(count), 20, peaks), "-----------");
  }

  /** Exactly these inputs are accepted: the final size check of the worker refuses nothing. */
  lemma AcceptedExactly(count: nat, encoded: nat, peaks: Option<Peaks>)
    ensures Project(count, encoded, peaks).Some? <==>
              26 <= count <= MAX_PCM && count % 2 == 0 && encoded <= MAX_JSON && peaks.Some? && PeaksMatch(peaks.value, count)
  {
    if count % 2 == 0 {
      ShortestClip(count);
      if 0 < count <= MAX_PCM && peaks.Some? && PeaksMatch(peaks.value, count) {
        MatchingPeaksAreShort(count, peaks.value);
      }
    }
  }
}
