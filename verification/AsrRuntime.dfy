/** The sequencing loop of scripts/asr/synthetic_runtime.py in its normal mode, after the ready line. */
module AsrRuntime {
  import opened Wrappers

  const MAX_FRAME_SAMPLES := 3200
  const MAX_SESSION_SAMPLES := 28800000

  /**
   * A parsed line; pcm is the length of the decoded audio if it decodes. Other is
   * anything the loop rejects on sight, TooDeep a line nested deeper than the JSON parser recurses.
   */
  datatype Input =
    | Audio(sequence: int, sampleOffset: int, sampleCount: int, pcm: Option<nat>)
    | End(lastSequence: int)
    | Other
    | TooDeep

  datatype Line = Consumed(sequence: int, endSample: int) | Completed(lastSequence: int)

  /** Samples in the first k messages. */
  function Offset(ms: seq<Input>, k: nat): int
    requires k <= |ms|
  {
    if k == 0 then 0 else Offset(ms, k - 1) + if ms[k - 1].Audio? then ms[k - 1].sampleCount else 0
  }

  /** Bytes of audio in the first k messages. */
  function PcmBytes(ms: seq<Input>, k: nat): nat
    requires k <= |ms|
  {
    if k == 0 then 0 else PcmBytes(ms, k - 1) + if ms[k - 1].Audio? && ms[k - 1].pcm.Some? then ms[k - 1].pcm.value else 0
  }

  /** The k-th message continues the recording where the others left off. */
  predicate Continues(ms: seq<Input>, k: nat)
    requires k < |ms|
  {
    && ms[k].Audio? && ms[k].sequence == k && ms[k].sampleOffset == Offset(ms, k)
    && 1 <= ms[k].sampleCount <= MAX_FRAME_SAMPLES && Offset(ms, k) + ms[k].sampleCount <= MAX_SESSION_SAMPLES
    && ms[k].pcm == Some(2 * ms[k].sampleCount)
  }

  /** k is the length of the longest run of audio from the start. */
  ghost predicate IsLongest(ms: seq<Input>, k: nat) {
    k <= |ms| && (forall i: nat | i < k :: Continues(ms, i)) && (k < |ms| ==> !Continues(ms, k))
  }

  lemma {:induction false} LongestIsUnique(ms: seq<Input>, j: nat, k: nat)
    requires IsLongest(ms, j) && IsLongest(ms, k)
    ensures j == k
  {
    assert !(j < k) && !(k < j);
  }

  /** ACKs run over the longest prefix; completion follows only an end that names its last message, and exit 0 means completion. */
  method Run(ms: seq<Input>) returns (code: int, lines: seq<Line>, taken: nat, offset: int)
    ensures IsLongest(ms, taken) && offset == Offset(ms, taken)
    ensures code == (if taken == |ms| || ms[taken] == TooDeep then 1 else if taken > 0 && ms[taken] == End(taken - 1) then 0 else 2)
    ensures |lines| == taken + (if code == 0 then 1 else 0)
    ensures forall i | 0 <= i < taken :: lines[i] == Consumed(i, Offset(ms, i + 1))
    ensures code == 0 ==> lines[taken] == Completed(taken - 1)
    ensures offset <= MAX_SESSION_SAMPLES && PcmBytes(ms, taken) == 2 * offset
  {
    var expected: nat := 0;
    offset, lines := 0, [];
    while expected < |ms|
      invariant expected <= |ms| && |lines| == expected && offset == Offset(ms, expected) <= MAX_SESSION_SAMPLES
      invariant forall i: nat | i < expected :: Continues(ms, i)
      invariant forall i | 0 <= i < expected :: lines[i] == Consumed(i, Offset(ms, i + 1))
      invariant PcmBytes(ms, expected) == 2 * offset
    {
      var m := ms[expected];
      match m
      case Audio(sequence, sampleOffset, sampleCount, pcm) =>
        if sequence != expected || sampleOffset != offset || !(1 <= sampleCount <= MAX_FRAME_SAMPLES)
          || offset + sampleCount > MAX_SESSION_SAMPLES || pcm != Some(2 * sampleCount)
        {
          return 2, lines, expected, offset;
        }
        offset := offset + sampleCount;
        expected := expected + 1;
        lines := lines + [Consumed(sequence, offset)];
      case End(lastSequence) =>
        if expected == 0 || lastSequence != expected - 1 { return 2, lines, expected, offset; }
        return 0, lines + [Completed(lastSequence)], expected, offset;
      case Other =>
        return 2, lines, expected, offset;
      case TooDeep =>
        return 1, lines, expected, offset; // a RecursionError that nothing catches
    }
    return 1, lines, expected, offset;
  }

  lemma {:induction false} OffsetGrows(ms: seq<Input>, i: nat, k: nat)
    requires i <= k <= |ms| && forall j: nat | j < k :: Continues(ms, j)
    ensures Offset(ms, k) - Offset(ms, i) >= k - i
  {
    if i < k {
      OffsetGrows(ms, i, k - 1);
      assert Continues(ms, k - 1);
    }
  }

  /** ACKed positions strictly increase, and no recording is longer than the session allows. */
  lemma {:induction false} AcksAdvance(ms: seq<Input>, i: nat, k: nat)
    requires i < k <= |ms| && forall j: nat | j < k :: Continues(ms, j)
    ensures Offset(ms, i) < Offset(ms, k) <= MAX_SESSION_SAMPLES && k <= MAX_SESSION_SAMPLES
  {
    OffsetGrows(ms, i, k);
    OffsetGrows(ms, 0, k);
    assert Continues(ms, k - 1);
  }
}
