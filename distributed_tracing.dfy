/** The per-request distributed-tracing decision: whether a request to a host is
    traced at all (first-party match), and if so whether its trace is sampled,
    by a Knuth multiplicative hash of the trace id compared with the rate. */
module DistributedTracing {

  import opened Wrappers

  /** The multiplicative-hash factor; it is odd, so multiplying by it is a
      bijection on the residues modulo 2^64. */
  const KnuthFactor: nat := 1111111111111111111
  const TwoPow64: nat := 0x1_0000_0000_0000_0000
  const TwoPow128: nat := TwoPow64 * TwoPow64

  /** The inverse of KnuthFactor modulo 2^64, used only in proofs. */
  const KnuthInverse: nat := 3396998997810348023

  /** A 128-bit trace identifier and a 64-bit span identifier. */
  type TraceId = t: nat | t < TwoPow128
  type SpanId = s: nat | s < TwoPow64

  datatype PropagatorType = Datadog | TraceContext | B3 | B3Multi

  /** The KEEP/DISCARD union. DISCARD carries no identifiers and always has
      sampling priority header "0". */
  datatype TracingAttributes =
    | Keep(traceId: TraceId, spanId: SpanId, samplingPriorityHeader: string,
           rulePsr: real, propagatorTypes: seq<PropagatorType>)
    | Discard
  {
    function SamplingPriorityHeader(): string {
      if Keep? then samplingPriorityHeader else "0"
    }
  }

  /** Hash of the trace id: (traceId * KnuthFactor) mod 2^64. */
  function Hash(traceId: TraceId): nat {
    (traceId * KnuthFactor) % TwoPow64
  }

  /** `hash <= (rate / 100) * 2^64`, with both sides scaled by 100 so that the
      comparison is exact. */
  predicate IsSampled(traceId: TraceId, rate: real) {
    100.0 * (Hash(traceId) as real) <= rate * (TwoPow64 as real)
  }

  /** generateTracingAttributesWithSampling: `traceId` and `spanId` are the
      values drawn from the identifier generator for this request. */
  function GenerateTracingAttributesWithSampling(
    rate: real, propagatorTypes: seq<PropagatorType>, traceId: TraceId, spanId: SpanId
  ): (r: TracingAttributes)
    ensures r.Keep? && r.traceId == traceId && r.spanId == spanId
    ensures r.propagatorTypes == propagatorTypes
    ensures r.rulePsr == rate / 100.0
    ensures r.samplingPriorityHeader == "1" <==> IsSampled(traceId, rate)
    ensures r.samplingPriorityHeader == "0" || r.samplingPriorityHeader == "1"
  {
    Keep(traceId, spanId, if IsSampled(traceId, rate) then "1" else "0",
         rate / 100.0, propagatorTypes)
  }

  /** getTracingAttributes. `hostname` is None when the URL could not be parsed;
      `lookup` is the first-party host matcher (getPropagatorsForHost), None
      meaning "no match". */
  function GetTracingAttributes(
    hostname: Option<string>, lookup: string -> Option<seq<PropagatorType>>,
    rate: real, traceId: TraceId, spanId: SpanId
  ): (r: TracingAttributes)
    ensures hostname.None? ==> r == Discard
    ensures hostname.Some? ==> (r.Keep? <==> lookup(hostname.value).Some?)
    ensures r.Keep? ==> hostname.Some? && r.propagatorTypes == lookup(hostname.value).value
    ensures r.Keep? ==> r.traceId == traceId && r.spanId == spanId && r.rulePsr == rate / 100.0
    ensures r.Keep? ==> (r.samplingPriorityHeader == "1" <==> IsSampled(traceId, rate))
    ensures r.SamplingPriorityHeader() == "0" || r.SamplingPriorityHeader() == "1"
  {
    if hostname.None? then Discard
    else
      match lookup(hostname.value)
      case Some(propagators) =>
        GenerateTracingAttributesWithSampling(rate, propagators, traceId, spanId)
      case None => Discard
  }

  // ----- arithmetic helpers -----

  /** Uniqueness of Euclidean division by a positive modulus. */
  lemma ModUnique(a: int, q: int, r: int, m: int)
    requires m > 0 && 0 <= r < m && a == q * m + r
    ensures a % m == r
  {
    var q', r' := a / m, a % m;
    assert a == q' * m + r';
    assert (q - q') * m == r' - r;
    if q > q' {
      assert (q - q') * m >= m by { MulAtLeast(q - q', m); }
    } else if q < q' {
      assert (q' - q) * m >= m by { MulAtLeast(q' - q, m); }
    }
  }

  lemma MulAtLeast(k: int, m: int)
    requires k >= 1 && m > 0
    ensures k * m >= m
  {
  }

  /** Adding a multiple of the modulus does not change the residue. */
  lemma ModAddMultiple(x: int, y: int, m: int)
    requires m > 0
    ensures (x + y * m) % m == x % m
  {
    var q, r := x / m, x % m;
    assert x + y * m == (q + y) * m + r;
    ModUnique(x + y * m, q + y, r, m);
  }

  /** A multiple of the modulus that lies in [0, m) is zero. */
  lemma MultipleBelowModulus(z: int, m: int)
    requires m > 0 && 0 <= z * m < m
    ensures z == 0
  {
    if z >= 1 {
      MulAtLeast(z, m);
    } else if z <= -1 {
      MulAtLeast(-z, m);
    }
  }

  // ----- properties of the sampling decision -----

  /** The hash only depends on the low 64 bits of the trace id. */
  lemma HashDependsOnLowBits(traceId: TraceId)
    ensures Hash(traceId) == Hash(traceId % TwoPow64)
  {
    var q, r := traceId / TwoPow64, traceId % TwoPow64;
    assert traceId * KnuthFactor == r * KnuthFactor + (q * KnuthFactor) * TwoPow64;
    ModAddMultiple(r * KnuthFactor, q * KnuthFactor, TwoPow64);
  }

  /** Two trace ids that agree on their low 64 bits get the same sampling
      decision, at every rate. */
  lemma SamplingDependsOnlyOnLowBits(t1: TraceId, t2: TraceId, rate: real)
    requires t1 % TwoPow64 == t2 % TwoPow64
    ensures IsSampled(t1, rate) == IsSampled(t2, rate)
    ensures Hash(t1) == Hash(t2)
  {
    HashDependsOnLowBits(t1);
    HashDependsOnLowBits(t2);
  }

  /** The hash is zero exactly when the low 64 bits of the trace id are zero,
      because the Knuth factor is invertible modulo 2^64. */
  lemma HashZeroIffLowBitsZero(traceId: TraceId)
    ensures Hash(traceId) == 0 <==> traceId % TwoPow64 == 0
  {
    var r := traceId % TwoPow64;
    HashDependsOnLowBits(traceId);
    assert KnuthFactor * KnuthInverse == 1 + 204612982964281147 * TwoPow64;
    if Hash(traceId) == 0 {
      var j := (r * KnuthFactor) / TwoPow64;
      assert r * KnuthFactor == j * TwoPow64;
      calc {
        r + (r * 204612982964281147) * TwoPow64;
        r * (KnuthFactor * KnuthInverse);
        (r * KnuthFactor) * KnuthInverse;
        (j * KnuthInverse) * TwoPow64;
      }
      assert r == (j * KnuthInverse - r * 204612982964281147) * TwoPow64;
      MultipleBelowModulus(j * KnuthInverse - r * 204612982964281147, TwoPow64);
    } else {
      assert r != 0;
    }
  }

  /** With rate 100 (or more) every matched request is sampled. */
  lemma FullRateSamplesEverything(traceId: TraceId, rate: real)
    requires rate >= 100.0
    ensures IsSampled(traceId, rate)
  {
    var h := Hash(traceId) as real;
    assert h < TwoPow64 as real;
    assert 100.0 * h <= 100.0 * (TwoPow64 as real) <= rate * (TwoPow64 as real);
  }

  /** With rate 0 a trace is sampled only when its low 64 bits are zero. */
  lemma ZeroRateSamplesOnlyZeroLowBits(traceId: TraceId)
    ensures IsSampled(traceId, 0.0) <==> traceId % TwoPow64 == 0
  {
    HashZeroIffLowBitsZero(traceId);
  }

  /** The decision is monotone in the rate. */
  lemma SamplingMonotoneInRate(traceId: TraceId, rate: real, rate': real)
    requires rate <= rate' && IsSampled(traceId, rate)
    ensures IsSampled(traceId, rate')
  {
  }

  /** End to end: a matched host at rate 100 always carries priority "1" and
      rulePsr 1. */
  lemma MatchedHostAtFullRateIsKept(
    hostname: string, lookup: string -> Option<seq<PropagatorType>>,
    traceId: TraceId, spanId: SpanId
  )
    requires lookup(hostname).Some?
    ensures var r := GetTracingAttributes(Some(hostname), lookup, 100.0, traceId, spanId);
            r.Keep? && r.samplingPriorityHeader == "1" && r.rulePsr == 1.0
  {
    FullRateSamplesEverything(traceId, 100.0);
  }

  /** End to end: at rate 0 a matched host is kept (ids are generated) but its
      priority is "0" unless the low 64 bits of the trace id are zero. */
  lemma MatchedHostAtZeroRate(
    hostname: string, lookup: string -> Option<seq<PropagatorType>>,
    traceId: TraceId, spanId: SpanId
  )
    requires lookup(hostname).Some?
    ensures var r := GetTracingAttributes(Some(hostname), lookup, 0.0, traceId, spanId);
            r.Keep? && (r.samplingPriorityHeader == "1" <==> traceId % TwoPow64 == 0)
  {
    ZeroRateSamplesOnlyZeroLowBits(traceId);
  }
}
