/**
 * The sampling configuration fields that the sequence group and the sampler read.
 * The configuration module itself is not part of this model; only these fields are.
 */
module Config {

  /** Temperatures below this threshold select greedy (argmax) decoding. */
  const SamplingEps: real := 0.00001

  /** The sampling parameters of one request, restricted to the fields used here. */
  datatype SamplingParams = SamplingParams(
    temperature: real,
    topP: real,
    bestOf: nat,
    useBeamSearch: bool
  )
}
