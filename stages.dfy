/**
 * The data transforms of the authentication pipeline.  Preprocessing and
 * feature extraction are placeholders that pass the captured segment through
 * unchanged; tensor assembly adds a leading batch axis of size one, which
 * numpy refuses for an empty segment (it is then one-dimensional and cannot
 * be indexed with two slices).
 */
module Stages {

  datatype Option<T> = None | Some(value: T)

  /** Preprocessing stage: the segment as-is. */
  function Preprocess<S>(segment: seq<S>): (r: seq<S>)
    ensures r == segment
  {
    segment
  }

  /** Feature-extraction stage: the preprocessed segment as-is. */
  function ExtractFeatures<S>(preprocessed: seq<S>): (r: seq<S>)
    ensures r == preprocessed
  {
    preprocessed
  }

  /**
   * Tensor assembly, `features[np.newaxis, :, :]`: a batch holding the
   * features as its only element, or `None` where numpy raises IndexError.
   */
  function AssembleInput<S>(features: seq<S>): (r: Option<seq<seq<S>>>)
    ensures r.None? <==> features == []
    ensures r.Some? ==> |r.value| == 1 && r.value[0] == features
  {
    if features == [] then None else Some([features])
  }

  /** The model input is the captured segment itself, as a batch of one. */
  lemma PipelineWrapsSegment<S>(segment: seq<S>)
    ensures AssembleInput(ExtractFeatures(Preprocess(segment)))
         == if segment == [] then None else Some([segment])
  {
  }
}
