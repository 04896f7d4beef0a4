/**
  The part of `DecodeMasks` that both pipeline variants share: the check of
  the prompt against its labels, the fixed centre-point prompt, the six
  decoder inputs in their fixed order, and the size of the result texture.
*/
module Decoding {
  import opened Wrappers
  import opened Sentis

  /** The exception `DecodeMasks` throws. */
  datatype DecodeError = ArgumentException(message: string)

  const LabelMismatch: string := "number of point labels does not match the number of points."

  /**
    The count check: `numPoints = coords.Length / 2` (integer division)
    must equal the number of labels; on success it gives the point count.
  */
  function ValidatePrompt(pointCoords: seq<real>, pointLabels: seq<real>): Result<nat, DecodeError>
  {
    var numPoints := |pointCoords| / 2;
    var numLabels := |pointLabels|;
    if numPoints != numLabels then Failure(ArgumentException(LabelMismatch)) else Success(numPoints)
  }

  /**
    The check accepts exactly the prompts with two coordinates per label,
    plus one stray coordinate: the division truncates an odd length.
  */
  lemma ValidatePromptAccepts(pointCoords: seq<real>, pointLabels: seq<real>)
    ensures ValidatePrompt(pointCoords, pointLabels).Success?
        <==> (|pointCoords| == 2 * |pointLabels| || |pointCoords| == 2 * |pointLabels| + 1)
    ensures ValidatePrompt(pointCoords, pointLabels).Success? ==>
              ValidatePrompt(pointCoords, pointLabels).value == |pointLabels|
    ensures ValidatePrompt(pointCoords, pointLabels).Failure? ==>
              ValidatePrompt(pointCoords, pointLabels).error == ArgumentException(LabelMismatch)
  {
  }

  /** The prompt `DecodeMasks` always uses: the image centre `(width/2, height/2)`, label 1. */
  function CentrePrompt(inputImage: Texture): (prompt: (seq<real>, seq<real>))
    ensures |prompt.0| == 2 && prompt.1 == [1.0]
    ensures 2.0 * prompt.0[0] == inputImage.width as real && 2.0 * prompt.0[1] == inputImage.height as real
  {
    ([inputImage.width as real / 2.0, inputImage.height as real / 2.0], [1.0])
  }

  /** The centre prompt always passes the count check, so `DecodeMasks` never throws. */
  lemma CentrePromptValid(inputImage: Texture)
    ensures ValidatePrompt(CentrePrompt(inputImage).0, CentrePrompt(inputImage).1) == Success(1)
  {
  }

  /** The names of the decoder inputs, in slot order. */
  const ImageEmbeddings: string := "image_embeddings"
  const PointCoords: string := "point_coords"
  const PointLabels: string := "point_labels"
  const MaskInput: string := "mask_input"
  const HasMaskInput: string := "has_mask_input"
  const OrigImSize: string := "orig_im_size"

  const InputNames: seq<string> := [ImageEmbeddings, PointCoords, PointLabels, MaskInput, HasMaskInput, OrigImSize]

  /**
    The six decoder inputs in slot order: the embeddings, the coordinates
    as a (1, N, 2) tensor, the labels as (1, N), a zero (1, 1, 256, 256)
    mask, `has_mask_input = [0]` and `orig_im_size = [width, height]`,
    with `N = |pointCoords| / 2`. Coordinates are passed in original pixels.
  */
  function DecoderInputs(imageEmbeddings: Tensor, pointCoords: seq<real>, pointLabels: seq<real>, inputImage: Texture): seq<Tensor>
  {
    var numPoints := |pointCoords| / 2;
    [ imageEmbeddings,
      Tensor([1, numPoints, 2], Values(pointCoords)),
      Tensor([1, numPoints], Values(pointLabels)),
      Tensor([1, 1, 256, 256], Zeros),
      Tensor([1], Values([0.0])),
      Tensor([2], Values([inputImage.width as real, inputImage.height as real]))
    ]
  }

  function Product(shape: seq<int>): int
  {
    if shape == [] then 1 else shape[0] * Product(shape[1..])
  }

  /** A tensor built from values holds exactly as many values as its shape has elements. */
  predicate Fits(t: Tensor)
  {
    t.data.Values? ==> |t.data.values| == Product(t.shape)
  }

  /**
    The input contract of the decoder graph for `n` points: six tensors,
    the embeddings first, then shapes (1,n,2), (1,n), (1,1,256,256), (1)
    and (2), each holding as many values as its shape has elements.
  */
  predicate MeetsDecoderContract(inputs: seq<Tensor>, imageEmbeddings: Tensor, n: nat)
  {
    && |inputs| == 6
    && inputs[0] == imageEmbeddings
    && inputs[1].shape == [1, n, 2]
    && inputs[2].shape == [1, n]
    && inputs[3].shape == [1, 1, 256, 256]
    && inputs[4].shape == [1]
    && inputs[5].shape == [2]
    && Fits(inputs[1]) && Fits(inputs[2]) && Fits(inputs[3]) && Fits(inputs[4]) && Fits(inputs[5])
  }

  /**
    For two coordinates per label the inputs meet the decoder contract;
    there is no prior mask (`mask_input` zero, `has_mask_input = [0]`),
    the prompt is passed through unchanged and `orig_im_size` is
    `[width, height]`.
  */
  lemma DecoderInputsMeetContract(imageEmbeddings: Tensor, pointCoords: seq<real>, pointLabels: seq<real>, inputImage: Texture)
    requires |pointCoords| == 2 * |pointLabels|
    ensures var inputs := DecoderInputs(imageEmbeddings, pointCoords, pointLabels, inputImage);
            && MeetsDecoderContract(inputs, imageEmbeddings, |pointLabels|)
            && inputs[1].data == Values(pointCoords) && inputs[2].data == Values(pointLabels)
            && inputs[3].data == Zeros && inputs[4].data == Values([0.0])
            && inputs[5].data == Values([inputImage.width as real, inputImage.height as real])
  {
    var n := |pointLabels|;
    assert Product([2]) == 2;
    assert Product([n, 2]) == n * 2;
    assert Product([1, n, 2]) == 2 * n;
    assert Product([n]) == n;
    assert Product([1, n]) == n;
  }

  /**
    A stray odd coordinate passes the count check, yet the coordinate
    tensor then holds three values for a (1, 1, 2) shape.
  */
  lemma OddCoordinateCountPassesCheck()
    ensures ValidatePrompt([10.0, 20.0, 30.0], [1.0]) == Success(1)
    ensures !Fits(DecoderInputs(Tensor([], Opaque), [10.0, 20.0, 30.0], [1.0], Texture(0, 0))[1])
  {
    assert Product([2]) == 2;
    assert Product([1, 2]) == 2;
    assert Product([1, 1, 2]) == 2;
  }

  /** The array slots holding the given tensors, in order. */
  function Slots(inputs: seq<Tensor>): seq<Option<Tensor>>
  {
    seq(|inputs|, i requires 0 <= i < |inputs| => Some(inputs[i]))
  }

  /** The six inputs keyed by their names, as the dictionary variant passes them. */
  function NamedInputs(inputs: seq<Tensor>): map<string, Tensor>
    requires |inputs| == 6
  {
    map[ImageEmbeddings := inputs[0], PointCoords := inputs[1], PointLabels := inputs[2],
        MaskInput := inputs[3], HasMaskInput := inputs[4], OrigImSize := inputs[5]]
  }

  /**
    The dictionary's keys are exactly the input names (six distinct names,
    by `NamesDistinct`), and each name maps to its slot's tensor.
  */
  lemma NamedInputsByName(inputs: seq<Tensor>)
    requires |inputs| == 6
    ensures forall name :: name in NamedInputs(inputs) <==> name in InputNames
    ensures forall i :: 0 <= i < 6 ==> NamedInputs(inputs)[InputNames[i]] == inputs[i]
  {
    NamesDistinct();
  }

  /** No two input names coincide: they differ in length or in one character. */
  lemma NamesDistinct()
    ensures forall i, j :: 0 <= i < j < 6 ==> InputNames[i] != InputNames[j]
  {
    assert |ImageEmbeddings| == 16 && |HasMaskInput| == 14 && |MaskInput| == 10;
    assert |PointCoords| == 12 && |PointLabels| == 12 && |OrigImSize| == 12;
    assert PointCoords[6] != PointLabels[6];
    assert PointCoords[0] != OrigImSize[0] && PointLabels[0] != OrigImSize[0];
  }

  /**
    The texture `DecodeMasks` makes of the decoder's `masks` output: its
    height is shape dimension 2, its width dimension 3.
  */
  function MaskTexture(masks: Tensor): Texture
    requires |masks.shape| >= 4
  {
    Texture(masks.shape[3], masks.shape[2])
  }

  /** What a model-cache slot holds: the asset found so far and the graph of the model built so far. */
  datatype Slot = Slot(asset: Option<ModelAsset>, model: Option<Graph>)

  /** The two cache slots after `InitializeNetwork`, and whether it went on to build the workers. */
  datatype InitOutcome = InitOutcome(encoder: Slot, decoder: Slot, built: bool)
}
