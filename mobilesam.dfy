/**
  The `MobileSAM` pipeline: a class-wide cache of the encoder and decoder
  models, filled lazily from the resource store; per instance, a backend,
  two workers, an array of six decoder input slots and the result texture.
*/
module MobileSam {
  import opened Wrappers
  import opened Sentis
  import opened Decoding

  const EncoderPath: string := "ONNX/mobilesam.encoder"
  const DecoderPath: string := "ONNX/mobilesam.decoder"

  /**
    One get of a lazily filled slot, where `found` is what the resource
    store holds: the asset is looked up only while none is known, and a
    model is imported only while none is held.
  */
  function LazyGet(s: Slot, found: Option<ModelAsset>): (r: Slot)
    ensures r.asset == (if s.asset.Some? then s.asset else found)
    ensures s.model.Some? ==> r.model == s.model
    ensures r.asset.None? ==> r.model == s.model
    ensures r.model.Some? <==> (s.model.Some? || r.asset.Some?)
    ensures s.model.None? && r.asset.Some? ==> r.model == Some(Imported(r.asset.value))
  {
    var asset := if s.asset.Some? then s.asset else found;
    if asset.None? then Slot(asset, s.model)
    else if s.model.None? then Slot(asset, Some(Imported(asset.value)))
    else Slot(asset, s.model)
  }

  /** A second get changes nothing: once filled, the slot keeps returning the same model. */
  lemma LazyGetIdempotent(s: Slot, found: Option<ModelAsset>)
    ensures LazyGet(LazyGet(s, found), found) == LazyGet(s, found)
  {
  }

  /**
    What `InitializeNetwork` does to the two cache slots, given what the
    resource store holds: it stops after the first get that yields no
    model; otherwise it replaces the encoder model with one that multiplies
    input 0 by 255 and then runs the previous encoder model.
  */
  function InitNetwork(enc: Slot, dec: Slot, encFound: Option<ModelAsset>, decFound: Option<ModelAsset>): InitOutcome
  {
    var enc1 := LazyGet(enc, encFound);
    if enc1.model.None? then InitOutcome(enc1, dec, false)
    else
      var dec1 := LazyGet(dec, decFound);
      if dec1.model.None? then InitOutcome(enc1, dec1, false)
      else InitOutcome(Slot(enc1.asset, Some(InputScaled(255.0, enc1.model.value))), dec1, true)
  }

  /**
    Workers are built exactly when both getters yield a model; the decoder
    slot is then just lazily filled, and the encoder gains one x255 stage
    around what its getter returned.
  */
  lemma InitNetworkBuildsIffBothModels(enc: Slot, dec: Slot, encFound: Option<ModelAsset>, decFound: Option<ModelAsset>)
    ensures var o := InitNetwork(enc, dec, encFound, decFound);
            && (o.built <==> LazyGet(enc, encFound).model.Some? && LazyGet(dec, decFound).model.Some?)
            && (LazyGet(enc, encFound).model.None? ==> o.decoder == dec)
            && (o.built ==> o.decoder == LazyGet(dec, decFound))
            && (o.built ==> o.encoder.model == Some(InputScaled(255.0, LazyGet(enc, encFound).model.value)))
            && (!o.built ==> o.encoder == LazyGet(enc, encFound))
            && o.encoder.asset == LazyGet(enc, encFound).asset
  {
  }

  /** `k` successive initialisations, as repeated `Backend` changes perform them. */
  function Reinit(k: nat, enc: Slot, dec: Slot, encFound: Option<ModelAsset>, decFound: Option<ModelAsset>): InitOutcome
  {
    var o := InitNetwork(enc, dec, encFound, decFound);
    if k <= 1 then o else Reinit(k - 1, o.encoder, o.decoder, encFound, decFound)
  }

  /**
    With both assets present and an empty cache, the k-th initialisation
    leaves an encoder wrapped in k x255 stages: input 0 is scaled by 255^k.
  */
  lemma {:induction false} ReinitStacksScaling(k: nat, encAsset: ModelAsset, decAsset: ModelAsset)
    requires k >= 1
    ensures var o := Reinit(k, Slot(None, None), Slot(None, None), Some(encAsset), Some(decAsset));
            && o.built
            && o.encoder == Slot(Some(encAsset), Some(Stacked255(k, encAsset)))
            && o.decoder == Slot(Some(decAsset), Some(Imported(decAsset)))
            && ScaleStages(o.encoder.model.value) == k
            && InputScale(o.encoder.model.value) == Power(255.0, k)
  {
    ReinitFromLoaded(k, 0, encAsset, decAsset);
    Stacked255Scale(k, encAsset);
  }

  lemma {:induction false} ReinitFromLoaded(k: nat, j: nat, encAsset: ModelAsset, decAsset: ModelAsset)
    requires k >= 1
    ensures var enc := if j == 0 then Slot(None, None) else Slot(Some(encAsset), Some(Stacked255(j, encAsset)));
            var dec := if j == 0 then Slot(None, None) else Slot(Some(decAsset), Some(Imported(decAsset)));
            Reinit(k, enc, dec, Some(encAsset), Some(decAsset))
              == InitOutcome(Slot(Some(encAsset), Some(Stacked255(j + k, encAsset))), Slot(Some(decAsset), Some(Imported(decAsset))), true)
  {
    var enc := if j == 0 then Slot(None, None) else Slot(Some(encAsset), Some(Stacked255(j, encAsset)));
    var dec := if j == 0 then Slot(None, None) else Slot(Some(decAsset), Some(Imported(decAsset)));
    var o := InitNetwork(enc, dec, Some(encAsset), Some(decAsset));
    assert o == InitOutcome(Slot(Some(encAsset), Some(Stacked255(j + 1, encAsset))), Slot(Some(decAsset), Some(Imported(decAsset))), true);
    if k > 1 {
      ReinitFromLoaded(k - 1, j + 1, encAsset, decAsset);
    }
  }

  /** The class-wide model fields, shared by every instance. */
  class ModelCache {
    const resources: map<string, ModelAsset>
    var encoderAsset: Option<ModelAsset>
    var encoderModel: Model?
    var decoderAsset: Option<ModelAsset>
    var decoderModel: Model?

    constructor (resources: map<string, ModelAsset>)
      ensures this.resources == resources
      ensures encoderAsset == None && encoderModel == null
      ensures decoderAsset == None && decoderModel == null
    {
      this.resources := resources;
      encoderAsset := None;
      encoderModel := null;
      decoderAsset := None;
      decoderModel := null;
    }

    function EncoderSlot(): Slot
      reads this
    {
      Slot(encoderAsset, GraphOf(encoderModel))
    }

    function DecoderSlot(): Slot
      reads this
    {
      Slot(decoderAsset, GraphOf(decoderModel))
    }

    /** The `Encoder` getter. An error is logged when the asset is missing. */
    method Encoder() returns (m: Model?)
      modifies this
      ensures EncoderSlot() == LazyGet(old(EncoderSlot()), ResourcesLoad(resources, EncoderPath))
      ensures m == encoderModel
      ensures old(encoderModel) != null ==> encoderModel == old(encoderModel)
      ensures encoderModel != old(encoderModel) ==> fresh(encoderModel)
      ensures decoderAsset == old(decoderAsset) && decoderModel == old(decoderModel)
    {
      if encoderAsset.None? {
        encoderAsset := ResourcesLoad(resources, EncoderPath);
      }
      if encoderAsset.Some? && encoderModel == null {
        encoderModel := LoadModel(encoderAsset.value);
      }
      m := encoderModel;
    }

    /** The `Decoder` getter. An error is logged when the asset is missing. */
    method Decoder() returns (m: Model?)
      modifies this
      ensures DecoderSlot() == LazyGet(old(DecoderSlot()), ResourcesLoad(resources, DecoderPath))
      ensures m == decoderModel
      ensures old(decoderModel) != null ==> decoderModel == old(decoderModel)
      ensures decoderModel != old(decoderModel) ==> fresh(decoderModel)
      ensures encoderAsset == old(encoderAsset) && encoderModel == old(encoderModel)
    {
      if decoderAsset.None? {
        decoderAsset := ResourcesLoad(resources, DecoderPath);
      }
      if decoderAsset.Some? && decoderModel == null {
        decoderModel := LoadModel(decoderAsset.value);
      }
      m := decoderModel;
    }
  }

  class MobileSam {
    const cache: ModelCache
    /** The six decoder input slots. */
    const inputTensors: array<Option<Tensor>>
    var backend: BackendType
    var encoder: Worker?
    var decoder: Worker?
    /** The render target allocated for the resized input. */
    var resizedInput: Option<Texture>
    var result: Option<Texture>

    ghost predicate Valid()
    {
      inputTensors.Length == 6
    }

    /**
      Two live workers on the current backend, fresh from construction,
      run the cached models, and a 1024x1024 target is allocated.
    */
    ghost predicate WorkersReady()
      reads this, cache, encoder, decoder
    {
      && encoder != null && decoder != null
      && encoder.model == cache.encoderModel && encoder.backend == backend
      && !encoder.disposed && encoder.scheduled == []
      && decoder.model == cache.decoderModel && decoder.backend == backend
      && !decoder.disposed && decoder.scheduled == []
      && resizedInput == Some(Texture(1024, 1024))
    }

    /**
      The state `InitializeNetwork` leaves, from cache slots `enc0`, `dec0`
      and the previous workers and render target: the cache slots follow
      `InitNetwork`; when it builds, the workers are ready, otherwise the
      workers and the target are as before.
    */
    ghost predicate InitializedFrom(enc0: Slot, dec0: Slot, encoder0: Worker?, decoder0: Worker?, resized0: Option<Texture>)
      reads this, cache, encoder, decoder
    {
      var o := InitNetwork(enc0, dec0, ResourcesLoad(cache.resources, EncoderPath), ResourcesLoad(cache.resources, DecoderPath));
      && cache.EncoderSlot() == o.encoder
      && cache.DecoderSlot() == o.decoder
      && if o.built then WorkersReady()
         else encoder == encoder0 && decoder == decoder0 && resizedInput == resized0
    }

    /** A new instance on the CPU backend, initialised from the shared cache. */
    constructor (cache: ModelCache)
      modifies cache
      ensures this.cache == cache && Valid() && fresh(inputTensors)
      ensures forall i :: 0 <= i < 6 ==> inputTensors[i] == None
      ensures backend == CPU && result == None
      ensures InitializedFrom(old(cache.EncoderSlot()), old(cache.DecoderSlot()), null, null, None)
      ensures encoder != null ==> fresh(encoder)
      ensures decoder != null ==> fresh(decoder)
    {
      this.cache := cache;
      inputTensors := new Option<Tensor>[6](_ => None);
      backend := CPU;
      encoder := null;
      decoder := null;
      resizedInput := None;
      result := None;
      new;
      InitializeNetwork();
    }

    method InitializeNetwork()
      requires Valid()
      modifies this, cache
      ensures backend == old(backend) && result == old(result)
      ensures InitializedFrom(old(cache.EncoderSlot()), old(cache.DecoderSlot()), old(encoder), old(decoder), old(resizedInput))
      ensures encoder != old(encoder) ==> fresh(encoder)
      ensures decoder != old(decoder) ==> fresh(decoder)
    {
      ghost var o := InitNetwork(cache.EncoderSlot(), cache.DecoderSlot(),
        ResourcesLoad(cache.resources, EncoderPath), ResourcesLoad(cache.resources, DecoderPath));
      var probeEncoder := cache.Encoder();
      if probeEncoder == null {
        return;
      }
      var probeDecoder := cache.Decoder();
      if probeDecoder == null {
        return;
      }
      LazyGetIdempotent(o.encoder, ResourcesLoad(cache.resources, EncoderPath));
      BuildWorkers();
    }

    /** The part of `InitializeNetwork` after both models are known to exist. */
    method BuildWorkers()
      requires cache.encoderModel != null && cache.decoderModel != null
      requires LazyGet(cache.EncoderSlot(), ResourcesLoad(cache.resources, EncoderPath)) == cache.EncoderSlot()
      requires LazyGet(cache.DecoderSlot(), ResourcesLoad(cache.resources, DecoderPath)) == cache.DecoderSlot()
      modifies this, cache
      ensures cache.EncoderSlot() == Slot(old(cache.encoderAsset), Some(InputScaled(255.0, old(cache.encoderModel.graph))))
      ensures cache.DecoderSlot() == old(cache.DecoderSlot())
      ensures WorkersReady() && fresh(encoder) && fresh(decoder)
      ensures backend == old(backend) && result == old(result)
    {
      var signature := cache.Encoder();
      var forwarded := cache.Encoder();
      var compiled := CompileInputScaled(255.0, forwarded);
      cache.encoderModel := compiled;
      var encoderModel := cache.Encoder();
      encoder := new Worker(encoderModel, backend);
      var decoderModel := cache.Decoder();
      decoder := new Worker(decoderModel, backend);
      resizedInput := Some(Texture(1024, 1024));
    }

    /** The `Backend` setter. */
    method SetBackend(value: BackendType)
      requires Valid()
      modifies this, cache, encoder, decoder
      ensures value == old(backend) ==> unchanged(this, cache)
      ensures value == old(backend) && old(encoder) != null ==> unchanged(old(encoder))
      ensures value == old(backend) && old(decoder) != null ==> unchanged(old(decoder))
      ensures value != old(backend) ==>
                && backend == value && result == old(result)
                && (old(encoder) != null ==> old(encoder).disposed && old(encoder).scheduled == old(encoder.scheduled))
                && (old(decoder) != null ==> old(decoder).disposed && old(decoder).scheduled == old(decoder.scheduled))
                && InitializedFrom(old(cache.EncoderSlot()), old(cache.DecoderSlot()), old(encoder), old(decoder), old(resizedInput))
                && (encoder != old(encoder) ==> fresh(encoder))
                && (decoder != old(decoder) ==> fresh(decoder))
    {
      if backend != value {
        Dispose();
        backend := value;
        InitializeNetwork();
      }
    }

    /**
      The tail of `DecodeMasks` for an arbitrary prompt: on a count
      mismatch it throws before touching anything; otherwise it fills the
      six slots in order, schedules the decoder on them and takes the result
      size from the decoder's `masks` output.
    */
    method DecodePrompt(inputImage: Texture, imageEmbeddings: Tensor, pointCoords: seq<real>, pointLabels: seq<real>, masks: Tensor)
      returns (outcome: Outcome<DecodeError>)
      requires Valid() && decoder != null && |masks.shape| >= 4
      modifies this`result, inputTensors, decoder
      ensures outcome.Fail? <==> ValidatePrompt(pointCoords, pointLabels).Failure?
      ensures outcome.Fail? ==>
                && outcome == Fail(ArgumentException(LabelMismatch))
                && unchanged(inputTensors) && unchanged(decoder) && result == old(result)
      ensures outcome.Pass? ==>
                && inputTensors[..] == Slots(DecoderInputs(imageEmbeddings, pointCoords, pointLabels, inputImage))
                && decoder.scheduled == old(decoder.scheduled) + [inputTensors[..]]
                && decoder.disposed == old(decoder.disposed)
                && result == Some(MaskTexture(masks))
    {
      var numPoints := |pointCoords| / 2;
      var numLabels := |pointLabels|;
      if numPoints != numLabels {
        return Fail(ArgumentException(LabelMismatch));
      }
      var pointCoordsTensor := Tensor([1, numPoints, 2], Values(pointCoords));
      var pointLabelsTensor := Tensor([1, numPoints], Values(pointLabels));
      var maskInput := Tensor([1, 1, 256, 256], Zeros);
      var hasMaskInput := Tensor([1], Values([0.0]));
      var origImSize := Tensor([2], Values([inputImage.width as real, inputImage.height as real]));
      inputTensors[0] := Some(imageEmbeddings);
      inputTensors[1] := Some(pointCoordsTensor);
      inputTensors[2] := Some(pointLabelsTensor);
      inputTensors[3] := Some(maskInput);
      inputTensors[4] := Some(hasMaskInput);
      inputTensors[5] := Some(origImSize);
      decoder.Schedule(inputTensors[..]);
      var height := masks.shape[2];
      var width := masks.shape[3];
      result := Some(Texture(width, height));
      outcome := Pass;
    }

    /**
      `DecodeMasks`: the prompt arguments are replaced by the centre point
      with label 1, so the count check always passes.
    */
    method DecodeMasks(inputImage: Texture, imageEmbeddings: Tensor, pointCoords: seq<real>, pointLabels: seq<real>, masks: Tensor)
      returns (outcome: Outcome<DecodeError>)
      requires Valid() && decoder != null && |masks.shape| >= 4
      modifies this`result, inputTensors, decoder
      ensures outcome == Pass
      ensures inputTensors[..] == Slots(DecoderInputs(imageEmbeddings, CentrePrompt(inputImage).0, [1.0], inputImage))
      ensures decoder.scheduled == old(decoder.scheduled) + [inputTensors[..]]
      ensures decoder.disposed == old(decoder.disposed)
      ensures result == Some(MaskTexture(masks))
    {
      var centre := CentrePrompt(inputImage);
      CentrePromptValid(inputImage);
      outcome := DecodePrompt(inputImage, imageEmbeddings, centre.0, centre.1, masks);
    }

    /** Disposes whichever workers exist. */
    method Dispose()
      modifies encoder, decoder
      ensures encoder != null ==> encoder.disposed && encoder.scheduled == old(encoder.scheduled)
      ensures decoder != null ==> decoder.disposed && decoder.scheduled == old(decoder.scheduled)
    {
      if encoder != null {
        encoder.Dispose();
      }
      if decoder != null {
        decoder.Dispose();
      }
    }
  }
}
